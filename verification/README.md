# Pagination and schema-composition API — a Dafny model

The system is a small FastAPI service that shows how OpenAPI 3.1 features
look in a running API. It has six endpoints:

- `GET /items` does offset pagination over a fixed catalogue of 100 items.
- `POST /pets` accepts an `anyOf` of `Cat` and `Dog`.
- `POST /shapes/oneof` accepts a `oneOf` of `Rectangle` and `Circle`, with an extra cross-field rule.
- `POST /products/allof` accepts an `allOf` of `BaseProduct`, `InventoryItem` and `ShippingDetails`, plus density and reorder-value rules.
- `GET /laptops/{laptop_id}` returns a laptop record projected onto one of three verbosity tiers.
- `GET /laptops` returns every sample laptop projected onto one of those tiers.

Request validation is done by the validation library behind the framework. The model treats it as a pure function from a payload to either a value or a list of field errors:

- Every field of a payload is an `Option`: `None` means the field is absent from the JSON object. An explicit `null` is not modelled (see Left out).
- Errors are `FieldError(loc, kind)` entries, listed in field order.
- A union tries its variants left to right.
- Every failed request is an `Err`.

Modules:

- `Common`: `Option`, `Result`, the error kinds, and `Locs` (the set of fields an error list mentions).
- `Patterns`: a small matcher for the anchored regular expressions of the schemas (`^[A-Z]{2}[0-9]{6}$`, `^[A-Z]-[0-9]{2}-[0-9]{2}$`, `^#[0-9a-fA-F]{6}$`). Each pattern is proved equivalent to a direct predicate on its characters.
- `Pagination`: the catalogue, the `page`/`size` query checks, `get_items` (over any list, and over the catalogue) and the properties of its pages.
- `Pets`: the `Cat` and `Dog` validators, the union, and `add_pet` with its response-model re-validation.
- `Shapes`: the shape fields, both variants, `validate_shape_properties`, and the endpoint in two readings. One follows the schemas exactly; the other is corrected (see Findings).
- `Products`: the three facet validators, the cross-field rules of `CompleteProduct`, and `create_product`.
- `Laptops`: the verbosity enumeration, the field sets of the three tiers, the projection onto a tier, the four sample records, `get_laptop` and `list_laptops`.

The model follows the code, including where it may surprise a reader:

- A page past the end raises 404 "Page not found" rather than returning an empty list.
- `page` and `size` default to 1 and 10.
- A pet's `name` has no minimum length.
- `get_laptop` ignores `laptop_id` and always answers with the first sample.
- `list_laptops` checks `limit` and `offset` but returns every sample.

## Model

| member | source | states |
|---|---|---|
| Patterns.ProductIdPattern | main.py:148 | `^[A-Z]{2}[0-9]{6}$` matches exactly the 8-character strings of two upper-case letters then six digits |
| Patterns.WarehouseLocationPattern | main.py:155-156 | `^[A-Z]-[0-9]{2}-[0-9]{2}$` matches exactly an upper-case letter, `-`, two digits, `-`, two digits |
| Patterns.HexColorPattern | main.py:74-75 | `^#[0-9a-fA-F]{6}$` matches exactly `#` followed by six hexadecimal digits of either case |
| Pagination.Decimal | main.py:19 | the text `f"{i}"` of an item number is non-empty, all digits, and has no leading zero |
| Pagination.DecimalRoundTrip | main.py:19 | reading an item number's decimal text back gives the number: the formatting loses nothing |
| Pagination.ItemNameInjective | main.py:19 | two different ids never produce the same `"Item {i}"` name |
| Pagination.Items | main.py:19 | the catalogue has 100 items whose ids run from 1 to 100 in order, and no two items share a name |
| Pagination.QueryErrors | main.py:389-393 | the query is rejected exactly when `page < 1`, `size < 1` or `size > 50`; each offending parameter is reported, and only those |
| Pagination.PySlice | main.py:405 | Python's `xs[start:end]` with both ends clamped to the length: its length, and that each element comes from `start + k` |
| Pagination.Paginate | main.py:387-414 | an invalid query gives the query errors; a valid one fails with "Page not found" exactly when `(page-1)*size >= total`; otherwise the page holds items `start .. min(start+size, total)` (between 1 and `size` of them) and echoes `total`, `page`, `size` and the ceiling page count |
| Pagination.GetItems | app.py:33-57 | a page of the catalogue reports 100 items in total, and its `k`-th item is item number `start+k+1` with name `"Item {start+k+1}"`; the last item's id is `min(start+size, 100)` |
| Pagination.GetItemsWithDefaults | app.py:35-36 | an absent `page` is 1 and an absent `size` is 10, each on its own: the request is checked, paged and echoed with those values; a request without parameters is page 1 of size 10, ten items starting at id 1, with 10 pages in all |
| Pagination.TotalPagesIsCeiling | app.py:49 | `(total + size - 1) // size` is the least number of pages of `size` items that holds `total` items, and it is 0 only when there are no items |
| Pagination.PageFoundIffWithinTotalPages | main.py:399-406 | for a valid query, a page is found exactly when `page <= total_pages` |
| Pagination.OnlyLastPageShort | app.py:42-49 | every page that is found is at most `total_pages`; each page before the last is full, and the last holds the remaining `total - (total_pages-1)*size` items |
| Pagination.PagesFromIsSuffix | app.py:42-48 | reading pages from `page` onward until "Page not found" yields exactly the items from that page's start: nothing is skipped or repeated |
| Pagination.PagesPartitionItems | main.py:399-405 | reading every page from page 1 onward, for any valid size, yields the whole item list in order |
| Pets.CatErrors | main.py:37-46 | `Cat` rejects a payload exactly when `petType` is not `"cat"`, or `name` or `favoriteToy` is missing; only those fields are reported |
| Pets.DogErrors | main.py:49-58 | `Dog` rejects a payload exactly when `petType` is not `"dog"`, or `name` or `breed` is missing; only those fields are reported |
| Pets.ValidateCat | main.py:37-46 | a `Cat` is built exactly when the cat checks pass, and it carries the payload's name and toy; a rejection has at least one error |
| Pets.ValidateDog | main.py:49-58 | a `Dog` is built exactly when the dog checks pass, and it carries the payload's name and breed; a rejection has at least one error |
| Pets.ResolvePet | main.py:61-63 | `Union[Cat, Dog]` yields a cat exactly when the payload is a valid cat and a dog exactly when it is a valid dog, carrying the payload's name and its toy or breed; any other `petType` is rejected with both variants' (non-empty) errors |
| Pets.UnionOrderIrrelevant | main.py:63 | no payload is both a valid cat and a valid dog, so trying `Dog` first gives the same result |
| Pets.Dump | main.py:206 | `model_dump` keeps the pet's name and writes the tag of its variant |
| Pets.DumpRoundTrip | main.py:206 | validating a pet's dump as the union gives back the same pet |
| Pets.AddPet | main.py:197-209 | a body without `pet` is rejected as missing `pet`; otherwise the request succeeds exactly when the union accepts the pet, and the response re-validates to that same pet |
| Shapes.ParseShapeType | main.py:67-69 | `"rectangle"` and `"circle"` are the only values of the `ShapeType` enumeration, each naming its own tag |
| Shapes.ValidateRectangle | main.py:72-83 | a rectangle is accepted exactly when `shape_type` (if present) is an allowed tag, the color matches the hex pattern, the name has 1 to 50 characters, and width and height are in (0, 1000]; the shape keeps those values, and an absent tag defaults to rectangle |
| Shapes.ValidateCircle | main.py:102-105 | a circle is accepted exactly when the shared fields are valid and the radius is in (0, 500]; an absent tag defaults to circle |
| Shapes.AspectRatioWithoutDivision | main.py:131-136 | the rule `max/min > 10` rejects a rectangle exactly when its longer side exceeds ten times its shorter one; the rule is symmetric in width and height |
| Shapes.PropertyErrors | main.py:127-143 | `validate_shape_properties` passes a rectangle exactly when its longer side is at most ten times its shorter one, and a circle exactly when pi·r² is at most the area cap; any error is a single entry about `shape` |
| Shapes.ResolveWith | main.py:124-143 | the union picks a rectangle whenever the rectangle schema accepts and the aspect rule holds, and a circle only when the rectangle schema rejects and the area is within the cap; both variants' errors are returned when neither schema accepts |
| Shapes.ResolveShapeAsWritten | main.py:124-143 | as written: a payload becomes a rectangle exactly when its shared fields, width, height and aspect ratio are valid, whatever its `shape_type`; it becomes a circle exactly when it is not a valid rectangle, its radius is in (0, 500] and its area is at most 785000 |
| Shapes.ResolveShape | main.py:124-143 | corrected: every accepted shape's tag names its own variant; a `"circle"` payload is never a rectangle and a `"rectangle"` payload never a circle; a rectangle is accepted exactly when its shared fields (with tag `rectangle` or absent), sides in (0, 1000] and aspect ratio are valid; a circle is accepted exactly when its fields (with tag `circle` or absent) and radius are valid and the payload is not a valid rectangle |
| Shapes.CircleTagAcceptedAsRectangle | main.py:72-83 | as written, `{"shape_type": "circle", "width": 2, "height": 3}` is accepted as a rectangle tagged `circle` |
| Shapes.LargestRadiusRejected | main.py:138-141 | as written, a circle of radius 500, which the radius bound allows, is rejected by the area cap |
| Shapes.IntendedCapAdmitsEveryRadius | main.py:138-141 | with the cap set to pi·500², every radius in (0, 500] passes the area rule |
| Shapes.NegativeRadiusReported | main.py:104-105 | a circle with radius -10 is rejected, and the circle variant reports `radius` as not greater than 0 |
| Products.ValidateBaseProduct | main.py:147-150 | `BaseProduct` accepts exactly an `id` matching `XX123456`, a name of 1 to 100 characters and a positive price; rejections carry the facet's errors |
| Products.ValidateInventory | main.py:153-157 | `InventoryItem` accepts exactly a non-negative stock count, a location matching `A-01-02` and a non-negative reorder point |
| Products.ValidateShipping | main.py:160-172 | `ShippingDetails` accepts exactly a weight in (0, 1000] and three dimensions each in (0, 300]; `fragile` defaults to false |
| Products.DensityWithoutDivision | main.py:181-187 | the volume in m³ is positive, and `weight / volume <= 2000` holds exactly when `weight * 500 <= length * width * height` |
| Products.CheckCrossFieldRules | main.py:178-194 | the product is kept exactly when both the density rule and the reorder rule (`reorder_point * price <= 10000`) hold; the density error is reported first |
| Products.ValidateCompleteProduct | main.py:176-194 | `CompleteProduct` is accepted exactly when all three facets are valid and both cross-field rules hold; the value combines the three facets; fields are rejected exactly when some facet is invalid, with the errors of all facets in shipping, inventory, base order |
| Products.FailingFieldsReported | main.py:147-172 | a rejected `CompleteProduct` reports exactly the fields that violate their own constraints (id pattern, name length, positive price, non-negative counts, location pattern, weight and dimension bounds): every failing field of every facet appears, and no valid field does |
| Products.FacetOrderIrrelevant | main.py:176 | the combined error list is empty exactly when every facet is valid, and it holds the same entries whatever order the facets are checked in |
| Products.CreateProduct | main.py:417-435 | a product is created exactly when `CompleteProduct` accepts it, and the response carries that validated product; a rejection carries `CompleteProduct`'s error; the reorder value is `reorder_point * price`, lies in [0, 10000], and its volume is positive |
| Laptops.ParseVerbosity | main.py:211-214 | `verbosity` defaults to regular; each of `"minimum"`, `"regular"` and `"extended"` selects its tier, and anything else is rejected as outside the enumeration |
| Laptops.Project | main.py:489-502 | projecting a record onto a tier succeeds exactly when the record has every field of the tier; the result has exactly the tier's fields, with the record's values |
| Laptops.TiersNested | main.py:217-249 | the field sets of `LaptopBase`, `LaptopRegular` and `LaptopExtended`, each declared separately, grow with verbosity; regular adds exactly the six common specs to minimum, and extended exactly the twelve detail fields to regular |
| Laptops.ProjectionsNested | main.py:489-502 | whenever a record can be shown at a tier, it can be shown at any lower tier, and the lower view is a sub-record of the higher one |
| Laptops.ProjectTwice | main.py:489-502 | projecting a higher tier's view onto a lower tier gives the lower tier's view directly |
| Laptops.ExtendedKeepsCompleteRecord | main.py:501-502 | a record with exactly the extended fields is returned whole by the extended tier |
| Laptops.SampleLaptops | main.py:252-346 | there are four sample laptops, each with an `id`, and no two share one |
| Laptops.SamplesComplete | main.py:252-346 | there are four sample laptops, and each has exactly the extended tier's fields |
| Laptops.GetLaptop | main.py:473-502 | the request succeeds exactly when `verbosity` is valid; the answer has exactly the chosen tier's fields, each taken from the first sample, whatever `laptop_id` is |
| Laptops.ListQueryErrors | main.py:506-513 | the list query is accepted exactly when `verbosity` is valid, `limit` (default 2) is in 1..100 and `offset` (default 0) is at least 0 |
| Laptops.ListLaptops | main.py:505-534 | a valid query returns one view per sample, in order, each the sample projected onto the chosen tier; an invalid one returns the query errors |

## Left out

- HTTP details are left out. Status codes (404, 422), the error body's shape (`type`, `msg`, `input`, `ctx`) and the JSON serialisation of responses are not modelled. A rejection is an `Err` carrying the failing fields and error kinds.
- Type coercion of JSON values is left out. A present field is assumed to have the declared JSON type; strings given for numbers and similar lax coercions are not modelled.
- Fields a schema does not declare are ignored by the service. The payloads do not carry them.
- Floating point is replaced by exact reals. Rounding is not modelled, including the `round(..., 2)` in the circle area and the 785000 comparison on the rounded area.
- The "Maximum 2 decimal places allowed" checks on width, height and radius (main.py:94-99 and main.py:109-114) are left out. They depend on Python's float-to-string conversion.
- The derived response fields are left out: `aspect_ratio` (main.py:86-92), `circumference` and `area` (main.py:116-121), and the `validation_details` that `create_shape` assembles (main.py:360-384). They are response decoration computed with rounding.
- Products.CreateProduct: reports only `reorder_value`; the rounded `volume_m3` and `density_kg_m3` metrics are not modelled, beyond the volume being positive.
- Shapes.ResolveWith: when a payload is valid as both a rectangle and a circle, the rectangle is chosen (left to right). The library's "smart" union mode may prefer the variant that consumed more fields.
- Laptops.Project: the laptop values are not re-validated against each field's declared type, and JSON key order is not modelled.
- The `add_pet` handler's `except ValidationError` branch is left out. It cannot be reached: `model_dump` only serialises and never validates, so it raises no `ValidationError`. The separate response-model re-validation of the dump does validate, and Pets.DumpRoundTrip proves it always succeeds.
- An explicit JSON `null` is not modelled. `None` stands only for an absent field. The source accepts `null` for the optional `color` and `name` of a shape, where it means the same as absent. It rejects `null` as a type error for `shape_type` (an enumeration with a default, not `Optional`) and for every required field; the model has no such input.
- The `app.openapi` override in app.py:60-66 is left out. It only edits the generated OpenAPI document.
- `validate_impl_vs_openapi_spec.py` is not part of this model. It loads files and compares generated documents, which is I/O.
- Strings are sequences of Dafny characters, and lengths are counted in them. Unicode details of the library's length checks are not modelled.

## Findings

| source | as written | input that shows it | evidently intended | confidence | as-written member | corrected member |
|---|---|---|---|---|---|---|
| main.py:72-83 | `Rectangle` and `Circle` both type `shape_type` as the whole `ShapeType` enumeration, with their own tag only as a default, so the tag does not select the variant | `{"shape": {"shape_type": "circle", "width": 2, "height": 3}}` is accepted as a `Rectangle` whose `shape_type` is `circle` | each variant accepts only its own tag (a discriminated `oneOf`) | high; not executed | Shapes.CircleTagAcceptedAsRectangle | Shapes.ResolveShape |
| main.py:138-141 | the circle area cap is 785000, described as "approximately pi * 500^2" but below pi·500² ≈ 785398.16 | `{"shape": {"shape_type": "circle", "radius": 500}}`: the radius bound (`le=500`) allows it, but its area 785398.16 is rejected | every radius the schema allows passes the area rule | high; not executed | Shapes.LargestRadiusRejected | Shapes.IntendedCapAdmitsEveryRadius |
