/** The `oneOf` shape example: the `ShapeBase` fields, the `Rectangle` and
    `Circle` schemas, the `Union[Rectangle, Circle]` of `OneOfShape` and its
    extra rule `validate_shape_properties`.

    Two readings are kept side by side. The "as written" one follows the
    schemas exactly: both variants type `shape_type` as the whole
    enumeration (with their own tag only as a default), and a circle is
    capped at an area of 785000. The corrected one makes each variant's
    `shape_type` select that variant only, and caps a circle at the area of
    the largest radius the schema allows. Numbers are exact reals. */
module Shapes {
  import opened Common
  import Patterns

  /** `ShapeType`: the enumeration of shape tags. */
  datatype ShapeType = RectangleType | CircleType

  function ParseShapeType(s: string): (t: Option<ShapeType>)
    ensures t == Some(RectangleType) <==> s == "rectangle"
    ensures t == Some(CircleType) <==> s == "circle"
  {
    if s == "rectangle" then Some(RectangleType)
    else if s == "circle" then Some(CircleType)
    else None
  }

  /** A request body's shape object. The response-only fields `aspect_ratio`,
      `circumference` and `area` are not part of it (see the README). */
  datatype ShapePayload = ShapePayload(
    shapeType: Option<string>,
    color: Option<string>,
    name: Option<string>,
    width: Option<real>,
    height: Option<real>,
    radius: Option<real>)

  datatype Shape =
    | Rectangle(shapeType: ShapeType, color: Option<string>, name: Option<string>, width: real, height: real)
    | Circle(shapeType: ShapeType, color: Option<string>, name: Option<string>, radius: real)

  datatype ShapeError =
    | NoVariant(rectangleErrors: seq<FieldError>, circleErrors: seq<FieldError>)
    | PropertyViolation(error: FieldError)   // raised by validate_shape_properties

  const MAX_NAME_LENGTH: int := 50
  const MAX_SIDE: real := 1000.0
  const MAX_RADIUS: real := 500.0
  const MAX_ASPECT_RATIO: real := 10.0

  // ---------------------------------------------------------------------
  // Field checks

  /** `shape_type`: absent takes the variant's default; otherwise it must
      name one of the tags in `allowed`. */
  function ShapeTypeErrors(v: Option<string>, allowed: set<ShapeType>): seq<FieldError>
  {
    if v.Some? && !(ParseShapeType(v.value).Some? && ParseShapeType(v.value).value in allowed)
    then [FieldError("shape_type", EnumMismatch)] else []
  }

  /** `color`: optional, `^#[0-9a-fA-F]{6}$` when present. */
  function ColorErrors(v: Option<string>): seq<FieldError>
  {
    if v.Some? && !Patterns.Matches(Patterns.HEX_COLOR, v.value)
    then [FieldError("color", PatternMismatch)] else []
  }

  /** `name`: optional, 1 to 50 characters when present. */
  function NameErrors(v: Option<string>): seq<FieldError>
  {
    if v.None? then []
    else if |v.value| < 1 then [FieldError("name", StringTooShort)]
    else if |v.value| > MAX_NAME_LENGTH then [FieldError("name", StringTooLong)]
    else []
  }

  /** A required number in `(0, upper]`. */
  function BoundedErrors(loc: string, v: Option<real>, upper: real): seq<FieldError>
  {
    if v.None? then [FieldError(loc, Missing)]
    else if v.value <= 0.0 then [FieldError(loc, GreaterThan)]
    else if v.value > upper then [FieldError(loc, LessThanEqual)]
    else []
  }

  predicate InBounds(v: Option<real>, upper: real)
  {
    v.Some? && 0.0 < v.value <= upper
  }

  /** The `ShapeBase` fields, stated directly. */
  predicate BaseFieldsValid(p: ShapePayload, allowed: set<ShapeType>)
  {
    && (p.shapeType.Some? ==> ParseShapeType(p.shapeType.value).Some? && ParseShapeType(p.shapeType.value).value in allowed)
    && (p.color.Some? ==> Patterns.IsHexColor(p.color.value))
    && (p.name.Some? ==> 1 <= |p.name.value| <= MAX_NAME_LENGTH)
  }

  function TagOr(v: Option<string>, default: ShapeType): ShapeType
  {
    if v.Some? && ParseShapeType(v.value).Some? then ParseShapeType(v.value).value else default
  }

  const BOTH_TAGS: set<ShapeType> := {RectangleType, CircleType}

  /** `Rectangle`; `allowed` is the set of `shape_type` values it takes. */
  function ValidateRectangle(p: ShapePayload, allowed: set<ShapeType>): (r: Result<Shape, seq<FieldError>>)
    ensures r.Ok? <==> BaseFieldsValid(p, allowed) && InBounds(p.width, MAX_SIDE) && InBounds(p.height, MAX_SIDE)
    ensures r.Ok? ==> r.value == Rectangle(TagOr(p.shapeType, RectangleType), p.color, p.name, p.width.value, p.height.value)
    ensures r.Err? ==> r.error != []
  {
    assert p.color.Some? ==> (Patterns.Matches(Patterns.HEX_COLOR, p.color.value) <==> Patterns.IsHexColor(p.color.value)) by {
      if p.color.Some? { Patterns.HexColorPattern(p.color.value); }
    }
    var errs := ShapeTypeErrors(p.shapeType, allowed) + ColorErrors(p.color) + NameErrors(p.name)
      + BoundedErrors("width", p.width, MAX_SIDE) + BoundedErrors("height", p.height, MAX_SIDE);
    if errs == [] then Ok(Rectangle(TagOr(p.shapeType, RectangleType), p.color, p.name, p.width.value, p.height.value))
    else Err(errs)
  }

  /** `Circle`; `allowed` is the set of `shape_type` values it takes. */
  function ValidateCircle(p: ShapePayload, allowed: set<ShapeType>): (r: Result<Shape, seq<FieldError>>)
    ensures r.Ok? <==> BaseFieldsValid(p, allowed) && InBounds(p.radius, MAX_RADIUS)
    ensures r.Ok? ==> r.value == Circle(TagOr(p.shapeType, CircleType), p.color, p.name, p.radius.value)
    ensures r.Err? ==> r.error != []
  {
    assert p.color.Some? ==> (Patterns.Matches(Patterns.HEX_COLOR, p.color.value) <==> Patterns.IsHexColor(p.color.value)) by {
      if p.color.Some? { Patterns.HexColorPattern(p.color.value); }
    }
    var errs := ShapeTypeErrors(p.shapeType, allowed) + ColorErrors(p.color) + NameErrors(p.name)
      + BoundedErrors("radius", p.radius, MAX_RADIUS);
    if errs == [] then Ok(Circle(TagOr(p.shapeType, CircleType), p.color, p.name, p.radius.value))
    else Err(errs)
  }

  // ---------------------------------------------------------------------
  // validate_shape_properties

  /** The rectangle rule as written: reject when the longer side divided by
      the shorter exceeds 10. */
  predicate AspectRatioOk(width: real, height: real)
    requires width > 0.0 && height > 0.0
  {
    !(MaxReal(width, height) / MinReal(width, height) > MAX_ASPECT_RATIO)
  }

  /** The same rule without division: the longer side is at most ten times
      the shorter. */
  lemma AspectRatioWithoutDivision(width: real, height: real)
    requires width > 0.0 && height > 0.0
    ensures AspectRatioOk(width, height) <==> MaxReal(width, height) <= MAX_ASPECT_RATIO * MinReal(width, height)
    ensures AspectRatioOk(width, height) <==> AspectRatioOk(height, width)
  {
    var hi, lo := MaxReal(width, height), MinReal(width, height);
    var q := hi / lo;
    assert q * lo == hi;
    if q > MAX_ASPECT_RATIO {
      assert hi - MAX_ASPECT_RATIO * lo == (q - MAX_ASPECT_RATIO) * lo;
    } else {
      assert MAX_ASPECT_RATIO * lo - hi == (MAX_ASPECT_RATIO - q) * lo;
    }
  }

  /** `math.pi`, as an exact decimal. */
  const PI: real := 3.141592653589793

  /** The area the schema derives for a circle (the rounding to two
      decimals is not modelled). */
  function CircleArea(radius: real): real
  {
    PI * radius * radius
  }

  /** The cap in the source: "approximately pi * 500^2". */
  const AREA_CAP_AS_WRITTEN: real := 785000.0

  /** The cap the comment describes: the area of the largest radius allowed. */
  const AREA_CAP_INTENDED: real := PI * MAX_RADIUS * MAX_RADIUS

  /** `validate_shape_properties` with a given circle-area cap. */
  function PropertyErrors(s: Shape, areaCap: real): (errs: seq<FieldError>)
    requires s.Rectangle? ==> s.width > 0.0 && s.height > 0.0
    ensures s.Rectangle? ==> (errs == [] <==> MaxReal(s.width, s.height) <= MAX_ASPECT_RATIO * MinReal(s.width, s.height))
    ensures s.Circle? ==> (errs == [] <==> PI * s.radius * s.radius <= areaCap)
    ensures |errs| <= 1 && forall k :: 0 <= k < |errs| ==> errs[k].loc == "shape"
  {
    assert s.Rectangle? ==> (AspectRatioOk(s.width, s.height) <==>
      MaxReal(s.width, s.height) <= MAX_ASPECT_RATIO * MinReal(s.width, s.height)) by {
      if s.Rectangle? { AspectRatioWithoutDivision(s.width, s.height); }
    }
    match s
    case Rectangle(_, _, _, w, h) =>
      if AspectRatioOk(w, h) then []
      else [FieldError("shape", ValueError("Rectangle aspect ratio cannot exceed 10:1"))]
    case Circle(_, _, _, r) =>
      if CircleArea(r) > areaCap then [FieldError("shape", ValueError("Circle area exceeds maximum allowed size"))]
      else []
  }

  /** `OneOfShape`: the union picks the first variant that accepts the
      payload (rectangle first), then the extra rule runs on that shape. */
  function ResolveWith(p: ShapePayload, rectangleTags: set<ShapeType>, circleTags: set<ShapeType>, areaCap: real)
    : (r: Result<Shape, ShapeError>)
    ensures r.Ok? && r.value.Rectangle? <==>
      ValidateRectangle(p, rectangleTags).Ok? && AspectRatioOk(p.width.value, p.height.value)
    ensures r.Ok? && r.value.Circle? <==>
      ValidateRectangle(p, rectangleTags).Err? && ValidateCircle(p, circleTags).Ok? && CircleArea(p.radius.value) <= areaCap
    ensures r.Err? && r.error.NoVariant? <==> ValidateRectangle(p, rectangleTags).Err? && ValidateCircle(p, circleTags).Err?
    ensures r.Ok? && r.value.Rectangle? ==> r.value == ValidateRectangle(p, rectangleTags).value
    ensures r.Ok? && r.value.Circle? ==> r.value == ValidateCircle(p, circleTags).value
  {
    var rect, circle := ValidateRectangle(p, rectangleTags), ValidateCircle(p, circleTags);
    if rect.Err? && circle.Err? then Err(NoVariant(rect.error, circle.error))
    else
      var shape := if rect.Ok? then rect.value else circle.value;
      var errs := PropertyErrors(shape, areaCap);
      if errs == [] then Ok(shape) else Err(PropertyViolation(errs[0]))
  }

  /** `POST /shapes/oneof` exactly as the schemas declare it. */
  function ResolveShapeAsWritten(p: ShapePayload): (r: Result<Shape, ShapeError>)
    ensures r.Ok? && r.value.Rectangle? <==>
      BaseFieldsValid(p, BOTH_TAGS) && InBounds(p.width, MAX_SIDE) && InBounds(p.height, MAX_SIDE)
      && MaxReal(p.width.value, p.height.value) <= MAX_ASPECT_RATIO * MinReal(p.width.value, p.height.value)
    ensures r.Ok? && r.value.Circle? <==>
      BaseFieldsValid(p, BOTH_TAGS) && !(InBounds(p.width, MAX_SIDE) && InBounds(p.height, MAX_SIDE))
      && InBounds(p.radius, MAX_RADIUS) && CircleArea(p.radius.value) <= AREA_CAP_AS_WRITTEN
  {
    assert InBounds(p.width, MAX_SIDE) && InBounds(p.height, MAX_SIDE) ==>
      (AspectRatioOk(p.width.value, p.height.value) <==>
       MaxReal(p.width.value, p.height.value) <= MAX_ASPECT_RATIO * MinReal(p.width.value, p.height.value)) by {
      if InBounds(p.width, MAX_SIDE) && InBounds(p.height, MAX_SIDE) {
        AspectRatioWithoutDivision(p.width.value, p.height.value);
      }
    }
    ResolveWith(p, BOTH_TAGS, BOTH_TAGS, AREA_CAP_AS_WRITTEN)
  }

  /** `POST /shapes/oneof` as intended: `shape_type` names the variant, and
      every radius the schema allows passes the area rule. */
  function ResolveShape(p: ShapePayload): (r: Result<Shape, ShapeError>)
    ensures r.Ok? ==> r.value.shapeType == (if r.value.Rectangle? then RectangleType else CircleType)
    ensures p.shapeType == Some("circle") ==> !(r.Ok? && r.value.Rectangle?)
    ensures p.shapeType == Some("rectangle") ==> !(r.Ok? && r.value.Circle?)
    ensures r.Ok? && r.value.Rectangle? <==>
      BaseFieldsValid(p, {RectangleType}) && InBounds(p.width, MAX_SIDE) && InBounds(p.height, MAX_SIDE)
      && MaxReal(p.width.value, p.height.value) <= MAX_ASPECT_RATIO * MinReal(p.width.value, p.height.value)
    ensures r.Ok? && r.value.Circle? <==>
      BaseFieldsValid(p, {CircleType}) && InBounds(p.radius, MAX_RADIUS)
      && !(BaseFieldsValid(p, {RectangleType}) && InBounds(p.width, MAX_SIDE) && InBounds(p.height, MAX_SIDE))
  {
    assert InBounds(p.width, MAX_SIDE) && InBounds(p.height, MAX_SIDE) ==>
      (AspectRatioOk(p.width.value, p.height.value) <==>
       MaxReal(p.width.value, p.height.value) <= MAX_ASPECT_RATIO * MinReal(p.width.value, p.height.value)) by {
      if InBounds(p.width, MAX_SIDE) && InBounds(p.height, MAX_SIDE) {
        AspectRatioWithoutDivision(p.width.value, p.height.value);
      }
    }
    assert InBounds(p.radius, MAX_RADIUS) ==> CircleArea(p.radius.value) <= AREA_CAP_INTENDED by {
      if InBounds(p.radius, MAX_RADIUS) { IntendedCapAdmitsEveryRadius(p.radius.value); }
    }
    ResolveWith(p, {RectangleType}, {CircleType}, AREA_CAP_INTENDED)
  }

  // ---------------------------------------------------------------------
  // What separates the two readings

  /** As written, a payload tagged "circle" that carries a width and a height
      is accepted as a rectangle, and keeps the tag "circle". */
  lemma CircleTagAcceptedAsRectangle()
    ensures ResolveShapeAsWritten(ShapePayload(Some("circle"), None, None, Some(2.0), Some(3.0), None))
      == Ok(Rectangle(CircleType, None, None, 2.0, 3.0))
  {
    var p := ShapePayload(Some("circle"), None, None, Some(2.0), Some(3.0), None);
    AspectRatioWithoutDivision(2.0, 3.0);
    assert ParseShapeType("circle") == Some(CircleType);
  }

  /** As written, a circle of radius 500, the largest the schema allows, is
      rejected by the area cap. */
  lemma LargestRadiusRejected()
    ensures InBounds(Some(MAX_RADIUS), MAX_RADIUS)
    ensures ResolveShapeAsWritten(ShapePayload(None, None, None, None, None, Some(MAX_RADIUS)))
      == Err(PropertyViolation(FieldError("shape", ValueError("Circle area exceeds maximum allowed size"))))
  {
    assert CircleArea(MAX_RADIUS) > AREA_CAP_AS_WRITTEN;
  }

  /** The intended cap rejects no radius the schema allows. */
  lemma IntendedCapAdmitsEveryRadius(radius: real)
    requires 0.0 < radius <= MAX_RADIUS
    ensures CircleArea(radius) <= AREA_CAP_INTENDED
  {
    assert MAX_RADIUS == 500.0;
    assert radius * radius <= 250000.0 by {
      assert radius * radius <= radius * 500.0 by {
        assert radius * 500.0 - radius * radius == radius * (500.0 - radius);
      }
    }
    assert AREA_CAP_INTENDED == PI * 250000.0;
    assert PI * (MAX_RADIUS * MAX_RADIUS - radius * radius) >= 0.0;
  }

  /** A circle with a negative radius is rejected, and the circle variant
      reports `radius` as not greater than 0. */
  lemma NegativeRadiusReported()
    ensures var r := ResolveShapeAsWritten(ShapePayload(Some("circle"), None, Some("NoCircle"), None, None, Some(-10.0)));
      r.Err? && r.error.NoVariant? && FieldError("radius", GreaterThan) in r.error.circleErrors
  {
    assert ParseShapeType("circle") == Some(CircleType);
    var c := ValidateCircle(ShapePayload(Some("circle"), None, Some("NoCircle"), None, None, Some(-10.0)), BOTH_TAGS);
    assert c.error == [FieldError("radius", GreaterThan)];
  }
}
