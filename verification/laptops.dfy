/** The verbosity-projection example: a laptop record, the three response
    tiers `LaptopBase`, `LaptopRegular` and `LaptopExtended`, and the two
    endpoints `GET /laptops/{laptop_id}` and `GET /laptops` that project the
    sample laptops onto the requested tier. */
module Laptops {
  import opened Common

  /** The JSON values a laptop record holds. */
  datatype Value =
    | Text(text: string)
    | Int(number: int)
    | Num(amount: real)
    | Flag(flag: bool)
    | Triple(x: real, y: real, z: real)
    | Texts(texts: seq<string>)
    | Timestamp(year: int, month: int, day: int)   // a date at midnight

  /** A laptop record: field name to value. */
  type Laptop = map<string, Value>

  /** `ResponseVerbosity`. */
  datatype Verbosity = Minimum | Regular | Extended

  /** The query value `verbosity`: absent means `regular`. */
  function ParseVerbosity(q: Option<string>): (r: Result<Verbosity, FieldError>)
    ensures q.None? ==> r == Ok(Regular)
    ensures q.Some? ==> (r == Ok(Minimum) <==> q.value == "minimum")
    ensures q.Some? ==> (r == Ok(Regular) <==> q.value == "regular")
    ensures q.Some? ==> (r == Ok(Extended) <==> q.value == "extended")
    ensures r.Err? ==> r.error == FieldError("verbosity", EnumMismatch)
  {
    if q.None? then Ok(Regular)
    else if q.value == "minimum" then Ok(Minimum)
    else if q.value == "regular" then Ok(Regular)
    else if q.value == "extended" then Ok(Extended)
    else Err(FieldError("verbosity", EnumMismatch))
  }

  /** The fields of `LaptopBase`. */
  const MINIMUM_FIELDS: set<string> := {"id", "brand", "model", "price"}

  /** The fields of `LaptopRegular`, which declares all of them itself. */
  const REGULAR_FIELDS: set<string> :=
    {"id", "brand", "model", "price", "processor", "ram_gb", "storage_gb", "screen_size",
     "operating_system", "in_stock"}

  /** The fields of `LaptopExtended`: those of `LaptopRegular` and its own. */
  const EXTENDED_FIELDS: set<string> :=
    {"id", "brand", "model", "price", "processor", "ram_gb", "storage_gb", "screen_size",
     "operating_system", "in_stock",
     "graphics_card", "battery_whr", "weight_kg", "dimensions_cm", "ports", "warranty_months",
     "release_date", "last_updated", "description", "features", "reviews_count", "average_rating"}

  /** The six common specs the regular tier shows beyond the minimum one. */
  const REGULAR_EXTRA: set<string> :=
    {"processor", "ram_gb", "storage_gb", "screen_size", "operating_system", "in_stock"}

  /** The twelve details the extended tier shows beyond the regular one. */
  const EXTENDED_EXTRA: set<string> :=
    {"graphics_card", "battery_whr", "weight_kg", "dimensions_cm", "ports", "warranty_months",
     "release_date", "last_updated", "description", "features", "reviews_count", "average_rating"}

  /** The fields of the response model for a tier. */
  function TierFields(v: Verbosity): set<string>
  {
    match v
    case Minimum => MINIMUM_FIELDS
    case Regular => REGULAR_FIELDS
    case Extended => EXTENDED_FIELDS
  }

  /** The tiers in increasing detail. */
  function Rank(v: Verbosity): nat
  {
    match v
    case Minimum => 0
    case Regular => 1
    case Extended => 2
  }

  /** Restricting a record to a tier's fields; `None` when the record lacks
      one of them (a missing key or a missing required field). */
  function Project(l: Laptop, v: Verbosity): (r: Option<Laptop>)
    ensures r.Some? <==> TierFields(v) <= l.Keys
    ensures r.Some? ==> r.value.Keys == TierFields(v)
    ensures r.Some? ==> forall k :: k in r.value ==> r.value[k] == l[k]
  {
    if TierFields(v) <= l.Keys then Some(map k | k in TierFields(v) :: l[k]) else None
  }

  /** `m` agrees with `m2` on every field of `m`. */
  predicate IsSubrecord(m: Laptop, m2: Laptop)
  {
    m.Keys <= m2.Keys && forall k :: k in m ==> m[k] == m2[k]
  }

  // ---------------------------------------------------------------------
  // The tiers

  /** Each tier has every field of the tiers below it; the regular tier
      adds exactly the six common specs to the minimum one, and the extended
      tier exactly the twelve details to the regular one. */
  lemma {:induction false} TiersNested(v1: Verbosity, v2: Verbosity)
    requires Rank(v1) <= Rank(v2)
    ensures TierFields(v1) <= TierFields(v2)
    ensures TierFields(Regular) - TierFields(Minimum) == REGULAR_EXTRA
    ensures TierFields(Extended) - TierFields(Regular) == EXTENDED_EXTRA
  {
    assert REGULAR_FIELDS == MINIMUM_FIELDS + REGULAR_EXTRA;
    assert EXTENDED_FIELDS == REGULAR_FIELDS + EXTENDED_EXTRA;
    assert MINIMUM_FIELDS !! REGULAR_EXTRA;
    assert REGULAR_FIELDS !! EXTENDED_EXTRA;
  }

  /** A projection onto a lower tier is a part of the projection onto a
      higher tier: same fields, same values. */
  lemma ProjectionsNested(l: Laptop, v1: Verbosity, v2: Verbosity)
    requires Rank(v1) <= Rank(v2)
    requires Project(l, v2).Some?
    ensures Project(l, v1).Some?
    ensures IsSubrecord(Project(l, v1).value, Project(l, v2).value)
  {
    TiersNested(v1, v2);
  }

  /** Projecting a projection onto a lower tier is projecting directly. */
  lemma ProjectTwice(l: Laptop, v1: Verbosity, v2: Verbosity)
    requires Rank(v1) <= Rank(v2)
    requires Project(l, v2).Some?
    ensures Project(Project(l, v2).value, v1) == Project(l, v1)
  {
    TiersNested(v1, v2);
    var p2 := Project(l, v2).value;
    assert Project(p2, v1).value == Project(l, v1).value;
  }

  /** The extended tier keeps a complete record whole. */
  lemma ExtendedKeepsCompleteRecord(l: Laptop)
    requires l.Keys == TierFields(Extended)
    ensures Project(l, Extended) == Some(l)
  {
    assert Project(l, Extended).value == l;
  }

  // ---------------------------------------------------------------------
  // The sample data and the endpoints

  /** `SAMPLE_LAPTOP`: four laptops, each with an id of its own. */
  function SampleLaptops(): (r: seq<Laptop>)
    ensures |r| == 4
    ensures forall i :: 0 <= i < |r| ==> "id" in r[i]
    ensures forall i, j :: 0 <= i < |r| && 0 <= j < |r| && r[i]["id"] == r[j]["id"] ==> i == j
  {
    [
      map[
        "id" := Text("LP123456"),
        "brand" := Text("TechBook"),
        "model" := Text("Pro X15"),
        "price" := Num(1299.99),
        "processor" := Text("Intel Core i7 12700H"),
        "ram_gb" := Int(16),
        "storage_gb" := Int(512),
        "screen_size" := Num(15.6),
        "operating_system" := Text("Windows 11 Pro"),
        "in_stock" := Flag(true),
        "graphics_card" := Text("NVIDIA RTX 3060 6GB"),
        "battery_whr" := Int(80),
        "weight_kg" := Num(2.1),
        "dimensions_cm" := Triple(35.8, 24.2, 1.9),
        "ports" := Texts(["USB-C", "USB-A", "HDMI", "Audio Jack"]),
        "warranty_months" := Int(24),
        "release_date" := Timestamp(2023, 6, 15),
        "last_updated" := Timestamp(2024, 1, 15),
        "description" := Text("Professional grade laptop for demanding users"),
        "features" := Texts(["Backlit Keyboard", "Fingerprint Reader", "Thunderbolt 4"]),
        "reviews_count" := Int(128),
        "average_rating" := Num(4.5)
      ],
      map[
        "id" := Text("LP789101"),
        "brand" := Text("FutureComp"),
        "model" := Text("Vision Z14"),
        "price" := Num(1599.99),
        "processor" := Text("AMD Ryzen 9 6900HX"),
        "ram_gb" := Int(32),
        "storage_gb" := Int(1024),
        "screen_size" := Num(14.0),
        "operating_system" := Text("Windows 11 Home"),
        "in_stock" := Flag(true),
        "graphics_card" := Text("AMD Radeon 680M"),
        "battery_whr" := Int(76),
        "weight_kg" := Num(1.8),
        "dimensions_cm" := Triple(32.1, 22.0, 1.7),
        "ports" := Texts(["USB-C", "HDMI", "Audio Jack"]),
        "warranty_months" := Int(36),
        "release_date" := Timestamp(2023, 9, 10),
        "last_updated" := Timestamp(2024, 1, 12),
        "description" := Text("Ultra-lightweight laptop with powerful performance"),
        "features" := Texts(["Face Recognition", "Wi-Fi 6E", "OLED Display"]),
        "reviews_count" := Int(89),
        "average_rating" := Num(4.7)
      ],
      map[
        "id" := Text("LP567812"),
        "brand" := Text("ProCompute"),
        "model" := Text("Elite G17"),
        "price" := Num(1899.99),
        "processor" := Text("Intel Core i9 12900H"),
        "ram_gb" := Int(64),
        "storage_gb" := Int(2048),
        "screen_size" := Num(17.3),
        "operating_system" := Text("Windows 11 Pro"),
        "in_stock" := Flag(false),
        "graphics_card" := Text("NVIDIA RTX 4080 12GB"),
        "battery_whr" := Int(99),
        "weight_kg" := Num(3.2),
        "dimensions_cm" := Triple(39.6, 26.5, 2.1),
        "ports" := Texts(["USB-C", "USB-A", "HDMI", "Ethernet"]),
        "warranty_months" := Int(12),
        "release_date" := Timestamp(2022, 11, 20),
        "last_updated" := Timestamp(2024, 1, 10),
        "description" := Text("High-performance gaming and workstation laptop"),
        "features" := Texts(["4K Display", "RGB Keyboard", "Thunderbolt 4"]),
        "reviews_count" := Int(345),
        "average_rating" := Num(4.6)
      ],
      map[
        "id" := Text("LP345678"),
        "brand" := Text("MegaWorks"),
        "model" := Text("SwiftEdge S13"),
        "price" := Num(899.99),
        "processor" := Text("Intel Core i5 12450H"),
        "ram_gb" := Int(8),
        "storage_gb" := Int(256),
        "screen_size" := Num(13.3),
        "operating_system" := Text("Windows 11 Home"),
        "in_stock" := Flag(true),
        "graphics_card" := Text("Intel Iris Xe"),
        "battery_whr" := Int(58),
        "weight_kg" := Num(1.2),
        "dimensions_cm" := Triple(30.5, 21.2, 1.5),
        "ports" := Texts(["USB-C", "HDMI", "MicroSD"]),
        "warranty_months" := Int(12),
        "release_date" := Timestamp(2023, 3, 25),
        "last_updated" := Timestamp(2024, 1, 5),
        "description" := Text("Compact laptop ideal for students and professionals"),
        "features" := Texts(["Touchscreen", "Lightweight Design", "Fast Charging"]),
        "reviews_count" := Int(256),
        "average_rating" := Num(4.3)
      ]
    ]
  }

  /** Every sample laptop carries exactly the extended tier's fields. */
  lemma SamplesComplete()
    ensures |SampleLaptops()| == 4
    ensures forall i :: 0 <= i < |SampleLaptops()| ==> SampleLaptops()[i].Keys == TierFields(Extended)
  {
    forall i | 0 <= i < |SampleLaptops()| ensures SampleLaptops()[i].Keys == TierFields(Extended) {
      SampleComplete(i);
    }
  }

  lemma SampleComplete(i: int)
    requires 0 <= i < 4
    ensures SampleLaptops()[i].Keys == TierFields(Extended)
  {
  }

  /** `GET /laptops/{laptop_id}`: whatever the id, the first sample laptop,
      projected onto the requested tier. */
  function GetLaptop(laptopId: string, verbosity: Option<string>): (r: Result<Laptop, FieldError>)
    ensures r.Ok? <==> ParseVerbosity(verbosity).Ok?
    ensures r.Err? ==> r.error == FieldError("verbosity", EnumMismatch)
    ensures r.Ok? ==> r.value.Keys == TierFields(ParseVerbosity(verbosity).value)
    ensures r.Ok? ==> IsSubrecord(r.value, SampleLaptops()[0])
  {
    match ParseVerbosity(verbosity)
    case Err(e) => Err(e)
    case Ok(v) =>
      SamplesComplete();
      Ok(Project(SampleLaptops()[0], v).value)
  }

  const DEFAULT_LIMIT: int := 2
  const MAX_LIMIT: int := 100
  const DEFAULT_OFFSET: int := 0

  /** The query-parameter errors of `GET /laptops`, in parameter order. */
  function ListQueryErrors(verbosity: Option<string>, limit: Option<int>, offset: Option<int>): (errs: seq<FieldError>)
    ensures errs == [] <==>
      && ParseVerbosity(verbosity).Ok?
      && (limit.Some? ==> 1 <= limit.value <= MAX_LIMIT)
      && (offset.Some? ==> offset.value >= 0)
  {
    var l := if limit.Some? then limit.value else DEFAULT_LIMIT;
    var o := if offset.Some? then offset.value else DEFAULT_OFFSET;
    (if ParseVerbosity(verbosity).Err? then [ParseVerbosity(verbosity).error] else [])
    + (if l < 1 then [FieldError("limit", GreaterThanEqual)]
       else if l > MAX_LIMIT then [FieldError("limit", LessThanEqual)] else [])
    + (if o < 0 then [FieldError("offset", GreaterThanEqual)] else [])
  }

  /** `GET /laptops`: every sample laptop, in order, projected onto the
      requested tier; `limit` and `offset` are checked and then unused. */
  function ListLaptops(verbosity: Option<string>, limit: Option<int>, offset: Option<int>): (r: Result<seq<Laptop>, seq<FieldError>>)
    ensures r.Ok? <==> ListQueryErrors(verbosity, limit, offset) == []
    ensures r.Err? ==> r.error == ListQueryErrors(verbosity, limit, offset)
    ensures r.Ok? ==> |r.value| == |SampleLaptops()|
    ensures r.Ok? ==> forall i :: 0 <= i < |r.value| ==>
      r.value[i].Keys == TierFields(ParseVerbosity(verbosity).value) && IsSubrecord(r.value[i], SampleLaptops()[i])
  {
    var errs := ListQueryErrors(verbosity, limit, offset);
    if errs != [] then Err(errs)
    else
      var v := ParseVerbosity(verbosity).value;
      var samples := SampleLaptops();
      SamplesComplete();
      Ok(seq(|samples|, i requires 0 <= i < |samples| => Project(samples[i], v).value))
  }
}
