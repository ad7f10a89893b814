/** The `anyOf` pet example: the `Cat` and `Dog` schemas, each selecting
    itself through its own `petType` check, the `Union[Cat, Dog]` that
    accepts a payload valid as either, and `POST /pets`. */
module Pets {
  import opened Common

  /** A request body's pet object: every field may be absent. Fields that
      neither schema declares are ignored by both, so they are not kept. */
  datatype PetPayload = PetPayload(
    petType: Option<string>,
    name: Option<string>,
    favoriteToy: Option<string>,
    breed: Option<string>)

  /** A validated pet; `petType` is implied by the variant. */
  datatype Pet =
    | Cat(name: string, favoriteToy: string)
    | Dog(name: string, breed: string)

  /** Both variants' errors, when neither accepts the payload. */
  datatype PetError = NoVariant(catErrors: seq<FieldError>, dogErrors: seq<FieldError>)

  /** The check on `petType` for the variant with tag `tag`. */
  function TagErrors(petType: Option<string>, tag: string): seq<FieldError>
  {
    if petType.None? then [FieldError("petType", Missing)]
    else if petType.value != tag then [FieldError("petType", ValueError("petType must be '" + tag + "'"))]
    else []
  }

  /** A required string field. */
  function RequiredErrors(loc: string, v: Option<string>): seq<FieldError>
  {
    if v.None? then [FieldError(loc, Missing)] else []
  }

  /** `Cat`: every violation, in field order `petType`, `name`, `favoriteToy`. */
  function CatErrors(p: PetPayload): (errs: seq<FieldError>)
    ensures errs == [] <==> p.petType == Some("cat") && p.name.Some? && p.favoriteToy.Some?
    ensures Locs(errs) <= {"petType", "name", "favoriteToy"}
  {
    var a, b, c := TagErrors(p.petType, "cat"), RequiredErrors("name", p.name), RequiredErrors("favoriteToy", p.favoriteToy);
    LocsAppend(a, b);
    LocsAppend(a + b, c);
    assert |a| == 1 ==> Locs(a) == {"petType"} by { if |a| == 1 { LocsSingle(a[0]); } }
    assert |b| == 1 ==> Locs(b) == {"name"} by { if |b| == 1 { LocsSingle(b[0]); } }
    assert |c| == 1 ==> Locs(c) == {"favoriteToy"} by { if |c| == 1 { LocsSingle(c[0]); } }
    a + b + c
  }

  /** `Dog`: every violation, in field order `petType`, `name`, `breed`. */
  function DogErrors(p: PetPayload): (errs: seq<FieldError>)
    ensures errs == [] <==> p.petType == Some("dog") && p.name.Some? && p.breed.Some?
    ensures Locs(errs) <= {"petType", "name", "breed"}
  {
    var a, b, c := TagErrors(p.petType, "dog"), RequiredErrors("name", p.name), RequiredErrors("breed", p.breed);
    LocsAppend(a, b);
    LocsAppend(a + b, c);
    assert |a| == 1 ==> Locs(a) == {"petType"} by { if |a| == 1 { LocsSingle(a[0]); } }
    assert |b| == 1 ==> Locs(b) == {"name"} by { if |b| == 1 { LocsSingle(b[0]); } }
    assert |c| == 1 ==> Locs(c) == {"breed"} by { if |c| == 1 { LocsSingle(c[0]); } }
    a + b + c
  }

  function ValidateCat(p: PetPayload): (r: Result<Pet, seq<FieldError>>)
    ensures r.Ok? <==> p.petType == Some("cat") && p.name.Some? && p.favoriteToy.Some?
    ensures r.Ok? ==> r.value.Cat? && r.value.name == p.name.value && r.value.favoriteToy == p.favoriteToy.value
    ensures r.Err? ==> r.error != []
  {
    var errs := CatErrors(p);
    if errs == [] then Ok(Cat(p.name.value, p.favoriteToy.value)) else Err(errs)
  }

  function ValidateDog(p: PetPayload): (r: Result<Pet, seq<FieldError>>)
    ensures r.Ok? <==> p.petType == Some("dog") && p.name.Some? && p.breed.Some?
    ensures r.Ok? ==> r.value.Dog? && r.value.name == p.name.value && r.value.breed == p.breed.value
    ensures r.Err? ==> r.error != []
  {
    var errs := DogErrors(p);
    if errs == [] then Ok(Dog(p.name.value, p.breed.value)) else Err(errs)
  }

  /** `Union[Cat, Dog]`: the variant that accepts the payload; both variants'
      errors when neither does. */
  function ResolvePet(p: PetPayload): (r: Result<Pet, PetError>)
    ensures r.Ok? && r.value.Cat? <==> p.petType == Some("cat") && p.name.Some? && p.favoriteToy.Some?
    ensures r.Ok? && r.value.Dog? <==> p.petType == Some("dog") && p.name.Some? && p.breed.Some?
    ensures p.petType != Some("cat") && p.petType != Some("dog") ==> r.Err?
    ensures r.Ok? ==> r.value.name == p.name.value
    ensures r.Ok? && r.value.Cat? ==> r.value.favoriteToy == p.favoriteToy.value
    ensures r.Ok? && r.value.Dog? ==> r.value.breed == p.breed.value
    ensures r.Err? ==> r.error.catErrors != [] && r.error.dogErrors != []
  {
    var cat, dog := ValidateCat(p), ValidateDog(p);
    if cat.Ok? then Ok(cat.value)
    else if dog.Ok? then Ok(dog.value)
    else Err(NoVariant(cat.error, dog.error))
  }

  /** The same union with `Dog` tried first. */
  function ResolvePetDogFirst(p: PetPayload): Result<Pet, PetError>
  {
    var cat, dog := ValidateCat(p), ValidateDog(p);
    if dog.Ok? then Ok(dog.value)
    else if cat.Ok? then Ok(cat.value)
    else Err(NoVariant(cat.error, dog.error))
  }

  /** No payload is accepted by both variants, so the order in which the
      union tries them does not matter. */
  lemma UnionOrderIrrelevant(p: PetPayload)
    ensures !(ValidateCat(p).Ok? && ValidateDog(p).Ok?)
    ensures ResolvePet(p) == ResolvePetDogFirst(p)
  {
  }

  /** The payload a pet serialises to (`model_dump`). */
  function Dump(pet: Pet): (p: PetPayload)
    ensures p.name == Some(pet.name)
    ensures p.petType == Some(if pet.Cat? then "cat" else "dog")
  {
    match pet
    case Cat(name, toy) => PetPayload(Some("cat"), Some(name), Some(toy), None)
    case Dog(name, breed) => PetPayload(Some("dog"), Some(name), None, Some(breed))
  }

  /** Validating what a pet serialises to gives the same pet back. */
  lemma DumpRoundTrip(pet: Pet)
    ensures ResolvePet(Dump(pet)) == Ok(pet)
  {
  }

  /** `POST /pets`: the request body `{"pet": ...}` is resolved, the pet is
      serialised, and the declared response model re-validates it (keeping
      only its `pet` field). */
  function AddPet(body: Option<PetPayload>): (r: Result<Pet, seq<FieldError>>)
    ensures body.None? ==> r == Err([FieldError("pet", Missing)])
    ensures body.Some? ==> (r.Ok? <==> ResolvePet(body.value).Ok?)
    ensures r.Ok? ==> r.value == ResolvePet(body.value).value
  {
    if body.None? then Err([FieldError("pet", Missing)])
    else
      match ResolvePet(body.value)
      case Err(e) => Err(e.catErrors + e.dogErrors)
      case Ok(pet) =>
        // re-validation of the serialised pet cannot fail (DumpRoundTrip)
        match ResolvePet(Dump(pet))
        case Ok(echoed) => Ok(echoed)
        case Err(_) => assert false; Err([])
  }
}
