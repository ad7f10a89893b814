/** Values shared by every validator of the API: optional fields, results,
    the field-level error entries a rejected payload carries, and the
    character classes the string patterns are built from. */
module Common {

  /** A JSON field: absent from the payload versus present. */
  datatype Option<+T> = None | Some(value: T)

  /** The outcome of a validator or an endpoint. */
  datatype Result<+T, +E> = Ok(value: T) | Err(error: E)

  /** The error kinds a field can be rejected with, named after the
      validation library's own error types. */
  datatype ErrorKind =
    | Missing             // "missing": a required field is absent
    | GreaterThan         // "greater_than": an exclusive lower bound is violated
    | GreaterThanEqual    // "greater_than_equal": an inclusive lower bound is violated
    | LessThanEqual       // "less_than_equal": an inclusive upper bound is violated
    | StringTooShort      // "string_too_short"
    | StringTooLong       // "string_too_long"
    | PatternMismatch     // "string_pattern_mismatch"
    | TupleLength         // "too_short" / "too_long" on a fixed-length tuple
    | EnumMismatch        // "enum": a value outside an enumeration
    | ValueError(msg: string)  // a custom validator raised ValueError(msg)

  /** One entry of an error list: the field it is about and why. */
  datatype FieldError = FieldError(loc: string, kind: ErrorKind)

  /** The locations an error list mentions. */
  function Locs(errs: seq<FieldError>): (r: set<string>)
    ensures forall k :: 0 <= k < |errs| ==> errs[k].loc in r
    ensures forall l :: l in r ==> exists k :: 0 <= k < |errs| && errs[k].loc == l
  {
    set k | 0 <= k < |errs| :: errs[k].loc
  }

  lemma LocsAppend(a: seq<FieldError>, b: seq<FieldError>)
    ensures Locs(a + b) == Locs(a) + Locs(b)
  {
    var ab := a + b;
    forall l | l in Locs(a) ensures l in Locs(ab) {
      var k :| 0 <= k < |a| && a[k].loc == l;
      assert ab[k] == a[k];
    }
    forall l | l in Locs(b) ensures l in Locs(ab) {
      var k :| 0 <= k < |b| && b[k].loc == l;
      assert ab[|a| + k] == b[k];
    }
  }

  lemma LocsSingle(e: FieldError)
    ensures Locs([e]) == {e.loc}
  {
    assert [e][0] == e;
  }

  predicate IsDigit(c: char) { '0' <= c <= '9' }

  predicate IsUpper(c: char) { 'A' <= c <= 'Z' }

  predicate IsHexDigit(c: char) { '0' <= c <= '9' || 'a' <= c <= 'f' || 'A' <= c <= 'F' }

  function Min(a: int, b: int): int { if a <= b then a else b }

  function MinReal(a: real, b: real): real { if a <= b then a else b }

  function MaxReal(a: real, b: real): real { if a <= b then b else a }
}
