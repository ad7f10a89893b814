/** The three anchored string patterns of the schemas, twice: once as the
    regular expressions the schemas declare (a sequence of character classes,
    each repeated a fixed number of times, matched against the whole string),
    and once as direct predicates over the characters. The lemmas prove the
    two readings accept the same strings. */
module Patterns {
  import opened Common

  /** An inclusive character range such as `A-Z`. */
  datatype CharRange = CharRange(lo: char, hi: char)

  /** A bracket expression `[...]`: a list of ranges; a literal is a range of one. */
  type CharClass = seq<CharRange>

  /** `cls{count}`: exactly `count` characters of the class. */
  datatype Term = Term(cls: CharClass, count: nat)

  predicate InClass(c: char, cls: CharClass)
    decreases |cls|
  {
    |cls| > 0 && ((cls[0].lo <= c <= cls[0].hi) || InClass(c, cls[1..]))
  }

  predicate AllInClass(s: string, cls: CharClass)
  {
    forall k :: 0 <= k < |s| ==> InClass(s[k], cls)
  }

  /** `^t1 t2 ... tn$`: the whole string is the concatenation of the terms. */
  predicate Matches(p: seq<Term>, s: string)
    decreases |p|
  {
    if p == [] then s == []
    else
      |s| >= p[0].count
      && AllInClass(s[..p[0].count], p[0].cls)
      && Matches(p[1..], s[p[0].count..])
  }

  const UPPER: CharClass := [CharRange('A', 'Z')]
  const DIGIT: CharClass := [CharRange('0', '9')]
  const HEX: CharClass := [CharRange('0', '9'), CharRange('a', 'f'), CharRange('A', 'F')]

  function Literal(c: char): Term { Term([CharRange(c, c)], 1) }

  /** `^[A-Z]{2}[0-9]{6}$`, the product id (main.py:148). */
  const PRODUCT_ID: seq<Term> := [Term(UPPER, 2), Term(DIGIT, 6)]

  /** `^[A-Z]-[0-9]{2}-[0-9]{2}$`, the warehouse location (main.py:156). */
  const WAREHOUSE_LOCATION: seq<Term> :=
    [Term(UPPER, 1), Literal('-'), Term(DIGIT, 2), Literal('-'), Term(DIGIT, 2)]

  /** `^#[0-9a-fA-F]{6}$`, the hex colour (main.py:75). */
  const HEX_COLOR: seq<Term> := [Literal('#'), Term(HEX, 6)]

  /** Two capital letters, then six digits: `XX123456`. */
  predicate IsProductId(s: string)
  {
    |s| == 8 && IsUpper(s[0]) && IsUpper(s[1])
    && forall k :: 2 <= k < 8 ==> IsDigit(s[k])
  }

  /** A capital letter, a dash, two digits, a dash, two digits: `A-01-02`. */
  predicate IsWarehouseLocation(s: string)
  {
    |s| == 7 && IsUpper(s[0]) && s[1] == '-' && IsDigit(s[2]) && IsDigit(s[3])
    && s[4] == '-' && IsDigit(s[5]) && IsDigit(s[6])
  }

  /** `#` and six hexadecimal digits of either case: `#1a2B3c`. */
  predicate IsHexColor(s: string)
  {
    |s| == 7 && s[0] == '#' && forall k :: 1 <= k < 7 ==> IsHexDigit(s[k])
  }

  lemma ClassMeanings(c: char)
    ensures InClass(c, UPPER) <==> IsUpper(c)
    ensures InClass(c, DIGIT) <==> IsDigit(c)
    ensures InClass(c, HEX) <==> IsHexDigit(c)
    ensures InClass(c, Literal('-').cls) <==> c == '-'
    ensures InClass(c, Literal('#').cls) <==> c == '#'
  {
    assert UPPER[1..] == [];
    assert DIGIT[1..] == [];
    assert HEX[1..][1..][1..] == [];
    assert Literal('-').cls[1..] == [];
    assert Literal('#').cls[1..] == [];
  }

  /** Matching a single term followed by the rest of a pattern. */
  lemma MatchesCons(t: Term, rest: seq<Term>, s: string)
    ensures Matches([t] + rest, s) <==>
      (|s| >= t.count && AllInClass(s[..t.count], t.cls) && Matches(rest, s[t.count..]))
  {
    assert ([t] + rest)[0] == t;
    assert ([t] + rest)[1..] == rest;
  }

  lemma MatchesEmpty(s: string)
    ensures Matches([], s) <==> s == []
  {
  }

  lemma {:induction false} ProductIdPattern(s: string)
    ensures Matches(PRODUCT_ID, s) <==> IsProductId(s)
  {
    forall c: char { ClassMeanings(c); }
    MatchesCons(Term(UPPER, 2), [Term(DIGIT, 6)], s);
    assert PRODUCT_ID == [Term(UPPER, 2)] + [Term(DIGIT, 6)];
    if |s| >= 2 {
      MatchesCons(Term(DIGIT, 6), [], s[2..]);
      assert [Term(DIGIT, 6)] == [Term(DIGIT, 6)] + [];
      if |s| >= 8 { MatchesEmpty(s[2..][6..]); }
      if |s| == 8 {
        assert forall k :: 2 <= k < 8 ==> s[k] == s[2..][..6][k - 2];
        assert forall k :: 0 <= k < 2 ==> s[k] == s[..2][k];
      }
    }
  }

  lemma {:induction false} WarehouseLocationPattern(s: string)
    ensures Matches(WAREHOUSE_LOCATION, s) <==> IsWarehouseLocation(s)
  {
    forall c: char { ClassMeanings(c); }
    var t0, t1, t2, t3, t4 := Term(UPPER, 1), Literal('-'), Term(DIGIT, 2), Literal('-'), Term(DIGIT, 2);
    assert WAREHOUSE_LOCATION == [t0] + [t1, t2, t3, t4];
    assert [t1, t2, t3, t4] == [t1] + [t2, t3, t4];
    assert [t2, t3, t4] == [t2] + [t3, t4];
    assert [t3, t4] == [t3] + [t4];
    assert [t4] == [t4] + [];
    MatchesCons(t0, [t1, t2, t3, t4], s);
    if |s| >= 1 {
      var s1 := s[1..];
      MatchesCons(t1, [t2, t3, t4], s1);
      if |s1| >= 1 {
        var s2 := s1[1..];
        MatchesCons(t2, [t3, t4], s2);
        if |s2| >= 2 {
          var s3 := s2[2..];
          MatchesCons(t3, [t4], s3);
          if |s3| >= 1 {
            var s4 := s3[1..];
            MatchesCons(t4, [], s4);
            if |s4| >= 2 {
              MatchesEmpty(s4[2..]);
            }
            if |s| == 7 {
              assert s[0] == s[..1][0];
              assert s[1] == s1[..1][0];
              assert s[2] == s2[..2][0] && s[3] == s2[..2][1];
              assert s[4] == s3[..1][0];
              assert s[5] == s4[..2][0] && s[6] == s4[..2][1];
            }
          }
        }
      }
    }
  }

  lemma {:induction false} HexColorPattern(s: string)
    ensures Matches(HEX_COLOR, s) <==> IsHexColor(s)
  {
    forall c: char { ClassMeanings(c); }
    assert HEX_COLOR == [Literal('#')] + [Term(HEX, 6)];
    MatchesCons(Literal('#'), [Term(HEX, 6)], s);
    if |s| >= 1 {
      assert [Term(HEX, 6)] == [Term(HEX, 6)] + [];
      MatchesCons(Term(HEX, 6), [], s[1..]);
      if |s| >= 7 { MatchesEmpty(s[1..][6..]); }
      assert s[0] == s[..1][0];
      if |s| == 7 {
        assert forall k :: 1 <= k < 7 ==> s[k] == s[1..][..6][k - 1];
      }
    }
  }
}
