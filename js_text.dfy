/** JavaScript's view of a string's length. */
module JsText {

  /** The first code point outside the Basic Multilingual Plane. */
  const AstralStart: int := 0x10000

  /** `s.length`: the number of UTF-16 code units, so a character outside the Basic
      Multilingual Plane (U+1F345, the tomato emoji, for one) counts twice. */
  function Length(s: string): (n: nat)
    ensures |s| <= n <= 2 * |s|
  {
    if s == [] then 0 else (if s[0] as int >= AstralStart then 2 else 1) + Length(s[1..])
  }

  /** Every character of `s` is a single UTF-16 code unit. */
  predicate InBmp(s: string)
  {
    forall i :: 0 <= i < |s| ==> (s[i] as int) < AstralStart
  }

  /** For text within the Basic Multilingual Plane, `length` is the number of characters. */
  lemma {:induction false} BmpLength(s: string)
    requires InBmp(s)
    ensures Length(s) == |s|
  {
    if s != [] {
      assert InBmp(s[1..]) by {
        forall i | 0 <= i < |s[1..]| ensures (s[1..][i] as int) < AstralStart {
          assert s[1..][i] == s[i + 1];
        }
      }
      BmpLength(s[1..]);
    }
  }

  /** One character is one UTF-16 unit inside the Basic Multilingual Plane and two (a
      surrogate pair) outside it. */
  lemma UnitLength(c: char)
    ensures Length([c]) == if (c as int) >= AstralStart then 2 else 1
  {
    assert [c][1..] == [];
  }

  /** A character outside the Basic Multilingual Plane, such as U+1F345, counts two. */
  lemma AstralCountsTwo(c: char)
    requires (c as int) >= AstralStart
    ensures Length([c]) == 2
  {
    UnitLength(c);
  }

  /** `length` adds up over concatenation, so together with `UnitLength` it counts every
      character of any text as its number of UTF-16 units. */
  lemma {:induction false} LengthAppend(s: string, t: string)
    ensures Length(s + t) == Length(s) + Length(t)
  {
    if s == [] {
      assert s + t == t;
    } else {
      assert (s + t)[0] == s[0];
      assert (s + t)[1..] == s[1..] + t;
      LengthAppend(s[1..], t);
    }
  }
}
