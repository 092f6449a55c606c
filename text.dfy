/**
 * Character and string helpers shared by the parsing rules: ASCII lower-casing
 * (the model's stand-in for str.lower()), decimal digits, and substring search
 * (Python's `in` on strings).
 */
module Text {

  predicate IsUpper(c: char) { 'A' <= c <= 'Z' }

  predicate IsDigit(c: char) { '0' <= c <= '9' }

  /** Lower-cases one ASCII letter; every other character is left as it is. */
  function LowerChar(c: char): (d: char)
    ensures !IsUpper(d)
    ensures IsUpper(c) ==> d as int - c as int == 'a' as int - 'A' as int
    ensures !IsUpper(c) ==> d == c
  {
    if IsUpper(c) then (c as int - 'A' as int + 'a' as int) as char else c
  }

  /** str.lower() restricted to ASCII letters. */
  function Lower(s: string): (r: string)
    ensures |r| == |s|
    ensures forall i :: 0 <= i < |s| ==> r[i] == LowerChar(s[i])
    ensures forall i :: 0 <= i < |r| ==> !IsUpper(r[i])
  {
    if s == [] then [] else [LowerChar(s[0])] + Lower(s[1..])
  }

  /** Lower-casing twice gives what lower-casing once gives. */
  lemma LowerIdempotent(s: string)
    ensures Lower(Lower(s)) == Lower(s)
  {
    var l := Lower(s);
    assert forall i :: 0 <= i < |l| ==> Lower(l)[i] == l[i];
  }

  /** Text without capitals is its own lower-case form. */
  lemma LowerWithoutCapitals(s: string)
    requires forall i :: 0 <= i < |s| ==> !IsUpper(s[i])
    ensures Lower(s) == s
  {
  }

  predicate AllDigits(s: string) { forall i :: 0 <= i < |s| ==> IsDigit(s[i]) }

  /** The digits of s, in order: every other character is dropped. */
  function Digits(s: string): (r: string)
    ensures AllDigits(r)
    ensures |r| <= |s|
  {
    if s == [] then []
    else (if IsDigit(s[0]) then [s[0]] else []) + Digits(s[1..])
  }

  lemma {:induction false} DigitsAppend(a: string, b: string)
    ensures Digits(a + b) == Digits(a) + Digits(b)
  {
    if a == [] {
      assert a + b == b;
    } else {
      assert (a + b)[1..] == a[1..] + b;
      DigitsAppend(a[1..], b);
    }
  }

  lemma {:induction false} DigitsEmptyIff(s: string)
    ensures Digits(s) == [] <==> forall i :: 0 <= i < |s| ==> !IsDigit(s[i])
  {
    if s != [] {
      DigitsEmptyIff(s[1..]);
      assert forall i :: 1 <= i < |s| ==> s[i] == s[1..][i - 1];
    }
  }

  predicate IsPrefix(w: string, s: string) { |w| <= |s| && s[..|w|] == w }

  /** Python's `w in s` for strings: w occurs somewhere in s. */
  predicate Occurs(w: string, s: string)
    decreases |s|
  {
    IsPrefix(w, s) || (s != [] && Occurs(w, s[1..]))
  }

  /** w stands in s at position i. */
  predicate OccursAt(w: string, s: string, i: int)
  {
    0 <= i <= |s| - |w| && s[i..i + |w|] == w
  }

  /** Occurs agrees with the positional definition of a substring. */
  lemma {:induction false} OccursIff(w: string, s: string)
    ensures Occurs(w, s) <==> exists i :: OccursAt(w, s, i)
  {
    if IsPrefix(w, s) {
      assert OccursAt(w, s, 0);
    } else if s == [] {
    } else {
      OccursIff(w, s[1..]);
      if Occurs(w, s[1..]) {
        var i :| OccursAt(w, s[1..], i);
        assert s[1..][i..i + |w|] == s[i + 1..i + 1 + |w|];
        assert OccursAt(w, s, i + 1);
      }
      if exists i :: OccursAt(w, s, i) {
        var i :| OccursAt(w, s, i);
        assert i != 0;
        assert s[1..][i - 1..i - 1 + |w|] == s[i..i + |w|];
        assert OccursAt(w, s[1..], i - 1);
      }
    }
  }

  /** w occurs in s at position i, so w occurs in s. */
  lemma OccursAtOccurs(w: string, s: string, i: int)
    requires OccursAt(w, s, i)
    ensures Occurs(w, s)
  {
    OccursIff(w, s);
  }

  /** A word holding a character that s lacks does not occur in s. */
  lemma OccursMissingChar(w: string, s: string, c: char)
    requires c in w && c !in s
    ensures !Occurs(w, s)
  {
    var k :| 0 <= k < |w| && w[k] == c;
    forall i | 0 <= i <= |s| - |w|
      ensures !OccursAt(w, s, i)
    {
      assert s[i..i + |w|][k] == s[i + k];
    }
    OccursIff(w, s);
  }
}
