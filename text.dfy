// String helpers used by the game: `String.prototype.startsWith`,
// `String.prototype.includes` and the decimal rendering of a month count
// inside a template literal.
module Text {

  /** `s.startsWith(p)`: s is at least as long as p and agrees with it
      character by character. */
  predicate StartsWith(s: string, p: string)
    ensures StartsWith(s, p) <==> |p| <= |s| && forall i :: 0 <= i < |p| ==> s[i] == p[i]
  {
    |p| <= |s| && s[..|p|] == p
  }

  /** `s.includes(t)`, computed by trying every start position in turn. */
  predicate Contains(s: string, t: string)
    ensures Contains(s, t) ==> |t| <= |s|
    decreases |s|
  {
    StartsWith(s, t) || (|s| > 0 && Contains(s[1..], t))
  }

  /** t occurs in s starting at offset i. */
  predicate OccursAt(s: string, t: string, i: int)
  {
    0 <= i <= |s| - |t| && s[i..i + |t|] == t
  }

  /** An occurrence in the tail of s is an occurrence in s, one place later. */
  lemma OccursInTail(s: string, t: string, j: int)
    requires |s| > 0 && OccursAt(s[1..], t, j)
    ensures OccursAt(s, t, j + 1)
  {
    assert s[j + 1..j + 1 + |t|] == s[1..][j..j + |t|];
  }

  /** When the search succeeds, t occurs somewhere in s. */
  lemma {:induction false} ContainsOccurs(s: string, t: string)
    requires Contains(s, t)
    ensures exists i :: OccursAt(s, t, i)
    decreases |s|
  {
    if StartsWith(s, t) {
      assert OccursAt(s, t, 0);
    } else {
      ContainsOccurs(s[1..], t);
      var j :| OccursAt(s[1..], t, j);
      OccursInTail(s, t, j);
    }
  }

  /** Every occurrence of t is found by the search. */
  lemma {:induction false} OccursContains(s: string, t: string, i: int)
    requires OccursAt(s, t, i)
    ensures Contains(s, t)
    decreases i
  {
    if i == 0 {
      assert StartsWith(s, t);
    } else {
      assert OccursAt(s[1..], t, i - 1) by {
        assert s[1..][i - 1..i - 1 + |t|] == s[i..i + |t|];
      }
      OccursContains(s[1..], t, i - 1);
    }
  }

  /** Contains agrees with the definition "t occurs at some offset of s". */
  lemma ContainsIff(s: string, t: string)
    ensures Contains(s, t) <==> exists i :: OccursAt(s, t, i)
  {
    if Contains(s, t) {
      ContainsOccurs(s, t);
    }
    forall i | OccursAt(s, t, i) ensures Contains(s, t) {
      OccursContains(s, t, i);
    }
  }

  predicate IsDigit(ch: char)
  {
    '0' <= ch <= '9'
  }

  function DigitValue(ch: char): nat
    requires IsDigit(ch)
  {
    (ch as int) - ('0' as int)
  }

  function DigitChar(d: nat): (ch: char)
    requires d < 10
    ensures IsDigit(ch) && DigitValue(ch) == d
  {
    "0123456789"[d]
  }

  /** Decimal rendering of a natural number, as `${n}` does for a JS integer:
      digits only, and no leading zero except in "0" itself. */
  function NatToString(n: nat): (s: string)
    ensures |s| > 0 && forall i :: 0 <= i < |s| ==> IsDigit(s[i])
    ensures s[0] == '0' <==> n == 0
    ensures s[0] == '0' ==> |s| == 1
    decreases n
  {
    if n < 10 then [DigitChar(n)] else NatToString(n / 10) + [DigitChar(n % 10)]
  }

  /** Reads a string of decimal digits back as a number. */
  function ParseNat(s: string): nat
    requires forall i :: 0 <= i < |s| ==> IsDigit(s[i])
    decreases |s|
  {
    if s == [] then 0
    else ParseNat(s[..|s| - 1]) * 10 + DigitValue(s[|s| - 1])
  }

  /** The rendering is lossless: parsing it gives the number back. */
  lemma {:induction false} ParseNatToString(n: nat)
    ensures ParseNat(NatToString(n)) == n
    decreases n
  {
    if n >= 10 {
      var s := NatToString(n);
      assert s[..|s| - 1] == NatToString(n / 10);
      ParseNatToString(n / 10);
    }
  }
}
