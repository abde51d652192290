/**
 * Go's "%v" rendering of an int (an optional '-' and decimal digits without
 * leading zeros), its inverse, and splitting a string at the last occurrence
 * of a character. Used by Config.Address and its round trip.
 */
module Format {
  import opened Wrappers

  predicate IsDigit(c: char) {
    '0' <= c <= '9'
  }

  predicate AllDigits(s: string) {
    forall i :: 0 <= i < |s| ==> IsDigit(s[i])
  }

  function DigitChar(d: nat): (c: char)
    requires d < 10
    ensures IsDigit(c)
  {
    (48 + d) as char
  }

  function DigitValue(c: char): (d: nat)
    requires IsDigit(c)
    ensures d < 10
  {
    c as int - 48
  }

  /** Decimal digits of n, most significant first. */
  function NatString(n: nat): (s: string)
    ensures |s| > 0 && AllDigits(s)
    decreases n
  {
    if n < 10 then [DigitChar(n)] else NatString(n / 10) + [DigitChar(n % 10)]
  }

  /** fmt's %v of a signed integer. */
  function IntString(i: int): (s: string)
    ensures |s| > 0 && ':' !in s
  {
    if i < 0 then "-" + NatString(-i) else NatString(i)
  }

  function ParseNat(s: string): nat
    requires AllDigits(s)
    decreases |s|
  {
    if s == [] then 0 else ParseNat(s[..|s| - 1]) * 10 + DigitValue(s[|s| - 1])
  }

  /** The integer a decimal string denotes, if it is one. */
  function ParseInt(s: string): Option<int> {
    if |s| > 0 && AllDigits(s) then Some(ParseNat(s))
    else if |s| > 1 && s[0] == '-' && AllDigits(s[1..]) then Some(0 - ParseNat(s[1..]))
    else None
  }

  lemma {:induction false} ParseNatString(n: nat)
    ensures ParseNat(NatString(n)) == n
  {
    if n >= 10 {
      var s := NatString(n);
      assert s[..|s| - 1] == NatString(n / 10);
      ParseNatString(n / 10);
      assert DigitValue(DigitChar(n % 10)) == n % 10;
    } else {
      assert NatString(n)[..0] == [];
    }
  }

  lemma ParseIntString(i: int)
    ensures ParseInt(IntString(i)) == Some(i)
  {
    if i < 0 {
      var s := IntString(i);
      assert s[0] == '-' && s[1..] == NatString(-i);
      assert !AllDigits(s) by { assert !IsDigit(s[0]); }
      ParseNatString(-i);
    } else {
      ParseNatString(i);
    }
  }

  /** The position of the last c in s, if any. */
  function LastIndexOf(s: string, c: char): (r: Option<nat>)
    ensures r.Some? ==> r.value < |s| && s[r.value] == c
    ensures r.Some? ==> forall j :: r.value < j < |s| ==> s[j] != c
    ensures r.None? ==> c !in s
  {
    if s == [] then None
    else if s[|s| - 1] == c then Some(|s| - 1)
    else LastIndexOf(s[..|s| - 1], c)
  }

  lemma {:induction false} LastIndexOfJoin(left: string, c: char, right: string)
    requires c !in right
    ensures LastIndexOf(left + [c] + right, c) == Some(|left|)
  {
    var s := left + [c] + right;
    assert s[|left|] == c;
    forall j | |left| < j < |s|
      ensures s[j] != c
    {
      assert s[j] == right[j - |left| - 1];
    }
    var r := LastIndexOf(s, c);
    assert r.Some?;
    assert r.value >= |left|;
  }
}
