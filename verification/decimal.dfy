/**
 * Decimal text of integers, as Go's strconv package writes and reads it:
 * FormatInt / FormatUint with base 10, and ParseInt / ParseUint with base 10
 * and bit size 64.
 */
module Decimal {
  import opened Wrappers

  const Int64Min: int := -0x8000_0000_0000_0000
  const Int64Max: int := 0x7fff_ffff_ffff_ffff
  const Uint64Max: int := 0xffff_ffff_ffff_ffff

  predicate IsDigit(c: char) { '0' <= c <= '9' }

  predicate AllDigits(s: string) { forall i :: 0 <= i < |s| ==> IsDigit(s[i]) }

  function DigitChar(d: nat): (c: char)
    requires d < 10
    ensures IsDigit(c)
  {
    ('0' as int + d) as char
  }

  function DigitValue(c: char): (d: nat)
    requires IsDigit(c)
    ensures d < 10 && DigitChar(d) == c
  {
    c as int - '0' as int
  }

  /** strconv.FormatUint(n, 10): the shortest digit string, no sign, no leading zero. */
  function FormatNat(n: nat): (s: string)
    ensures |s| > 0 && AllDigits(s)
    ensures s[0] == '0' ==> s == "0"
    decreases n
  {
    if n < 10 then [DigitChar(n)] else FormatNat(n / 10) + [DigitChar(n % 10)]
  }

  /** strconv.FormatInt(n, 10): a '-' before the digits of |n| when n is negative. */
  function FormatInt(n: int): (s: string)
    ensures |s| > 0
    ensures n >= 0 ==> AllDigits(s)
    ensures n < 0 ==> s[0] == '-' && AllDigits(s[1..])
  {
    if n < 0 then "-" + FormatNat(-n) else FormatNat(n)
  }

  /** The number a digit string denotes, most significant digit first. */
  function DigitsValue(s: string): nat
    requires AllDigits(s)
  {
    if s == [] then 0 else DigitsValue(s[..|s| - 1]) * 10 + DigitValue(s[|s| - 1])
  }

  /** strconv.ParseUint(s, 10, 64): digits only (no sign), at least one, at most 2^64-1. */
  function ParseUint64(s: string): (r: Option<nat>)
    ensures r.Some? ==> r.value <= Uint64Max
  {
    if s != [] && AllDigits(s) && DigitsValue(s) <= Uint64Max then Some(DigitsValue(s)) else None
  }

  /** strconv.ParseInt(s, 10, 64): an optional '+' or '-', then at least one digit, within int64. */
  function ParseInt64(s: string): (r: Option<int>)
    ensures r.Some? ==> Int64Min <= r.value <= Int64Max
  {
    var signed := |s| > 0 && (s[0] == '+' || s[0] == '-');
    var digits := if signed then s[1..] else s;
    if digits == [] || !AllDigits(digits) then None
    else
      var v: int := if signed && s[0] == '-' then -(DigitsValue(digits) as int) else DigitsValue(digits) as int;
      if Int64Min <= v <= Int64Max then Some(v) else None
  }

  lemma {:induction false} DigitsValueOfFormat(n: nat)
    ensures DigitsValue(FormatNat(n)) == n
    decreases n
  {
    var s := FormatNat(n);
    if n >= 10 {
      DigitsValueOfFormat(n / 10);
      assert s[..|s| - 1] == FormatNat(n / 10);
    }
  }

  /** Reading back what FormatInt wrote gives the same int64. */
  lemma ParseFormatInt(n: int)
    requires Int64Min <= n <= Int64Max
    ensures ParseInt64(FormatInt(n)) == Some(n)
  {
    var s := FormatInt(n);
    if n < 0 {
      DigitsValueOfFormat(-n);
      assert s[0] == '-' && s[1..] == FormatNat(-n);
      assert DigitsValue(s[1..]) == -n;
    } else {
      DigitsValueOfFormat(n);
      assert s == FormatNat(n);
      assert s[0] != '+' && s[0] != '-';
    }
  }

  /** Reading back what FormatNat wrote gives the same uint64. */
  lemma ParseFormatUint(n: nat)
    requires n <= Uint64Max
    ensures ParseUint64(FormatNat(n)) == Some(n)
  {
    DigitsValueOfFormat(n);
  }

  /**
   * A digit string that does not fit int64 but fits uint64 is exactly one
   * whose value lies strictly above Int64Max and at most Uint64Max.
   */
  lemma UintOnlyRange(s: string)
    requires ParseInt64(s).None? && ParseUint64(s).Some?
    ensures Int64Max < ParseUint64(s).value <= Uint64Max
  {
  }
}
