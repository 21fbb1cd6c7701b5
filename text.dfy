/** Decimal rendering of integers (JavaScript's `${n}` and `n.toString()`) and the
    `"{blockNumber}-{index}"` record identifiers built from it, with their parser. */
module Text {
  import opened Results

  predicate IsDigit(c: char) { '0' <= c <= '9' }

  predicate IsDigits(s: string) {
    forall i :: 0 <= i < |s| ==> IsDigit(s[i])
  }

  function DigitChar(d: nat): (c: char)
    requires d < 10
  {
    (48 + d) as char
  }

  function DigitValue(c: char): nat
    requires IsDigit(c)
  {
    c as int - 48
  }

  /** The value of a string of decimal digits; the empty string is 0. */
  function DigitsValue(s: string): nat
    requires IsDigits(s)
  {
    if s == [] then 0 else DigitsValue(s[..|s| - 1]) * 10 + DigitValue(s[|s| - 1])
  }

  /** The decimal text of `n`, without leading zeros. */
  function Decimal(n: nat): (s: string)
    ensures |s| >= 1 && IsDigits(s)
  {
    if n < 10 then [DigitChar(n)] else Decimal(n / 10) + [DigitChar(n % 10)]
  }

  /** Reading the decimal text back gives the number. */
  lemma {:induction false} DecimalRoundTrip(n: nat)
    ensures DigitsValue(Decimal(n)) == n
  {
    if n >= 10 {
      var d := Decimal(n / 10);
      assert (d + [DigitChar(n % 10)])[..|d|] == d;
      DecimalRoundTrip(n / 10);
    }
  }

  /** Different numbers have different decimal texts. */
  lemma DecimalInjective(a: nat, b: nat)
    requires Decimal(a) == Decimal(b)
    ensures a == b
  {
    DecimalRoundTrip(a);
    DecimalRoundTrip(b);
  }

  /** `s.indexOf(c)`: the first position of `c` in `s`, or -1. */
  function FirstIndexOf(s: string, c: char): (r: int)
    ensures r == -1 <==> c !in s
    ensures 0 <= r ==> r < |s| && s[r] == c && c !in s[..r]
  {
    if s == [] then -1
    else if s[0] == c then 0
    else
      var k := FirstIndexOf(s[1..], c);
      if k < 0 then -1
      else
        assert s[..k + 1] == [s[0]] + s[1..][..k];
        k + 1
  }

  /** The identifier `"{blockNumber}-{index}"` that extrinsics, events and native
      transfers receive. */
  function RecordId(blockNumber: nat, index: nat): string {
    Decimal(blockNumber) + "-" + Decimal(index)
  }

  /** Splits an identifier at its first '-' and reads both halves as decimal numbers. */
  function ParseRecordId(id: string): Option<(nat, nat)> {
    var p := FirstIndexOf(id, '-');
    if p < 0 then None
    else
      var head := id[..p];
      var tail := id[p + 1..];
      if head != [] && tail != [] && IsDigits(head) && IsDigits(tail)
      then Some((DigitsValue(head), DigitsValue(tail)))
      else None
  }

  /** Every record identifier parses back to the block number and index it was built from. */
  lemma RecordIdRoundTrip(blockNumber: nat, index: nat)
    ensures ParseRecordId(RecordId(blockNumber, index)) == Some((blockNumber, index))
  {
    var d := Decimal(blockNumber);
    var id := RecordId(blockNumber, index);
    assert id[|d|] == '-';
    var p := FirstIndexOf(id, '-');
    assert p == |d|;
    assert id[..p] == d;
    assert id[p + 1..] == Decimal(index);
    DecimalRoundTrip(blockNumber);
    DecimalRoundTrip(index);
  }

  /** Two record identifiers coincide only when block number and index both coincide. */
  lemma RecordIdInjective(n1: nat, i1: nat, n2: nat, i2: nat)
    requires RecordId(n1, i1) == RecordId(n2, i2)
    ensures n1 == n2 && i1 == i2
  {
    RecordIdRoundTrip(n1, i1);
    RecordIdRoundTrip(n2, i2);
  }
}
