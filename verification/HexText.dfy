/** Hexadecimal and decimal text as the coordinator reads and writes it. */
module HexText {
  import opened Wrappers

  predicate IsDigit(c: char) {
    '0' <= c <= '9'
  }

  predicate IsLowerHex(c: char) {
    '0' <= c <= '9' || 'a' <= c <= 'f'
  }

  predicate IsHex(c: char) {
    IsLowerHex(c) || 'A' <= c <= 'F'
  }

  function LowerChar(c: char): (r: char)
    ensures IsHex(c) ==> IsLowerHex(r)
    ensures IsLowerHex(c) ==> r == c
  {
    if 'A' <= c <= 'Z' then (c as int + 32) as char else c
  }

  function Lower(s: string): (r: string)
    ensures |r| == |s|
  {
    seq(|s|, i requires 0 <= i < |s| => LowerChar(s[i]))
  }

  predicate AllHex(s: string) {
    forall i :: 0 <= i < |s| ==> IsHex(s[i])
  }

  predicate AllLowerHex(s: string) {
    forall i :: 0 <= i < |s| ==> IsLowerHex(s[i])
  }

  /** `0x` followed by lower-case hexadecimal digits. */
  predicate IsLowerHexText(s: string) {
    |s| >= 2 && s[..2] == "0x" && AllLowerHex(s[2..])
  }

  /** Even-length hexadecimal bytes, in lower case, or a refusal. */
  function CleanHex(s: string): (r: Result<string, string>)
    ensures r.Ok? ==> IsLowerHexText(r.value) && |r.value| == |s| && |s| % 2 == 0
  {
    if |s| < 2 || s[..2] != "0x" || !AllHex(s[2..]) || |s| % 2 != 0
    then Err("must be even-length hexadecimal bytes")
    else
      var lower := Lower(s);
      assert lower[0] == '0' && lower[1] == 'x';
      assert lower[..2] == "0x";
      assert forall i :: 0 <= i < |lower[2..]| ==> lower[2..][i] == LowerChar(s[2..][i]);
      Ok(lower)
  }

  /** A decimal unsigned integer without leading zeros. */
  predicate IsDecimal(s: string) {
    && s != [] && (forall i :: 0 <= i < |s| ==> IsDigit(s[i]))
    && (s[0] == '0' ==> |s| == 1)
  }

  function DecimalValue(s: string): nat
    requires forall i :: 0 <= i < |s| ==> IsDigit(s[i])
  {
    if s == [] then 0
    else
      assert IsDigit(s[|s| - 1]);
      10 * DecimalValue(s[..|s| - 1]) + (s[|s| - 1] as int - '0' as int)
  }
}
