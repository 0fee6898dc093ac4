/** Unsigned integers written in hexadecimal at a fixed width, and read back. */
module HexNumbers {
  import opened HexText

  function Pow16(n: nat): (r: nat)
    ensures r >= 1
  {
    if n == 0 then 1 else 16 * Pow16(n - 1)
  }

  lemma Widths()
    ensures Pow16(2) == 0x100 && Pow16(4) == 0x1_0000 && Pow16(16) == 0x1_0000_0000_0000_0000
  {
  }

  function HexDigit(d: nat): (c: char)
    requires d < 16
    ensures IsLowerHex(c) && DigitValue(c) == d
  {
    if d < 10 then ('0' as int + d) as char else ('a' as int + d - 10) as char
  }

  function DigitValue(c: char): (d: nat)
    requires IsLowerHex(c)
    ensures d < 16
  {
    if c <= '9' then c as int - '0' as int else c as int - 'a' as int + 10
  }

  function ToHex(v: nat): (s: string)
    ensures s != [] && AllLowerHex(s)
  {
    if v < 16 then [HexDigit(v)] else ToHex(v / 16) + [HexDigit(v % 16)]
  }

  function HexValue(s: string): (v: nat)
    requires AllLowerHex(s)
    ensures v < Pow16(|s|)
  {
    if s == [] then 0 else 16 * HexValue(s[..|s| - 1]) + DigitValue(s[|s| - 1])
  }

  function Zeros(n: nat): (s: string)
    ensures |s| == n && AllLowerHex(s)
  {
    seq(n, i => '0')
  }

  function PadStart(s: string, width: nat): string {
    if |s| < width then Zeros(width - |s|) + s else s
  }

  /** The number in lower-case hexadecimal, padded to at least this many bytes. */
  function HexUint(v: nat, bytes: nat): (s: string)
    ensures IsLowerHexText(s)
  {
    "0x" + PadStart(ToHex(v), 2 * bytes)
  }

  lemma {:induction false} ToHexFits(v: nat, n: nat)
    requires 1 <= n && v < Pow16(n)
    ensures |ToHex(v)| <= n
  {
    if v >= 16 {
      assert n >= 2;
      ToHexFits(v / 16, n - 1);
    }
  }

  lemma {:induction false} ToHexValue(v: nat)
    ensures HexValue(ToHex(v)) == v
  {
    if v >= 16 {
      ToHexValue(v / 16);
      var s := ToHex(v);
      assert s[..|s| - 1] == ToHex(v / 16);
    }
  }

  lemma {:induction false} PaddingKeepsValue(n: nat, s: string)
    requires AllLowerHex(s)
    ensures HexValue(Zeros(n) + s) == HexValue(s)
  {
    var t := Zeros(n) + s;
    if s == [] {
      if n > 0 {
        PaddingKeepsValue(n - 1, s);
        assert t[..|t| - 1] == Zeros(n - 1) + s;
      }
    } else {
      PaddingKeepsValue(n, s[..|s| - 1]);
      assert t[..|t| - 1] == Zeros(n) + s[..|s| - 1];
    }
  }

  lemma PadReadsBack(v: nat, width: nat)
    requires 1 <= width && v < Pow16(width)
    ensures var s := PadStart(ToHex(v), width);
            |s| == width && AllLowerHex(s) && HexValue(s) == v
  {
    var s := ToHex(v);
    ToHexFits(v, width);
    ToHexValue(v);
    PaddingKeepsValue(width - |s|, s);
  }

  /** A number that fits is written in exactly its width and read back unchanged. */
  lemma HexUintReadsBack(v: nat, bytes: nat)
    requires 1 <= bytes && v < Pow16(2 * bytes)
    ensures |HexUint(v, bytes)| == 2 + 2 * bytes
    ensures AllLowerHex(HexUint(v, bytes)[2..]) && HexValue(HexUint(v, bytes)[2..]) == v
  {
    var width := 2 * bytes;
    PadReadsBack(v, width);
    assert HexUint(v, bytes)[2..] == PadStart(ToHex(v), width);
  }

  lemma {:induction false} OnlyZerosAreZero(s: string)
    requires AllLowerHex(s) && HexValue(s) == 0
    ensures s == Zeros(|s|)
  {
    if s != [] {
      OnlyZerosAreZero(s[..|s| - 1]);
      assert s == s[..|s| - 1] + [HexDigit(0)];
    }
  }

  lemma ToHexStep(w: nat, d: nat)
    requires w > 0 && d < 16
    ensures ToHex(16 * w + d) == ToHex(w) + [HexDigit(d)]
  {
    assert (16 * w + d) / 16 == w && (16 * w + d) % 16 == d;
  }

  lemma PadStep(s: string, c: char, width: nat)
    requires |s| <= width
    ensures PadStart(s + [c], width + 1) == PadStart(s, width) + [c]
  {
  }

  /** Digits of a fixed width are the padded text of the number they denote. */
  lemma {:induction false} DigitsAreCanonical(s: string)
    requires s != [] && AllLowerHex(s)
    ensures PadStart(ToHex(HexValue(s)), |s|) == s
  {
    var front, d := s[..|s| - 1], DigitValue(s[|s| - 1]);
    assert s == front + [HexDigit(d)];
    var w := HexValue(front);
    if w == 0 {
      OnlyZerosAreZero(front);
      assert PadStart([HexDigit(d)], |s|) == s;
    } else {
      DigitsAreCanonical(front);
      ToHexFits(w, |front|);
      ToHexStep(w, d);
      PadStep(ToHex(w), HexDigit(d), |front|);
    }
  }
}
