/** HID reports as text: two hexadecimal digits a byte, bytes apart by one space. */
module Hex {
  import opened Common
  import opened Discovery

  const DIGITS := "0123456789abcdef"

  function DigitValue(c: char): (v: Option<nat>)
    ensures v.Some? ==> v.value < 16
  {
    if '0' <= c <= '9' then Some(c as int - '0' as int)
    else if 'a' <= c <= 'f' then Some(c as int - 'a' as int + 10)
    else if 'A' <= c <= 'F' then Some(c as int - 'A' as int + 10)
    else None
  }

  predicate IsHex(s: string) {
    forall c <- s :: DigitValue(c).Some?
  }

  predicate IsLowerHex(s: string) {
    forall c <- s :: c in DIGITS
  }

  function ByteText(b: Byte): string {
    [DIGITS[b / 16], DIGITS[b % 16]]
  }

  function Encode(report: Report): (s: string)
    ensures |s| == if report == [] then 0 else 3 * |report| - 1
  {
    if |report| == 0 then ""
    else if |report| == 1 then ByteText(report[0])
    else ByteText(report[0]) + " " + Encode(report[1..])
  }

  function ByteOf(s: string): Option<Byte>
    requires |s| >= 2
  {
    var (high, low) := (DigitValue(s[0]), DigitValue(s[1]));
    if high.Some? && low.Some? then Some(high.value * 16 + low.value) else None
  }

  /** The pattern and the conversion in one: None where the pattern does not match. */
  function Decode(s: string): Option<Report> {
    if |s| < 2 || ByteOf(s) == None then None
    else if |s| == 2 then Some([ByteOf(s).value])
    else if s[2] != ' ' || Decode(s[3..]) == None then None
    else Some([ByteOf(s).value] + Decode(s[3..]).value)
  }

  /** A printed report reads back as itself; the empty report prints as text that is refused. */
  lemma {:induction false} DecodeEncode(report: Report)
    ensures Decode(Encode(report)) == if report == [] then None else Some(report)
  {
    if report != [] {
      var s := Encode(report);
      assert [report[0]] + report[1..] == report;
      assert s[..2] == ByteText(report[0]);
      ByteRoundTrip(report[0], s);
      if |report| > 1 {
        DecodeEncode(report[1..]);
        assert s[3..] == Encode(report[1..]) && s[2] == ' ';
        assert Decode(s[3..]) == Some(report[1..]);
        assert ByteOf(s) == Some(report[0]);
        assert Decode(s) == Some([report[0]] + report[1..]);
      } else {
        assert |s| == 2;
        assert Decode(s) == Some([report[0]]);
        assert report == [report[0]];
      }
    }
  }

  lemma ByteRoundTrip(b: Byte, s: string)
    requires |s| >= 2 && s[..2] == ByteText(b)
    ensures ByteOf(s) == Some(b)
  {
    assert s[0] == s[..2][0] && s[1] == s[..2][1];
    DigitRoundTrip(b / 16);
    DigitRoundTrip(b % 16);
  }

  lemma DigitRoundTrip(d: nat)
    requires d < 16
    ensures DigitValue(DIGITS[d]) == Some(d)
  {
  }

  /** Accepted text is the printed report, up to the case of its digits. */
  lemma {:induction false} EncodeDecode(s: string)
    ensures Decode(s).Some? ==> Encode(Decode(s).value) == Lower(s) && Decode(s).value != []
  {
    if Decode(s).Some? {
      BytePrints(s);
      var b := ByteOf(s).value;
      if |s| == 2 {
        assert Lower(s) == ByteText(b);
      } else {
        EncodeDecode(s[3..]);
        EncodeMore(b, Decode(s[3..]).value);
        LowerSplits(s);
      }
    }
  }

  lemma BytePrints(s: string)
    requires |s| >= 2 && ByteOf(s).Some?
    ensures ByteText(ByteOf(s).value) == [LowerChar(s[0]), LowerChar(s[1])]
  {
    var high, low := DigitValue(s[0]).value, DigitValue(s[1]).value;
    calc {
      ByteText(ByteOf(s).value);
      ByteText(high * 16 + low);
      { DigitsPrint(high, low); }
      [DIGITS[high], DIGITS[low]];
      { LoweredDigits(s[0], s[1]); }
      [LowerChar(s[0]), LowerChar(s[1])];
    }
  }

  lemma LoweredDigits(x: char, y: char)
    requires DigitValue(x).Some? && DigitValue(y).Some?
    ensures [DIGITS[DigitValue(x).value], DIGITS[DigitValue(y).value]] == [LowerChar(x), LowerChar(y)]
  {
    DigitOfLower(x);
    DigitOfLower(y);
  }

  lemma DigitsPrint(high: nat, low: nat)
    requires high < 16 && low < 16
    ensures ByteText(high * 16 + low) == [DIGITS[high], DIGITS[low]]
  {
    Halves(high, low);
  }

  lemma Halves(high: nat, low: nat)
    requires low < 16
    ensures (high * 16 + low) / 16 == high && (high * 16 + low) % 16 == low
  {
  }

  lemma EncodeMore(b: Byte, rest: Report)
    requires rest != []
    ensures Encode([b] + rest) == ByteText(b) + " " + Encode(rest)
  {
    assert ([b] + rest)[1..] == rest;
  }

  lemma LowerSplits(s: string)
    requires |s| > 2 && s[2] == ' '
    ensures Lower(s) == [LowerChar(s[0]), LowerChar(s[1])] + " " + Lower(s[3..])
  {
  }

  lemma DigitOfLower(c: char)
    requires DigitValue(c).Some?
    ensures DIGITS[DigitValue(c).value] == LowerChar(c)
  {
  }

  /** Lower-case hexadecimal text is its own lower case. */
  lemma LowerHexIsLower(s: string)
    requires IsLowerHex(s)
    ensures Lower(s) == s && IsHex(s)
  {
    forall i | 0 <= i < |s| ensures LowerChar(s[i]) == s[i] && DigitValue(s[i]).Some? {
      assert s[i] in s;
    }
  }

  /** The lower case of hexadecimal text is lower-case hexadecimal text. */
  lemma LoweredHex(s: string)
    requires IsHex(s)
    ensures IsLowerHex(Lower(s))
  {
    forall i | 0 <= i < |s| ensures Lower(s)[i] in DIGITS {
      assert s[i] in s;
      DigitOfLower(s[i]);
    }
  }

  lemma ZeroFilled(s: string)
    requires IsHex(s) && 1 <= |s| <= 2
    ensures |Zfill2(Lower(s))| == 2 && IsLowerHex(Zfill2(Lower(s)))
  {
    LoweredHex(s);
    assert s[0] in s;
    DigitOfLower(s[0]);
    assert DIGITS[0] == '0';
  }
}
