/** The render dump of App::onKey: a binary Netpbm "P6" file, whose header is the
    magic number, the width and height in decimal, and the maximum sample value
    255, each followed by one white-space character, after which come the RGB
    samples, one byte each. The parser is the reader's side of the format, used
    to show the header can be read back. */
module Netpbm {
  import opened Common

  /** The bytes of a std::string written with ofstream::write: each char's low byte. */
  function Ascii(s: string): (bytes: seq<u8>)
    ensures |bytes| == |s|
    ensures forall k :: 0 <= k < |s| ==> bytes[k] as int == s[k] as int % 256
  {
    seq(|s|, k requires 0 <= k < |s| => (s[k] as int % 256) as u8)
  }

  lemma AsciiAppend(a: string, b: string)
    ensures Ascii(a + b) == Ascii(a) + Ascii(b)
  {
  }

  predicate IsDigit(c: char) {
    '0' <= c <= '9'
  }

  function DigitChar(d: nat): (c: char)
    requires d < 10
    ensures IsDigit(c)
  {
    ('0' as int + d) as char
  }

  /** std::to_string of a non-negative int: its decimal digits, most significant
      first, without leading zeros. */
  function Dec(n: nat): (s: string)
    ensures |s| > 0 && forall k :: 0 <= k < |s| ==> IsDigit(s[k])
    ensures s[0] == '0' <==> n == 0
    ensures n == 0 ==> s == "0"
  {
    if n < 10 then [DigitChar(n)] else Dec(n / 10) + [DigitChar(n % 10)]
  }

  /** The header `"P6\n" + to_string(width) + " " + to_string(height) + "\n255\n"`. */
  function PpmHeader(width: nat, height: nat): string {
    "P6\n" + Dec(width) + " " + Dec(height) + "\n255\n"
  }

  /** The file written on F12: the header followed by width x height x 3 bytes. */
  function PpmFile(width: nat, height: nat, pixels: seq<u8>): (file: seq<u8>)
    requires |pixels| == width * height * 3
    ensures |file| == |Dec(width)| + |Dec(height)| + 9 + |pixels|
    ensures file[|file| - |pixels|..] == pixels
  {
    Ascii(PpmHeader(width, height)) + pixels
  }

  // Reading the file back

  predicate IsDigitByte(b: u8) {
    48 <= b <= 57
  }

  /** The value of decimal digit bytes, most significant first. */
  function DecimalValue(bytes: seq<u8>): nat
    requires forall k :: 0 <= k < |bytes| ==> IsDigitByte(bytes[k])
  {
    if bytes == [] then 0
    else
      assert IsDigitByte(bytes[|bytes| - 1]);
      DecimalValue(bytes[..|bytes| - 1]) * 10 + (bytes[|bytes| - 1] as int - 48)
  }

  /** The end of the run of digit bytes that starts at `i`. */
  function DigitRun(bytes: seq<u8>, i: nat): (j: nat)
    requires i <= |bytes|
    ensures i <= j <= |bytes|
    ensures forall k :: i <= k < j ==> IsDigitByte(bytes[k])
    ensures j == |bytes| || !IsDigitByte(bytes[j])
    decreases |bytes| - i
  {
    if i == |bytes| || !IsDigitByte(bytes[i]) then i else DigitRun(bytes, i + 1)
  }

  datatype Image = Image(width: nat, height: nat, pixels: seq<u8>)

  /** A P6 file in exactly the layout PpmFile writes (single white-space
      separators, maximum value 255, no comments); None otherwise. */
  function ParsePpm(file: seq<u8>): Option<Image> {
    if |file| < 3 || file[..3] != Ascii("P6\n") then None
    else
      var widthEnd := DigitRun(file, 3);
      if widthEnd == 3 || widthEnd == |file| || file[widthEnd] != 32 then None
      else
        var heightEnd := DigitRun(file, widthEnd + 1);
        if heightEnd == widthEnd + 1 || |file| < heightEnd + 5 || file[heightEnd..heightEnd + 5] != Ascii("\n255\n") then None
        else
          var width, height := DecimalValue(file[3..widthEnd]), DecimalValue(file[widthEnd + 1..heightEnd]);
          if |file| - (heightEnd + 5) != width * height * 3 then None
          else Some(Image(width, height, file[heightEnd + 5..]))
  }

  /** Decimal digits are written as digit bytes. */
  lemma DigitBytes(s: string)
    requires forall k :: 0 <= k < |s| ==> IsDigit(s[k])
    ensures forall k :: 0 <= k < |s| ==> IsDigitByte(Ascii(s)[k])
  {
  }

  /** The bytes of a decimal string are digit bytes with the digits' values. */
  lemma {:induction false} DecBytes(n: nat)
    ensures forall k :: 0 <= k < |Dec(n)| ==> IsDigitByte(Ascii(Dec(n))[k])
    ensures DecimalValue(Ascii(Dec(n))) == n
  {
    DigitBytes(Dec(n));
    if n >= 10 {
      var q, c := Dec(n / 10), DigitChar(n % 10);
      DecBytes(n / 10);
      AsciiAppend(q, [c]);
      var bytes := Ascii(Dec(n));
      assert bytes == Ascii(q) + Ascii([c]);
      assert bytes[..|bytes| - 1] == Ascii(q);
      assert bytes[|bytes| - 1] as int - 48 == n % 10;
    }
  }

  /** A digit run stops at the first byte that is not a digit. */
  lemma {:induction false} DigitRunStops(bytes: seq<u8>, i: nat, j: nat)
    requires i <= j <= |bytes|
    requires forall k :: i <= k < j ==> IsDigitByte(bytes[k])
    requires j == |bytes| || !IsDigitByte(bytes[j])
    ensures DigitRun(bytes, i) == j
    decreases j - i
  {
  }

  /** The header's bytes, piece by piece. */
  lemma HeaderBytes(width: nat, height: nat)
    ensures Ascii(PpmHeader(width, height))
         == Ascii("P6\n") + Ascii(Dec(width)) + [32] + Ascii(Dec(height)) + Ascii("\n255\n")
  {
  }

  /** Reading a written file gives back its size and its samples. */
  lemma PpmRoundTrip(width: nat, height: nat, pixels: seq<u8>)
    requires |pixels| == width * height * 3
    ensures ParsePpm(PpmFile(width, height, pixels)) == Some(Image(width, height, pixels))
  {
    var magic, w, h, maxval := Ascii("P6\n"), Ascii(Dec(width)), Ascii(Dec(height)), Ascii("\n255\n");
    var file := PpmFile(width, height, pixels);
    HeaderBytes(width, height);
    assert file == magic + w + [32] + h + maxval + pixels;
    DecBytes(width);
    DecBytes(height);
    var widthEnd := 3 + |w|;
    var heightEnd := widthEnd + 1 + |h|;
    assert file[..3] == magic;
    assert file[3..widthEnd] == w;
    assert file[widthEnd] == 32;
    DigitRunStops(file, 3, widthEnd);
    assert file[widthEnd + 1..heightEnd] == h;
    assert file[heightEnd] == 10;
    DigitRunStops(file, widthEnd + 1, heightEnd);
    assert file[heightEnd..heightEnd + 5] == maxval;
    assert file[heightEnd + 5..] == pixels;
  }

  /** The header and the size of the 512 x 512 render dump. */
  lemma CanvasDump(pixels: seq<u8>)
    requires |pixels| == 512 * 512 * 3
    ensures PpmHeader(512, 512) == "P6\n512 512\n255\n"
    ensures |PpmFile(512, 512, pixels)| == 786447
  {
  }
}
