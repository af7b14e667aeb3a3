/** The behaviour of ECMAScript's encodeURIComponent on strings of Unicode
    scalar values: characters of the unreserved set are kept, every other
    character becomes the percent-encoded bytes of its UTF-8 form, with
    upper-case hexadecimal digits. */
module UriEncoding {

  /** The characters encodeURIComponent leaves alone: ASCII letters, decimal
      digits and the marks - _ . ! ~ * ' ( ). */
  predicate IsUnreserved(c: char) {
    ('A' <= c <= 'Z') || ('a' <= c <= 'z') || ('0' <= c <= '9') ||
    c == '-' || c == '_' || c == '.' || c == '!' || c == '~' ||
    c == '*' || c == '\'' || c == '(' || c == ')'
  }

  predicate AllUnreserved(s: string) {
    forall i :: 0 <= i < |s| ==> IsUnreserved(s[i])
  }

  /** Upper-case hexadecimal digit for a value below 16. */
  function HexDigit(n: nat): (c: char)
    requires n < 16
    ensures IsUnreserved(c)
    ensures n < 10 ==> c as int == '0' as int + n
    ensures 10 <= n ==> c as int == 'A' as int + (n - 10)
  {
    if n < 10 then ('0' as int + n) as char else ('A' as int + (n - 10)) as char
  }

  predicate IsContinuationByte(b: nat) { 0x80 <= b < 0xC0 }

  /** The UTF-8 encoding of one Unicode scalar value. */
  function Utf8Bytes(c: char): (bs: seq<nat>)
    ensures |bs| == if c as int < 0x80 then 1
                   else if c as int < 0x800 then 2
                   else if c as int < 0x1_0000 then 3
                   else 4
    ensures forall i :: 0 <= i < |bs| ==> bs[i] < 0x100
    ensures forall i :: 1 <= i < |bs| ==> IsContinuationByte(bs[i])
    ensures |bs| == 1 ==> bs[0] < 0x80
    ensures |bs| == 2 ==> 0xC0 <= bs[0] < 0xE0
    ensures |bs| == 3 ==> 0xE0 <= bs[0] < 0xF0
    ensures |bs| == 4 ==> 0xF0 <= bs[0] < 0xF8
  {
    var cp := c as int;
    if cp < 0x80 then [cp]
    else if cp < 0x800 then [0xC0 + cp / 0x40, 0x80 + cp % 0x40]
    else if cp < 0x1_0000 then
      [0xE0 + cp / 0x1000, 0x80 + (cp / 0x40) % 0x40, 0x80 + cp % 0x40]
    else
      [0xF0 + cp / 0x4_0000, 0x80 + (cp / 0x1000) % 0x40,
       0x80 + (cp / 0x40) % 0x40, 0x80 + cp % 0x40]
  }

  /** Reads back the code point of a well-formed UTF-8 sequence of one to four bytes. */
  function Utf8CodePoint(bs: seq<nat>): int
    requires 1 <= |bs| <= 4
  {
    var b0: int := bs[0];
    if |bs| == 1 then b0
    else
      var b1: int := bs[1];
      if |bs| == 2 then (b0 - 0xC0) * 0x40 + (b1 - 0x80)
      else
        var b2: int := bs[2];
        if |bs| == 3 then ((b0 - 0xE0) * 0x40 + (b1 - 0x80)) * 0x40 + (b2 - 0x80)
        else
          var b3: int := bs[3];
          (((b0 - 0xF0) * 0x40 + (b1 - 0x80)) * 0x40 + (b2 - 0x80)) * 0x40 + (b3 - 0x80)
  }

  /** UTF-8 encoding loses nothing: the code point can be read back. */
  lemma Utf8RoundTrip(c: char)
    ensures Utf8CodePoint(Utf8Bytes(c)) == c as int
  {
    var cp := c as int;
    if cp >= 0x80 {
      assert cp == (cp / 0x40) * 0x40 + cp % 0x40;
      if cp >= 0x800 {
        assert cp / 0x40 == ((cp / 0x40) / 0x40) * 0x40 + (cp / 0x40) % 0x40;
        assert (cp / 0x40) / 0x40 == cp / 0x1000;
        if cp >= 0x1_0000 {
          assert cp / 0x1000 == ((cp / 0x1000) / 0x40) * 0x40 + (cp / 0x1000) % 0x40;
          assert (cp / 0x1000) / 0x40 == cp / 0x4_0000;
        }
      }
    }
  }

  /** "%XY" for a byte, XY its two upper-case hexadecimal digits. */
  function PercentByte(b: nat): (r: string)
    requires b < 0x100
    ensures |r| == 3 && r[0] == '%' && IsUnreserved(r[1]) && IsUnreserved(r[2])
  {
    ['%', HexDigit(b / 16), HexDigit(b % 16)]
  }

  function PercentBytes(bs: seq<nat>): (r: string)
    requires forall i :: 0 <= i < |bs| ==> bs[i] < 0x100
    ensures |r| == 3 * |bs|
    ensures forall i :: 0 <= i < |r| ==> IsUnreserved(r[i]) || r[i] == '%'
  {
    if bs == [] then [] else PercentByte(bs[0]) + PercentBytes(bs[1..])
  }

  function EncodeChar(c: char): (r: string)
    ensures IsUnreserved(c) ==> r == [c]
    ensures !IsUnreserved(c) ==> 3 <= |r| <= 12 && r[0] == '%'
  {
    if IsUnreserved(c) then [c] else PercentBytes(Utf8Bytes(c))
  }

  /** encodeURIComponent: each character encoded on its own, in order. */
  function EncodeUriComponent(s: string): (r: string)
    ensures |r| >= |s|
    ensures forall i :: 0 <= i < |r| ==> IsUnreserved(r[i]) || r[i] == '%'
  {
    if s == [] then [] else EncodeChar(s[0]) + EncodeUriComponent(s[1..])
  }

  /** A string of unreserved characters comes through unchanged, and only such a
      string does: any other character makes the result strictly longer. */
  lemma {:induction false} EncodeFixedPoint(s: string)
    ensures EncodeUriComponent(s) == s <==> AllUnreserved(s)
    ensures !AllUnreserved(s) ==> |EncodeUriComponent(s)| > |s|
  {
    if s != [] {
      EncodeFixedPoint(s[1..]);
      if AllUnreserved(s) {
        assert AllUnreserved(s[1..]) by {
          forall i | 0 <= i < |s[1..]| ensures IsUnreserved(s[1..][i]) {
            assert s[1..][i] == s[i + 1];
          }
        }
      } else if IsUnreserved(s[0]) {
        assert !AllUnreserved(s[1..]) by {
          var j :| 0 <= j < |s| && !IsUnreserved(s[j]);
          assert j != 0 && s[1..][j - 1] == s[j];
        }
      }
    }
  }
}
