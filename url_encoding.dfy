/** PHP's `urlencode()`, which the campaign block applies to every value. It
    works on the bytes of the string: letters, digits and "-_." are kept, a
    space becomes '+', and every other byte becomes '%' and two upper-case
    hexadecimal digits. A character is taken as its UTF-8 bytes. */
module UrlEncoding {
  import opened PhpStrings

  predicate IsAlphaNumeric(c: char) {
    'A' <= c <= 'Z' || 'a' <= c <= 'z' || '0' <= c <= '9'
  }

  /** The characters `urlencode()` leaves as they are. */
  predicate IsUnreserved(c: char) {
    IsAlphaNumeric(c) || c == '-' || c == '_' || c == '.'
  }

  /** The characters `urlencode()` can produce. */
  predicate IsUrlEncodedChar(c: char) {
    IsUnreserved(c) || c == '+' || c == '%'
  }

  predicate IsByte(b: int) {
    0 <= b < 256
  }

  /** The UTF-8 encoding of one Unicode scalar value. */
  function Utf8(c: char): (bytes: seq<int>)
    ensures 1 <= |bytes| <= 4
    ensures forall i :: 0 <= i < |bytes| ==> IsByte(bytes[i])
    ensures c as int < 0x80 ==> bytes == [c as int]
  {
    var cp := c as int;
    if cp < 0x80 then [cp]
    else if cp < 0x800 then [0xC0 + cp / 0x40, 0x80 + cp % 0x40]
    else if cp < 0x1_0000 then [0xE0 + cp / 0x1000, 0x80 + cp / 0x40 % 0x40, 0x80 + cp % 0x40]
    else [0xF0 + cp / 0x4_0000, 0x80 + cp / 0x1000 % 0x40, 0x80 + cp / 0x40 % 0x40, 0x80 + cp % 0x40]
  }

  function HexDigit(d: int): (c: char)
    requires 0 <= d < 16
    ensures IsAlphaNumeric(c)
  {
    if d < 10 then ('0' as int + d) as char else ('A' as int + d - 10) as char
  }

  /** '%' and two hexadecimal digits per byte. */
  function PercentEncode(bytes: seq<int>): (r: string)
    requires forall i :: 0 <= i < |bytes| ==> IsByte(bytes[i])
    ensures |r| == 3 * |bytes|
    ensures forall i :: 0 <= i < |r| ==> IsUrlEncodedChar(r[i])
  {
    if bytes == [] then ""
    else
      assert IsByte(bytes[0]);
      ['%', HexDigit(bytes[0] / 16), HexDigit(bytes[0] % 16)] + PercentEncode(bytes[1..])
  }

  function EncodeChar(c: char): (r: string)
    ensures |r| > 0
    ensures forall i :: 0 <= i < |r| ==> IsUrlEncodedChar(r[i])
    ensures |r| == 1 ==> IsUnreserved(c) || c == ' '
  {
    if IsUnreserved(c) then [c]
    else if c == ' ' then "+"
    else PercentEncode(Utf8(c))
  }

  function UrlEncode(s: string): (r: string)
    ensures |r| >= |s|
    ensures forall i :: 0 <= i < |r| ==> IsUrlEncodedChar(r[i])
  {
    if s == [] then "" else EncodeChar(s[0]) + UrlEncode(s[1..])
  }

  /** Only the empty string encodes to the empty string. */
  lemma UrlEncodeEmpty(s: string)
    ensures UrlEncode(s) == "" <==> s == ""
  {
  }

  /** Only "0" encodes to "0". */
  lemma UrlEncodeZero(s: string)
    ensures UrlEncode(s) == "0" <==> s == "0"
  {
    if UrlEncode(s) == "0" {
      assert s != [];
      var e := EncodeChar(s[0]);
      assert UrlEncode(s) == e + UrlEncode(s[1..]);
      assert |e| == 1 && UrlEncode(s[1..]) == [];
      assert e == "0";
      assert s[0] != ' ';
      assert s[1..] == [];
    }
  }

  /** `urlencode()` never changes whether `empty()` holds, so a check made after
      encoding rejects exactly what the same check before encoding rejects. */
  lemma UrlEncodeKeepsEmptiness(s: string)
    ensures EmptyStr(UrlEncode(s)) <==> EmptyStr(s)
  {
    UrlEncodeEmpty(s);
    UrlEncodeZero(s);
  }

  /** An encoded value cannot close the single-quoted JavaScript string it is
      placed in, nor escape out of it. */
  lemma UrlEncodeHasNoQuote(s: string)
    ensures '\'' !in UrlEncode(s) && '\\' !in UrlEncode(s)
  {
  }
}
