/**
 * Character encodings, used to explain two string constants of the event
 * renderers: their text is what one gets by encoding the intended glyph in
 * UTF-8 and reading those bytes back as windows-1252 ("mojibake").
 */
module Encoding {

  /** The UTF-8 bytes of one Unicode scalar value. */
  function Utf8Char(c: char): (r: seq<int>)
    ensures 1 <= |r| <= 4
    ensures forall i :: 0 <= i < |r| ==> 0 <= r[i] < 256
  {
    var n := c as int;
    if n < 0x80 then [n]
    else if n < 0x800 then [0xC0 + n / 0x40, 0x80 + n % 0x40]
    else if n < 0x1_0000 then [0xE0 + n / 0x1000, 0x80 + n / 0x40 % 0x40, 0x80 + n % 0x40]
    else [0xF0 + n / 0x4_0000, 0x80 + n / 0x1000 % 0x40, 0x80 + n / 0x40 % 0x40, 0x80 + n % 0x40]
  }

  /** The UTF-8 bytes of a string. */
  function Utf8(s: string): (r: seq<int>)
    ensures |s| <= |r| <= 4 * |s|
  {
    if s == [] then [] else Utf8Char(s[0]) + Utf8(s[1..])
  }

  /**
   * The windows-1252 reading of one byte (as the WHATWG Encoding Standard
   * defines it): bytes 0x80 to 0x9F follow the code page's table, every
   * other byte stands for the code point of the same value.
   */
  function Windows1252Char(b: int): (c: char)
    requires 0 <= b < 256
  {
    var table := map[
      0x80 := '€', 0x82 := '‚', 0x83 := 'ƒ', 0x84 := '„',
      0x85 := '…', 0x86 := '†', 0x87 := '‡', 0x88 := 'ˆ',
      0x89 := '‰', 0x8A := 'Š', 0x8B := '‹', 0x8C := 'Œ',
      0x8E := 'Ž', 0x91 := '‘', 0x92 := '’', 0x93 := '“',
      0x94 := '”', 0x95 := '•', 0x96 := '–', 0x97 := '—',
      0x98 := '˜', 0x99 := '™', 0x9A := 'š', 0x9B := '›',
      0x9C := 'œ', 0x9E := 'ž', 0x9F := 'Ÿ'];
    if b in table then table[b] else b as char
  }

  /** A byte sequence read as windows-1252 text: one character per byte. */
  function Windows1252(bytes: seq<int>): (s: string)
    requires forall i :: 0 <= i < |bytes| ==> 0 <= bytes[i] < 256
    ensures |s| == |bytes|
  {
    if bytes == [] then [] else [Windows1252Char(bytes[0])] + Windows1252(bytes[1..])
  }

  /** Text whose UTF-8 bytes were read back as windows-1252. */
  function Mojibake(s: string): (r: string)
    ensures |s| <= |r| <= 4 * |s|
  {
    Utf8Bytes(s);
    Windows1252(Utf8(s))
  }

  lemma {:induction false} Utf8Bytes(s: string)
    ensures forall i :: 0 <= i < |Utf8(s)| ==> 0 <= Utf8(s)[i] < 256
  {
    if s != [] {
      Utf8Bytes(s[1..]);
      assert Utf8(s) == Utf8Char(s[0]) + Utf8(s[1..]);
    }
  }
}
