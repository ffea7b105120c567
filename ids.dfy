/**
 * Random identifiers. The random source is an input: the sequence of values
 * the generator would draw, in order.
 */
module Ids {
  type Byte = x: int | 0 <= x < 256

  /**
   * `while (true) { id = draw(); if (!(await findFirst({ where: { id } }))) break; }`:
   * the first drawn candidate that no row uses yet.
   */
  method FirstUnused(candidates: seq<string>, taken: set<string>) returns (id: string, tries: nat)
    requires exists k :: 0 <= k < |candidates| && candidates[k] !in taken
    ensures tries < |candidates| && id == candidates[tries]
    ensures id !in taken
    ensures forall j :: 0 <= j < tries ==> candidates[j] in taken
  {
    tries := 0;
    while candidates[tries] in taken
      invariant tries < |candidates|
      invariant exists k :: tries <= k < |candidates| && candidates[k] !in taken
      invariant forall j :: 0 <= j < tries ==> candidates[j] in taken
      decreases |candidates| - tries
    {
      tries := tries + 1;
    }
    id := candidates[tries];
  }

  /** The lower-case digit for a nibble. */
  function HexDigit(n: nat): (c: char)
    requires n < 16
    ensures IsHexDigit(c)
  {
    if n < 10 then ('0' as int + n) as char else ('a' as int + n - 10) as char
  }

  predicate IsHexDigit(c: char) {
    '0' <= c <= '9' || 'a' <= c <= 'f'
  }

  function DigitValue(c: char): (n: nat)
    requires IsHexDigit(c)
    ensures n < 16 && HexDigit(n) == c
  {
    if '0' <= c <= '9' then (c as int - '0' as int) as nat
    else (c as int - 'a' as int) as nat + 10
  }

  /** `Buffer.toString('hex')`: two lower-case digits per byte, high nibble first. */
  function Hex(bytes: seq<Byte>): (s: string)
    ensures |s| == 2 * |bytes|
    ensures forall i :: 0 <= i < |s| ==> IsHexDigit(s[i])
    decreases |bytes|
  {
    if bytes == [] then ""
    else [HexDigit(bytes[0] / 16), HexDigit(bytes[0] % 16)] + Hex(bytes[1..])
  }

  /** Reads an even-length lower-case hex string back into bytes. */
  function Unhex(s: string): (bytes: seq<Byte>)
    requires |s| % 2 == 0
    requires forall i :: 0 <= i < |s| ==> IsHexDigit(s[i])
    ensures 2 * |bytes| == |s|
    decreases |s|
  {
    if s == [] then []
    else [DigitValue(s[0]) * 16 + DigitValue(s[1])] + Unhex(s[2..])
  }

  /** Hex encoding loses nothing: the bytes come back from the text. */
  lemma {:induction false} UnhexHex(bytes: seq<Byte>)
    ensures Unhex(Hex(bytes)) == bytes
    decreases |bytes|
  {
    if bytes != [] {
      var s := Hex(bytes);
      var b := bytes[0];
      assert s[0] == HexDigit(b / 16) && s[1] == HexDigit(b % 16);
      assert s[2..] == Hex(bytes[1..]);
      UnhexHex(bytes[1..]);
      assert DigitValue(HexDigit(b / 16)) == b / 16;
      assert DigitValue(HexDigit(b % 16)) == b % 16;
    }
  }

  /** Distinct draws give distinct codes. */
  lemma HexInjective(a: seq<Byte>, b: seq<Byte>)
    requires Hex(a) == Hex(b)
    ensures a == b
  {
    UnhexHex(a);
    UnhexHex(b);
  }
}
