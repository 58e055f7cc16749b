/**
  `Encoding.UTF8.GetBytes` and `Encoding.UTF8.GetString`, as the engine uses them to turn a message's text
  into its body and a fetched body back into text. Decoding never fails: each maximal ill-formed subpart
  becomes one U+FFFD, following the Unicode Standard's recommended practice (section 3.9, Table 3-7).
*/
module Utf8 {
  import opened Tipos

  /** The replacement character GetString produces for an ill-formed subpart. */
  const Reemplazo: char := '\U{FFFD}'

  /** A Unicode scalar value: a code point that is not a surrogate. */
  predicate EsEscalar(n: int) {
    0 <= n < 0xD800 || 0xE000 <= n < 0x11_0000
  }

  /** The one to four bytes that encode `c`. */
  function CodificarCaracter(c: char): (r: seq<byte>)
    ensures 1 <= |r| <= 4
  {
    var n := c as int;
    if n < 0x80 then
      [n as byte]
    else if n < 0x800 then
      [(0xC0 + n / 0x40) as byte, (0x80 + n % 0x40) as byte]
    else if n < 0x1_0000 then
      [(0xE0 + n / 0x1000) as byte, (0x80 + n / 0x40 % 0x40) as byte, (0x80 + n % 0x40) as byte]
    else
      [(0xF0 + n / 0x4_0000) as byte, (0x80 + n / 0x1000 % 0x40) as byte,
       (0x80 + n / 0x40 % 0x40) as byte, (0x80 + n % 0x40) as byte]
  }

  /** `Encoding.UTF8.GetBytes(s)`. */
  function Codificar(s: string): (b: seq<byte>)
    ensures |s| <= |b| <= 4 * |s|
  {
    if s == [] then [] else CodificarCaracter(s[0]) + Codificar(s[1..])
  }

  /** The length of the well-formed sequence that lead byte `b` starts, or 0 if `b` starts none. */
  function Longitud(b: byte): nat {
    if b < 0x80 then 1
    else if 0xC2 <= b <= 0xDF then 2
    else if 0xE0 <= b <= 0xEF then 3
    else if 0xF0 <= b <= 0xF4 then 4
    else 0
  }

  /** The bounds of the byte allowed right after lead byte `b`. */
  function MinSegundo(b: byte): byte {
    if b == 0xE0 then 0xA0 else if b == 0xF0 then 0x90 else 0x80
  }

  function MaxSegundo(b: byte): byte {
    if b == 0xED then 0x9F else if b == 0xF4 then 0x8F else 0xBF
  }

  predicate EsContinuacion(b: byte) {
    0x80 <= b <= 0xBF
  }

  /** How many bytes after the lead `b[0]` continue its sequence, stopping at the first that does not. */
  function Continuacion(b: seq<byte>): (k: nat)
    requires b != [] && Longitud(b[0]) >= 2
    ensures k < Longitud(b[0]) && k < |b|
  {
    var l := Longitud(b[0]);
    if |b| < 2 || !(MinSegundo(b[0]) <= b[1] <= MaxSegundo(b[0])) then 0
    else if l == 2 || |b| < 3 || !EsContinuacion(b[2]) then 1
    else if l == 3 || |b| < 4 || !EsContinuacion(b[3]) then 2
    else 3
  }

  /** The code point a complete multi-byte sequence of length `l` at the head of `b` stands for. */
  function Valor(b: seq<byte>, l: nat): int
    requires 2 <= l <= 4 && l <= |b|
  {
    if l == 2 then
      (b[0] as int - 0xC0) * 0x40 + (b[1] as int - 0x80)
    else if l == 3 then
      (b[0] as int - 0xE0) * 0x1000 + (b[1] as int - 0x80) * 0x40 + (b[2] as int - 0x80)
    else
      (b[0] as int - 0xF0) * 0x4_0000 + (b[1] as int - 0x80) * 0x1000
        + (b[2] as int - 0x80) * 0x40 + (b[3] as int - 0x80)
  }

  /** A complete well-formed sequence always stands for a scalar value. */
  lemma ValorEsEscalar(b: seq<byte>)
    requires b != [] && Longitud(b[0]) >= 2 && Continuacion(b) == Longitud(b[0]) - 1
    ensures EsEscalar(Valor(b, Longitud(b[0])))
  {
  }

  /** The first character of `b` and the number of bytes it takes. */
  function DecodificarPrimero(b: seq<byte>): (r: (char, nat))
    requires b != []
    ensures 1 <= r.1 <= |b|
  {
    var l := Longitud(b[0]);
    if l == 1 then
      (b[0] as int as char, 1)
    else if l == 0 then
      (Reemplazo, 1)
    else
      var k := Continuacion(b);
      if k == l - 1 then
        ValorEsEscalar(b);
        (Valor(b, l) as char, l)
      else
        (Reemplazo, k + 1)
  }

  /** `Encoding.UTF8.GetString(b)`. */
  function Decodificar(b: seq<byte>): (s: string)
    ensures |s| <= |b|
    decreases |b|
  {
    if b == [] then
      []
    else
      var r := DecodificarPrimero(b);
      [r.0] + Decodificar(b[r.1..])
  }

  /** A two-byte character decodes back to itself. */
  lemma DecodificarDosBytes(c: char, resto: seq<byte>)
    requires 0x80 <= c as int < 0x800
    ensures DecodificarPrimero(CodificarCaracter(c) + resto) == (c, 2)
  {
    var n := c as int;
    var b := CodificarCaracter(c) + resto;
    assert n == n / 0x40 * 0x40 + n % 0x40;
    assert Longitud(b[0]) == 2;
  }

  /** A three-byte character decodes back to itself. */
  lemma DecodificarTresBytes(c: char, resto: seq<byte>)
    requires 0x800 <= c as int < 0x1_0000
    ensures DecodificarPrimero(CodificarCaracter(c) + resto) == (c, 3)
  {
    var n := c as int;
    var b := CodificarCaracter(c) + resto;
    assert n / 0x40 == n / 0x1000 * 0x40 + n / 0x40 % 0x40;
    assert n == n / 0x40 * 0x40 + n % 0x40;
    assert Longitud(b[0]) == 3;
  }

  /** A four-byte character decodes back to itself. */
  lemma DecodificarCuatroBytes(c: char, resto: seq<byte>)
    requires 0x1_0000 <= c as int
    ensures DecodificarPrimero(CodificarCaracter(c) + resto) == (c, 4)
  {
    var n := c as int;
    var b := CodificarCaracter(c) + resto;
    assert b[0] as int == 0xF0 + n / 0x4_0000 && b[1] as int == 0x80 + n / 0x1000 % 0x40;
    assert b[2] as int == 0x80 + n / 0x40 % 0x40 && b[3] as int == 0x80 + n % 0x40;
    assert Longitud(b[0]) == 4 && Continuacion(b) == 3;
    assert n / 0x1000 == n / 0x4_0000 * 0x40 + n / 0x1000 % 0x40;
    assert n / 0x40 == n / 0x1000 * 0x40 + n / 0x40 % 0x40;
    assert n == n / 0x40 * 0x40 + n % 0x40;
    assert Valor(b, 4) == n;
  }

  /** The bytes of one character decode back to that character, whatever follows them. */
  lemma DecodificarCaracter(c: char, resto: seq<byte>)
    ensures DecodificarPrimero(CodificarCaracter(c) + resto) == (c, |CodificarCaracter(c)|)
  {
    var n := c as int;
    if n < 0x80 {
    } else if n < 0x800 {
      DecodificarDosBytes(c, resto);
    } else if n < 0x1_0000 {
      DecodificarTresBytes(c, resto);
    } else {
      DecodificarCuatroBytes(c, resto);
    }
  }

  /** GetString undoes GetBytes. */
  lemma {:induction false} DecodificarCodificar(s: string)
    ensures Decodificar(Codificar(s)) == s
  {
    if s != [] {
      var e := CodificarCaracter(s[0]);
      var resto := Codificar(s[1..]);
      DecodificarCaracter(s[0], resto);
      assert (e + resto)[|e|..] == resto;
      DecodificarCodificar(s[1..]);
    }
  }
}
