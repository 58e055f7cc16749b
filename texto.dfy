/** The two .NET string primitives the core leans on: `string.IsNullOrWhiteSpace` and `string.Trim()`. */
module Texto {
  import opened Tipos

  /** `char.IsWhiteSpace`: the Unicode space, line and paragraph separators, U+0009..U+000D and U+0085. */
  predicate EsEspacio(c: char) {
    || c == ' '
    || '\t' <= c <= '\r'
    || c == '\U{0085}'
    || c == '\U{00A0}'
    || c == '\U{1680}'
    || '\U{2000}' <= c <= '\U{200A}'
    || c == '\U{2028}'
    || c == '\U{2029}'
    || c == '\U{202F}'
    || c == '\U{205F}'
    || c == '\U{3000}'
  }

  /**
    Among ASCII characters only the space and the five controls from tab to carriage return are white
    space; the zero-width space and the byte-order mark are not.
  */
  lemma EspacioAsciiYFormato(c: char)
    ensures c < '\U{0080}' ==> (EsEspacio(c) <==> c == ' ' || c == '\t' || c == '\n' || c == '\U{000B}' || c == '\U{000C}' || c == '\r')
    ensures c == '\U{200B}' || c == '\U{FEFF}' ==> !EsEspacio(c)
  {
  }

  /** Every character of `s` is white space (the empty string included). */
  predicate EsBlanco(s: string) {
    forall i | 0 <= i < |s| :: EsEspacio(s[i])
  }

  /** `string.IsNullOrWhiteSpace`: null, or nothing left once trimmed. */
  predicate EsNuloOBlanco(s: Option<string>): (b: bool)
    ensures b <==> s.None? || Recortar(s.value) == []
  {
    s.None? || EsBlanco(s.value)
  }

  /** The number of white-space characters `s` starts with. */
  function Sangria(s: string): (n: nat)
    ensures n <= |s|
    ensures forall k | 0 <= k < n :: EsEspacio(s[k])
    ensures n == |s| || !EsEspacio(s[n])
  {
    if s != [] && EsEspacio(s[0]) then
      var m := Sangria(s[1..]);
      assert forall k | 1 <= k < m + 1 :: s[k] == s[1..][k - 1];
      m + 1
    else
      0
  }

  /** The number of white-space characters `s` ends with. */
  function Relleno(s: string): (n: nat)
    ensures n <= |s|
    ensures forall k | |s| - n <= k < |s| :: EsEspacio(s[k])
    ensures n == |s| || !EsEspacio(s[|s| - n - 1])
  {
    if s != [] && EsEspacio(s[|s| - 1]) then
      var m := Relleno(s[..|s| - 1]);
      assert forall k | |s| - 1 - m <= k < |s| - 1 :: s[k] == s[..|s| - 1][k];
      m + 1
    else
      0
  }

  /** Two blank strings put together are blank. */
  lemma BlancoConcatenado(a: string, b: string)
    requires EsBlanco(a) && EsBlanco(b)
    ensures EsBlanco(a + b)
  {
    forall k | 0 <= k < |a + b| ensures EsEspacio((a + b)[k]) {
      if k < |a| {
        assert (a + b)[k] == a[k];
      } else {
        assert (a + b)[k] == b[k - |a|];
      }
    }
  }

  /** `string.Trim()`: `s` without its leading and trailing white space. */
  function Recortar(s: string): (r: string)
    ensures r == [] <==> EsBlanco(s)
    ensures r == [] || (!EsEspacio(r[0]) && !EsEspacio(r[|r| - 1]))
  {
    var i := Sangria(s);
    var t := s[i..];
    var j := |t| - Relleno(t);
    assert j == 0 ==> EsBlanco(s) by {
      if j == 0 {
        assert s == s[..i] + t;
        BlancoConcatenado(s[..i], t);
      }
    }
    assert s[i..i + j] == t[..j];
    t[..j]
  }

  /** The trimmed string is the slice of `s` between two blank margins. */
  lemma RecortarEsTramo(s: string)
    ensures exists i | 0 <= i <= |s| - |Recortar(s)| ::
      Recortar(s) == s[i..i + |Recortar(s)|] && EsBlanco(s[..i]) && EsBlanco(s[i + |Recortar(s)|..])
  {
    var i := Sangria(s);
    var t := s[i..];
    var j := |t| - Relleno(t);
    assert Recortar(s) == t[..j] == s[i..i + j];
    forall k | 0 <= k < i ensures EsEspacio(s[..i][k]) {
      assert s[..i][k] == s[k];
    }
    var cola := s[i + j..];
    forall k | 0 <= k < |cola| ensures EsEspacio(cola[k]) {
      assert cola[k] == t[j + k];
    }
    assert |Recortar(s)| == j && 0 <= i <= |s| - j;
    assert EsBlanco(s[..i]) && EsBlanco(s[i + j..]);
  }

  /** Trimming twice trims nothing more. */
  lemma RecortarIdempotente(s: string)
    ensures Recortar(Recortar(s)) == Recortar(s)
  {
    var r := Recortar(s);
    assert Sangria(r) == 0;
    assert Relleno(r) == 0;
  }

  /** A string that starts and ends with a non-space is not blank and trims to itself. */
  lemma RecortarSinMargenes(s: string)
    requires s != [] && !EsEspacio(s[0]) && !EsEspacio(s[|s| - 1])
    ensures !EsBlanco(s) && Recortar(s) == s
  {
    assert Sangria(s) == 0;
    assert Relleno(s) == 0;
  }
}
