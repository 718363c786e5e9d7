/** Kotlin's `Char.isWhitespace` and `String.trim()`, which the name check of
    `Persona` relies on (`nombre.trim().isNotEmpty()`). */
module Texto {

  /** Kotlin/JVM `Char.isWhitespace`: `Character.isWhitespace(c) || Character.isSpaceChar(c)`,
      i.e. the control characters TAB..CR and FS..US plus every space, line and
      paragraph separator of Unicode. */
  predicate EsEspacio(c: char): (b: bool)
    ensures c as int < 128 ==> (b <==> c == ' ' || '\t' <= c <= '\r' || '\U{1C}' <= c <= '\U{1F}')
  {
    ('\t' <= c <= '\r') || ('\U{1C}' <= c <= '\U{1F}') || c == ' ' || c == '\U{A0}'
    || c == '\U{1680}' || ('\U{2000}' <= c <= '\U{200A}') || c == '\U{2028}' || c == '\U{2029}'
    || c == '\U{202F}' || c == '\U{205F}' || c == '\U{3000}'
  }

  /** Drops the leading whitespace: the result is a suffix of `s` that is empty
      or starts with a non-whitespace character. */
  function RecortarInicio(s: string): (r: string)
    ensures |r| <= |s| && r == s[|s| - |r|..]
    ensures r != [] ==> !EsEspacio(r[0])
    ensures forall i :: 0 <= i < |s| - |r| ==> EsEspacio(s[i])
    decreases |s|
  {
    if |s| > 0 && EsEspacio(s[0]) then RecortarInicio(s[1..]) else s
  }

  /** Drops the trailing whitespace: the result is a prefix of `s` that is empty
      or ends with a non-whitespace character. */
  function RecortarFin(s: string): (r: string)
    ensures |r| <= |s| && r == s[..|r|]
    ensures r != [] ==> !EsEspacio(r[|r| - 1])
    ensures forall i :: |r| <= i < |s| ==> EsEspacio(s[i])
    decreases |s|
  {
    if |s| > 0 && EsEspacio(s[|s| - 1]) then RecortarFin(s[..|s| - 1]) else s
  }

  /** Kotlin `String.trim()`: removes whitespace at both ends, so what is
      left is empty or starts and ends with a non-whitespace character. */
  function Recortar(s: string): (r: string)
    ensures |r| <= |s|
    ensures r == [] || (!EsEspacio(r[0]) && !EsEspacio(r[|r| - 1]))
  {
    RecortarFin(RecortarInicio(s))
  }

  /** The trimmed string is empty exactly when every character of `s` is
      whitespace: a non-whitespace character that heads the result of
      RecortarInicio is kept by RecortarFin. */
  lemma {:induction false} RecortarVacioSiiTodoEspacio(s: string)
    ensures Recortar(s) == [] <==> forall i :: 0 <= i < |s| ==> EsEspacio(s[i])
  {
  }

  /** `s.trim().isEmpty()`: every character of `s` is whitespace. */
  predicate EsBlanco(s: string): (b: bool)
    ensures b <==> forall i :: 0 <= i < |s| ==> EsEspacio(s[i])
  {
    RecortarVacioSiiTodoEspacio(s);
    Recortar(s) == []
  }

  /** Trimming keeps the non-whitespace core and nothing more: the result is a
      contiguous piece of `s`, everything cut off on either side is
      whitespace, and the piece neither starts nor ends with whitespace. */
  lemma {:induction false} RecortarEsSubcadena(s: string)
    ensures exists i, j :: (0 <= i <= j <= |s| && Recortar(s) == s[i..j]
                             && (forall k :: 0 <= k < i ==> EsEspacio(s[k]))
                             && (forall k :: j <= k < |s| ==> EsEspacio(s[k])))
    ensures var r := Recortar(s); r == [] || (!EsEspacio(r[0]) && !EsEspacio(r[|r| - 1]))
  {
    var t := RecortarInicio(s);
    var u := RecortarFin(t);
    var i := |s| - |t|;
    var j := i + |u|;
    assert u == t[..|u|];
    assert t == s[i..];
    assert u == s[i..j];
    forall k | j <= k < |s| ensures EsEspacio(s[k]) {
      assert s[k] == t[k - i];
    }
  }
}
