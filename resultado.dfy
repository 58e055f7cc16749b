/**
  `ResultadoOperacionCola<TValor>`: the outcome every operation returns. Its constructor is private, so the
  two factories below are the only way to build one, and the datatype has exactly their two shapes.
*/
module Resultados {
  import opened Tipos
  import opened Texto

  const MensajeExitoPredeterminado := "Operación completada."
  const MensajeFalloPredeterminado := "Ocurrió un error al procesar la operación."

  datatype ResultadoOperacionCola<+T> =
    | Exito(valor: T, mensaje: string)
    | Fallo(errores: seq<string>, mensaje: string)
  {
    /** `EsExitoso`. */
    predicate EsExitoso() {
      Exito?
    }

    /** `Errores`: always empty on a success. */
    function Errores(): seq<string> {
      if Exito? then [] else errores
    }

    /** `Valor`: `default(TValor)`, here `None`, on a failure. */
    function Valor(): Option<T> {
      if Exito? then Some(valor) else None
    }

    function Mensaje(): string {
      mensaje
    }
  }

  /** `CrearExito(valor, mensaje)`. */
  function CrearExito<T>(valor: T, mensaje: string := MensajeExitoPredeterminado): (r: ResultadoOperacionCola<T>)
    ensures r.EsExitoso() && r.Errores() == [] && r.Valor() == Some(valor) && r.Mensaje() == mensaje
  {
    Exito(valor, mensaje)
  }

  /** The error list of `CrearFallo`: the null and blank entries dropped, the others trimmed, order kept. */
  function FiltrarErrores(errores: seq<Option<string>>): (r: seq<string>)
    ensures |r| <= |errores|
    ensures forall i | 0 <= i < |r| :: !EsBlanco(r[i]) && Recortar(r[i]) == r[i]
  {
    if errores == [] then
      []
    else
      var resto := FiltrarErrores(errores[1..]);
      if EsNuloOBlanco(errores[0]) then
        resto
      else
        RecortarIdempotente(errores[0].value);
        [Recortar(errores[0].value)] + resto
  }

  /** `CrearFallo(errores, mensaje)`: a null list gives no errors at all. */
  function CrearFallo<T>(errores: Option<seq<Option<string>>>, mensaje: string := MensajeFalloPredeterminado)
    : (r: ResultadoOperacionCola<T>)
    ensures !r.EsExitoso() && r.Valor() == None && r.Mensaje() == mensaje
    ensures errores.None? ==> r.Errores() == []
    ensures errores.Some? ==> r.Errores() == FiltrarErrores(errores.value)
    ensures forall e | e in r.Errores() :: !EsBlanco(e) && Recortar(e) == e
  {
    Fallo(if errores.None? then [] else FiltrarErrores(errores.value), mensaje)
  }

  /** An array of non-null strings, as the callers of `CrearFallo` pass it. */
  function ComoNulables(xs: seq<string>): (r: seq<Option<string>>)
    ensures |r| == |xs| && forall i | 0 <= i < |xs| :: r[i] == Some(xs[i])
  {
    if xs == [] then [] else [Some(xs[0])] + ComoNulables(xs[1..])
  }

  /** Filtering distributes over concatenation, so it keeps the original order. */
  lemma {:induction false} FiltrarConcatenacion(a: seq<Option<string>>, b: seq<Option<string>>)
    ensures FiltrarErrores(a + b) == FiltrarErrores(a) + FiltrarErrores(b)
  {
    if a == [] {
      assert a + b == b;
    } else {
      assert (a + b)[0] == a[0];
      assert (a + b)[1..] == a[1..] + b;
      FiltrarConcatenacion(a[1..], b);
    }
  }

  /** Entry `x` is kept by `CrearFallo` and becomes `e`. */
  predicate Produce(x: Option<string>, e: string) {
    x.Some? && !EsBlanco(x.value) && Recortar(x.value) == e
  }

  /** A string survives filtering exactly when some non-null, non-blank entry trims to it. */
  lemma {:induction false} FiltrarPertenencia(errores: seq<Option<string>>, e: string)
    ensures e in FiltrarErrores(errores) <==> exists i | 0 <= i < |errores| :: Produce(errores[i], e)
  {
    if errores != [] {
      var resto := errores[1..];
      FiltrarPertenencia(resto, e);
      if e in FiltrarErrores(errores) {
        if !Produce(errores[0], e) {
          var i :| 0 <= i < |resto| && Produce(resto[i], e);
          assert errores[i + 1] == resto[i];
        }
      }
      if exists i | 0 <= i < |errores| :: Produce(errores[i], e) {
        var i :| 0 <= i < |errores| && Produce(errores[i], e);
        if i > 0 {
          assert resto[i - 1] == errores[i];
        }
      }
    }
  }

  /** A list that is already filtered passes through unchanged. */
  lemma {:induction false} FiltrarFiltrados(xs: seq<string>)
    requires forall i | 0 <= i < |xs| :: !EsBlanco(xs[i]) && Recortar(xs[i]) == xs[i]
    ensures FiltrarErrores(ComoNulables(xs)) == xs
  {
    if xs != [] {
      assert ComoNulables(xs)[1..] == ComoNulables(xs[1..]);
      FiltrarFiltrados(xs[1..]);
    }
  }

  /** Feeding a failure's errors back into `CrearFallo` gives the same errors. */
  lemma CrearFalloIdempotente<T>(errores: Option<seq<Option<string>>>, mensaje: string)
    ensures var r: ResultadoOperacionCola<T> := CrearFallo(errores, mensaje);
            CrearFallo<T>(Some(ComoNulables(r.Errores())), mensaje) == r
  {
    var r: ResultadoOperacionCola<T> := CrearFallo(errores, mensaje);
    FiltrarFiltrados(r.Errores());
  }

  /** A failure built from messages that are already trimmed and not blank reports exactly those messages. */
  lemma CrearFalloLimpios<T>(errores: seq<string>, mensaje: string)
    requires forall i | 0 <= i < |errores| :: !EsBlanco(errores[i]) && Recortar(errores[i]) == errores[i]
    ensures CrearFallo<T>(Some(ComoNulables(errores)), mensaje) == Fallo(errores, mensaje)
  {
    FiltrarFiltrados(errores);
  }
}
