/** `SolicitudEstadoCola`: what a caller asks `SuscribirAsync` to report about a queue, and its rule list. */
module SolicitudEstado {
  import opened Tipos
  import opened Texto
  import SolicitudOperacion

  datatype SolicitudEstadoCola = SolicitudEstadoCola(
    nombreCola: Option<string>,
    incluirContenido: bool,
    maximoMensajes: int32)

  /** `new SolicitudEstadoCola { ... }`: a property left out keeps its initialiser. */
  function NuevaSolicitud(
    nombreCola: Option<string> := None,
    incluirContenido: bool := true,
    maximoMensajes: int32 := 50)
    : (s: SolicitudEstadoCola)
    ensures s.nombreCola == nombreCola && s.incluirContenido == incluirContenido && s.maximoMensajes == maximoMensajes
    ensures Validar(s) == [] <==> !SolicitudOperacion.NombreExcedido(nombreCola) && 1 <= maximoMensajes <= 500
  {
    SolicitudEstadoCola(nombreCola, incluirContenido, maximoMensajes)
  }

  /** The three rules `Validar` checks, in the order it checks them; the last two are the two branches of one `if`/`else if`. */
  datatype Regla = Nombre | MaximoNoPositivo | MaximoExcedido

  function Orden(r: Regla): nat {
    match r
    case Nombre => 0
    case MaximoNoPositivo => 1
    case MaximoExcedido => 2
  }

  /**
    The message `Validar` adds for a broken rule. A message some proof reads character by character is
    written as two literals: the verifier does not see inside a longer one.
  */
  function Mensaje(r: Regla): string {
    match r
    case Nombre => SolicitudOperacion.Mensaje(SolicitudOperacion.Nombre)
    case MaximoNoPositivo => "El máximo de mensajes " + "solicitados debe ser mayor a cero."
    case MaximoExcedido => "El máximo de mensajes " + "permitidos por consulta es 500."
  }

  /** The three messages differ, so a message names its rule. */
  lemma MensajeInyectivo(a: Regla, b: Regla)
    ensures Mensaje(a) == Mensaje(b) ==> a == b
  {
    assert |Mensaje(Nombre)| == 53 && |Mensaje(MaximoNoPositivo)| == 56 && |Mensaje(MaximoExcedido)| == 53;
    assert Mensaje(Nombre)[3] == 'n' && Mensaje(MaximoExcedido)[3] == 'm';
  }

  lemma MensajeLimpio(r: Regla)
    ensures !EsBlanco(Mensaje(r)) && Recortar(Mensaje(r)) == Mensaje(r)
  {
    RecortarSinMargenes(Mensaje(r));
  }

  /** Whether request `s` breaks rule `r`. */
  predicate Incumple(s: SolicitudEstadoCola, r: Regla) {
    match r
    case Nombre => SolicitudOperacion.NombreExcedido(s.nombreCola)
    case MaximoNoPositivo => s.maximoMensajes <= 0
    case MaximoExcedido => s.maximoMensajes > 500
  }

  /** Each rule comes later in the checking order than the one before it, so none appears twice. */
  predicate EnOrden(rs: seq<Regla>) {
    forall i, j | 0 <= i < j < |rs| :: Orden(rs[i]) < Orden(rs[j])
  }

  /**
    The broken rules of `s`, each once, in checking order: the name first, then at most one of the two
    bounds, since the second is only tested when the first holds.
  */
  function ReglasIncumplidas(s: SolicitudEstadoCola): (rs: seq<Regla>)
    ensures EnOrden(rs) && |rs| <= 2
    ensures forall r: Regla :: r in rs <==> Incumple(s, r)
  {
    var nombre := if Incumple(s, Nombre) then [Nombre] else [];
    var maximo :=
      if s.maximoMensajes <= 0 then [MaximoNoPositivo]
      else if s.maximoMensajes > 500 then [MaximoExcedido]
      else [];
    nombre + maximo
  }

  /**
    `Validar()`: the name message first when the name is too long, then at most one of the two bound
    messages, each broken rule's message once; no message at all exactly when the name fits and
    1 <= `MaximoMensajes` <= 500.
  */
  function Validar(s: SolicitudEstadoCola): (errores: seq<string>)
    ensures errores == Mapear(ReglasIncumplidas(s), Mensaje) && |errores| <= 2
    ensures errores == [] <==> !SolicitudOperacion.NombreExcedido(s.nombreCola) && 1 <= s.maximoMensajes <= 500
    ensures forall r: Regla :: Mensaje(r) in errores <==> Incumple(s, r)
    ensures Incumple(s, Nombre) ==> errores[0] == Mensaje(Nombre)
  {
    var rs := ReglasIncumplidas(s);
    assert rs != [] ==> Incumple(s, rs[0]);
    forall r: Regla | Mensaje(r) in Mapear(rs, Mensaje) ensures r in rs {
      var i :| 0 <= i < |rs| && Mapear(rs, Mensaje)[i] == Mensaje(r);
      MensajeInyectivo(rs[i], r);
    }
    Mapear(rs, Mensaje)
  }

  /** A message appears at most once: the list holds no two equal entries. */
  lemma ValidarSinRepetidos(s: SolicitudEstadoCola)
    ensures forall i, j | 0 <= i < j < |Validar(s)| :: Validar(s)[i] != Validar(s)[j]
  {
    var rs := ReglasIncumplidas(s);
    forall i, j | 0 <= i < j < |rs| ensures Mensaje(rs[i]) != Mensaje(rs[j]) {
      MensajeInyectivo(rs[i], rs[j]);
    }
  }

  /** The two bound messages never appear together. */
  lemma ValidarMaximoExclusivo(s: SolicitudEstadoCola)
    ensures !(Mensaje(MaximoNoPositivo) in Validar(s) && Mensaje(MaximoExcedido) in Validar(s))
  {
  }

  /** A request that sets nothing is valid. */
  lemma ValidarPredeterminada()
    ensures Validar(NuevaSolicitud()) == []
  {
  }
}
