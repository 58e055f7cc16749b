/**
  `SolicitudOperacionCola`: what a caller asks `EnviarAsync` or `PublicarAsync` to put on a queue, and the
  rule list that `Validar(TipoOperacionCola)` checks it against.
*/
module SolicitudOperacion {
  import opened Tipos
  import opened Texto

  /** The operation a request is validated for. */
  datatype TipoOperacionCola = Enviar | Publicar | Suscribir

  /** `JsonValueKind`: `Undefined` is the kind of a `default(JsonElement)`, a property never set. */
  datatype TipoValorJson = Undefined | Object | Array | String | Number | True | False | Null

  /** A `JsonElement`: its kind and the raw JSON text `GetRawText()` returns. */
  datatype ElementoJson = ElementoJson(tipo: TipoValorJson, textoCrudo: string)

  /** `default(JsonElement)`. */
  const JsonNoDefinido := ElementoJson(Undefined, "")

  datatype SolicitudOperacionCola = SolicitudOperacionCola(
    nombreCola: Option<string>,
    contenido: ElementoJson,
    permitirPublicarSinSuscriptores: bool,
    metadatos: map<string, Option<string>>)

  /**
    The object initialiser `new SolicitudOperacionCola { ... }`: a property left out keeps its default, and a
    null `Metadatos` is stored as an empty dictionary.
  */
  function NuevaSolicitud(
    nombreCola: Option<string> := None,
    contenido: ElementoJson := JsonNoDefinido,
    permitirPublicarSinSuscriptores: bool := false,
    metadatos: Option<map<string, Option<string>>> := None)
    : (s: SolicitudOperacionCola)
    ensures s.nombreCola == nombreCola && s.contenido == contenido
    ensures s.permitirPublicarSinSuscriptores == permitirPublicarSinSuscriptores
    ensures metadatos.Some? ==> s.metadatos == metadatos.value
    ensures metadatos.None? ==> s.metadatos == map[] && forall tipo :: !Incumple(s, tipo, Metadatos)
  {
    SolicitudOperacionCola(nombreCola, contenido, permitirPublicarSinSuscriptores,
      if metadatos.None? then map[] else metadatos.value)
  }

  /** `string.Length`: UTF-16 code units, two for a character outside the Basic Multilingual Plane. */
  function LongitudUtf16(s: string): (n: nat)
    ensures |s| <= n <= 2 * |s|
  {
    if s == [] then 0 else (if s[0] as int < 0x1_0000 then 1 else 2) + LongitudUtf16(s[1..])
  }

  /** The three rules `Validar` checks, in the order it checks them. */
  datatype Regla = Contenido | Nombre | Metadatos

  function Orden(r: Regla): nat {
    match r
    case Contenido => 0
    case Nombre => 1
    case Metadatos => 2
  }

  /**
    The message `Validar` adds for a broken rule. A message some proof reads character by character is
    written as two literals: the verifier does not see inside a longer one.
  */
  function Mensaje(r: Regla): string {
    match r
    case Contenido => "El contenido del mensaje es obligatorio."
    case Nombre => "El nombre de la cola no puede " + "exceder 255 caracteres."
    case Metadatos => "Los metadatos deben contener " + "claves válidas."
  }

  /** The three messages differ (in length), so a message names its rule. */
  lemma MensajeInyectivo(a: Regla, b: Regla)
    ensures Mensaje(a) == Mensaje(b) ==> a == b
  {
    assert |Mensaje(Contenido)| == 40 && |Mensaje(Nombre)| == 53 && |Mensaje(Metadatos)| == 44;
  }

  lemma MensajeLimpio(r: Regla)
    ensures !EsBlanco(Mensaje(r)) && Recortar(Mensaje(r)) == Mensaje(r)
  {
    RecortarSinMargenes(Mensaje(r));
  }

  /** Only sending and publishing carry content, so only they require it. */
  predicate RequiereContenido(tipo: TipoOperacionCola) {
    tipo == Enviar || tipo == Publicar
  }

  /** A queue name is too long when it is not blank and exceeds 255 UTF-16 code units. */
  predicate NombreExcedido(nombre: Option<string>) {
    !EsNuloOBlanco(nombre) && LongitudUtf16(nombre.value) > 255
  }

  /** Whether request `s`, validated for `tipo`, breaks rule `r`. */
  predicate Incumple(s: SolicitudOperacionCola, tipo: TipoOperacionCola, r: Regla) {
    match r
    case Contenido => RequiereContenido(tipo) && s.contenido.tipo in {Undefined, Null}
    case Nombre => NombreExcedido(s.nombreCola)
    case Metadatos => exists k | k in s.metadatos :: EsBlanco(k)
  }

  predicate EnOrden(rs: seq<Regla>) {
    forall i, j | 0 <= i < j < |rs| :: Orden(rs[i]) < Orden(rs[j])
  }

  function SiIncumple(s: SolicitudOperacionCola, tipo: TipoOperacionCola, r: Regla): (x: seq<Regla>)
    ensures x == [] || x == [r]
    ensures forall q: Regla :: q in x <==> q == r && Incumple(s, tipo, r)
  {
    if Incumple(s, tipo, r) then [r] else []
  }

  /** Rules picked one per place, in the fixed order, stay in that order. */
  lemma EnOrdenConcatenadas(x: seq<Regla>, y: seq<Regla>, z: seq<Regla>)
    requires x == [] || x == [Contenido]
    requires y == [] || y == [Nombre]
    requires z == [] || z == [Metadatos]
    ensures EnOrden(x + y + z)
  {
    var rs := x + y + z;
    forall i, j | 0 <= i < j < |rs| ensures Orden(rs[i]) < Orden(rs[j]) {
      assert rs[i] in x + y + z && rs[j] in x + y + z;
      if x != [] && i == 0 {
        assert rs[i] == Contenido && rs[j] != Contenido;
      } else if z != [] && j == |rs| - 1 {
        assert rs[j] == Metadatos && rs[i] != Metadatos;
      }
    }
  }

  /** The broken rules of `s`, each once, in the order content, name, metadata. */
  function ReglasIncumplidas(s: SolicitudOperacionCola, tipo: TipoOperacionCola): (rs: seq<Regla>)
    ensures EnOrden(rs) && |rs| <= 3
    ensures forall r: Regla :: r in rs <==> Incumple(s, tipo, r)
  {
    var x := SiIncumple(s, tipo, Contenido);
    var y := SiIncumple(s, tipo, Nombre);
    var z := SiIncumple(s, tipo, Metadatos);
    EnOrdenConcatenadas(x, y, z);
    x + y + z
  }

  /**
    `Validar(tipoOperacion)`: one message per broken rule, in the order content, name, metadata; any number
    of blank metadata keys gives the one metadata message; no message at all exactly when nothing is broken.
  */
  function Validar(s: SolicitudOperacionCola, tipo: TipoOperacionCola): (errores: seq<string>)
    ensures errores == Mapear(ReglasIncumplidas(s, tipo), Mensaje) && |errores| <= 3
    ensures errores == [] <==> forall r: Regla :: !Incumple(s, tipo, r)
    ensures forall r: Regla :: Mensaje(r) in errores <==> Incumple(s, tipo, r)
  {
    var rs := ReglasIncumplidas(s, tipo);
    assert rs != [] ==> Incumple(s, tipo, rs[0]);
    forall r: Regla | Mensaje(r) in Mapear(rs, Mensaje) ensures r in rs {
      var i :| 0 <= i < |rs| && Mapear(rs, Mensaje)[i] == Mensaje(r);
      MensajeInyectivo(rs[i], r);
    }
    Mapear(rs, Mensaje)
  }

  /** A subscription request carries no content, so its content is never checked. */
  lemma SuscribirIgnoraContenido(s: SolicitudOperacionCola, contenido: ElementoJson)
    ensures Validar(s.(contenido := contenido), Suscribir) == Validar(s, Suscribir)
  {
    var t := s.(contenido := contenido);
    assert forall r: Regla :: Incumple(t, Suscribir, r) == Incumple(s, Suscribir, r);
    assert ReglasIncumplidas(t, Suscribir) == ReglasIncumplidas(s, Suscribir) by {
      assert SiIncumple(t, Suscribir, Contenido) == SiIncumple(s, Suscribir, Contenido);
      assert SiIncumple(t, Suscribir, Nombre) == SiIncumple(s, Suscribir, Nombre);
      assert SiIncumple(t, Suscribir, Metadatos) == SiIncumple(s, Suscribir, Metadatos);
    }
  }

  /** A request that sets nothing has no content: sending or publishing it fails on that rule alone. */
  lemma ValidarSolicitudVacia(tipo: TipoOperacionCola)
    requires RequiereContenido(tipo)
    ensures Validar(NuevaSolicitud(), tipo) == [Mensaje(Contenido)]
  {
    var s := NuevaSolicitud();
    assert !Incumple(s, tipo, Nombre);
    assert !Incumple(s, tipo, Metadatos);
    assert ReglasIncumplidas(s, tipo) == [Contenido];
  }
}
