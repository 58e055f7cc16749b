/**
  `ServicioColaRabbit`: the queue-operation engine. Each of `EnviarAsync`, `PublicarAsync` and
  `SuscribirAsync` validates its request, reads the configuration in force, resolves the queue name, opens
  a connection and a channel, sets the prefetch window, declares the queue (passively first, actively
  only on a 404) and then does its own work on the channel. A fault anywhere after validation is caught:
  it is logged once at `Error` and turned into one fixed failure message. Inside the model an exception
  is a `None` result handed back to the operation's `catch`.
*/
module Servicio {
  import opened Tipos
  import opened Texto
  import Utf8
  import opened Resultados
  import CC = ConfiguracionConexion
  import SO = SolicitudOperacion
  import SE = SolicitudEstado
  import opened EstadoCola
  import opened Registro
  import opened Broker
  import Contexto

  // The fixed texts of `ServicioColaRabbit`. A text that a proof reads character by character, or tells
  // apart from another text, is written as two literals: the verifier does not see inside a longer one.
  const MensajeSolicitudObligatoria := "La solicitud es obligatoria."
  const MensajeEnvioInvalido := "La solicitud de envío es inválida."
  const MensajePublicacionInvalida := "La solicitud de publicación es inválida."
  const MensajeSuscripcionInvalida := "La solicitud de suscripción es inválida."
  const ErrorSinSuscriptor := "No existe ningún suscriptor " + "escuchando la cola solicitada."
  const MensajeEnvioImposible := "No fue posible realizar el envío."
  const ErrorNoDisponible := "El mensaje no se encuentra " + "disponible en la cola."
  const MensajeEnviado := "Mensaje enviado y disponible " + "para los suscriptores."
  const MensajePublicado := "Mensaje publicado en la cola."
  const MensajeEstadoRecuperado := "Estado de la cola recuperado " + "correctamente."
  const ErrorEnvio := "Ocurrió un error inesperado " + "durante el envío del mensaje."
  const ErrorPublicacion := "Ocurrió un error inesperado " + "durante la publicación del mensaje."
  const ErrorSuscripcion := "Ocurrió un error inesperado " + "durante la suscripción a la cola."

  const ClaseServicio := "ServicioColaRabbit"

  /** What a caught fault turns into: `CrearFallo(new[] { error })`, nothing of the exception kept. */
  function FalloInesperado<T>(error: string): (r: ResultadoOperacionCola<T>)
    ensures !r.EsExitoso() && r.Valor().None? && r.Mensaje() == MensajeFalloPredeterminado
    ensures !EsBlanco(error) && Recortar(error) == error ==>
      r == CrearFallo(Some([Some(error)]), MensajeFalloPredeterminado)
  {
    if !EsBlanco(error) && Recortar(error) == error then
      CrearFalloLimpios<T>([error], MensajeFalloPredeterminado);
      Fallo([error], MensajeFalloPredeterminado)
    else
      Fallo([error], MensajeFalloPredeterminado)
  }

  /** `ValidarSolicitudOperacion`: a missing request has one error of its own; otherwise the request's rules. */
  function ValidarSolicitudOperacion(solicitud: Option<SO.SolicitudOperacionCola>, tipo: SO.TipoOperacionCola)
    : (errores: seq<string>)
    ensures errores == [] <==> solicitud.Some? && forall q: SO.Regla :: !SO.Incumple(solicitud.value, tipo, q)
    ensures solicitud.None? ==> errores == [MensajeSolicitudObligatoria]
    ensures solicitud.Some? ==> errores == SO.Validar(solicitud.value, tipo)
    ensures forall i | 0 <= i < |errores| :: !EsBlanco(errores[i]) && Recortar(errores[i]) == errores[i]
  {
    if solicitud.None? then
      RecortarSinMargenes(MensajeSolicitudObligatoria);
      [MensajeSolicitudObligatoria]
    else
      var rs := SO.ReglasIncumplidas(solicitud.value, tipo);
      forall i | 0 <= i < |rs| ensures !EsBlanco(SO.Mensaje(rs[i])) && Recortar(SO.Mensaje(rs[i])) == SO.Mensaje(rs[i]) {
        SO.MensajeLimpio(rs[i]);
      }
      SO.Validar(solicitud.value, tipo)
  }

  /** `ValidarSolicitudEstado`: a missing request has one error of its own; otherwise the request's rules. */
  function ValidarSolicitudEstado(solicitud: Option<SE.SolicitudEstadoCola>): (errores: seq<string>)
    ensures errores == [] <==>
      solicitud.Some? && !SO.NombreExcedido(solicitud.value.nombreCola) && 1 <= solicitud.value.maximoMensajes <= 500
    ensures solicitud.None? ==> errores == [MensajeSolicitudObligatoria]
    ensures solicitud.Some? ==> errores == SE.Validar(solicitud.value)
    ensures forall i | 0 <= i < |errores| :: !EsBlanco(errores[i]) && Recortar(errores[i]) == errores[i]
  {
    if solicitud.None? then
      RecortarSinMargenes(MensajeSolicitudObligatoria);
      [MensajeSolicitudObligatoria]
    else
      var errores := SE.Validar(solicitud.value);
      forall i | 0 <= i < |errores| ensures !EsBlanco(errores[i]) && Recortar(errores[i]) == errores[i] {
        var q: SE.Regla :| SE.Mensaje(q) == errores[i] by {
          if errores[i] == SE.Mensaje(SE.Nombre) {
          } else if errores[i] == SE.Mensaje(SE.MaximoNoPositivo) {
          } else {
            assert errores[i] == SE.Mensaje(SE.MaximoExcedido);
          }
        }
        SE.MensajeLimpio(q);
      }
      errores
  }

  /**
    `ResolverNombreCola`: a requested name that is not blank wins, trimmed; otherwise the configuration's
    default queue, as it is; `None` is the `InvalidOperationException` raised when both are blank.
  */
  function ResolverNombreCola(solicitado: Option<string>, cfg: CC.ConfiguracionConexionRabbit): (r: Option<string>)
    ensures !EsNuloOBlanco(solicitado) ==> r == Some(Recortar(solicitado.value))
    ensures EsNuloOBlanco(solicitado) ==> r == if EsBlanco(cfg.nombreColaPorDefecto) then None else Some(cfg.nombreColaPorDefecto)
    ensures r.Some? ==> !EsBlanco(r.value)
  {
    var nombre := if EsNuloOBlanco(solicitado) then cfg.nombreColaPorDefecto else Recortar(solicitado.value);
    if EsBlanco(nombre) then None else Some(nombre)
  }

  /** `CodificarContenido`: the content's raw JSON text, in UTF-8. */
  function CodificarContenido(contenido: SO.ElementoJson): (cuerpo: seq<byte>)
    ensures |contenido.textoCrudo| <= |cuerpo| <= 4 * |contenido.textoCrudo|
  {
    Utf8.Codificar(contenido.textoCrudo)
  }

  /** `DecodificarMensaje`: a body read back as UTF-8 text. */
  function DecodificarMensaje(cuerpo: seq<byte>): (texto: string)
    ensures |texto| <= |cuerpo|
  {
    Utf8.Decodificar(cuerpo)
  }

  /**
    The headers of a message: the request's metadata without its blank keys, a null value sent as the
    empty string.
  */
  function Cabeceras(metadatos: map<string, Option<string>>): (h: map<string, string>)
    ensures forall k :: k in h <==> k in metadatos && !EsBlanco(k)
    ensures forall k | k in h :: h[k] == if metadatos[k].None? then "" else metadatos[k].value
  {
    map k | k in metadatos && !EsBlanco(k) :: if metadatos[k].None? then "" else metadatos[k].value
  }

  /**
    `CrearPropiedadesMensaje`: JSON content, persistent delivery (mode 2) exactly when the configuration
    persists messages, the connection name as application id, and headers only when the request carries
    metadata. The message id (a fresh GUID) and the timestamp (the clock) come in as arguments.
  */
  function CrearPropiedadesMensaje(solicitud: SO.SolicitudOperacionCola, cfg: CC.ConfiguracionConexionRabbit,
                                   idMensaje: string, marcaTiempo: int)
    : (p: PropiedadesMensaje)
    ensures p.tipoContenido == "application/json"
    ensures p.persistente == cfg.persistirMensajes && (p.modoEntrega == 2 <==> cfg.persistirMensajes)
    ensures p.modoEntrega == 1 || p.modoEntrega == 2
    ensures p.idMensaje == idMensaje && p.marcaTiempo == marcaTiempo && p.idAplicacion == cfg.nombreConexion
    ensures p.cabeceras.None? <==> solicitud.metadatos == map[]
    ensures p.cabeceras.Some? ==> p.cabeceras.value == Cabeceras(solicitud.metadatos)
  {
    PropiedadesMensaje(
      tipoContenido := "application/json",
      modoEntrega := if cfg.persistirMensajes then 2 else 1,
      idMensaje := idMensaje,
      idAplicacion := cfg.nombreConexion,
      marcaTiempo := marcaTiempo,
      persistente := cfg.persistirMensajes,
      cabeceras := if |solicitud.metadatos| > 0 then Some(Cabeceras(solicitud.metadatos)) else None)
  }

  // ---------------------------------------------------------------------------------------------------
  // The calls each operation makes, as sequences of broker calls with their outcomes.

  /** A connection and a channel, both opened. */
  ghost function Apertura(cfg: CC.ConfiguracionConexionRabbit): seq<Llamada> {
    [CrearConexion(cfg.nombreConexion, true), CrearCanal(true)]
  }

  /** `ConfigurarCalidadServicio`: one `BasicQos(0, Prefetch, false)` when the prefetch is positive, none otherwise. */
  ghost function CalidadServicio(cfg: CC.ConfiguracionConexionRabbit, ok: bool): seq<Llamada> {
    if cfg.prefetch > 0 then [Qos(0, cfg.prefetch, false, ok)] else []
  }

  /**
    `DeclararCola`, corrected: a passive declaration that finds the queue; or one that gets a 404, after
    which a new channel is opened and the queue declared actively on it, durable as the configuration
    persists messages, neither exclusive nor auto-deleted; or one that fails otherwise, which propagates.
    `d` is the declaration's report, `None` for a fault.
  */
  ghost predicate EsDeclaracion(cfg: CC.ConfiguracionConexionRabbit, n: string, t: seq<Llamada>,
                                d: Option<DeclaracionOk>) {
    || (d.Some? && t == [DeclaracionPasiva(n, Encontrada(d.value))])
    || (d.None? && t == [DeclaracionPasiva(n, OtraAveria)])
    || (d.None? && t == [DeclaracionPasiva(n, NoEncontrada), CrearCanal(false)])
    || t == [DeclaracionPasiva(n, NoEncontrada), CrearCanal(true),
             Declaracion(n, cfg.persistirMensajes, false, false, d)]
  }

  /** Lines 45-48 of every operation: connect, open a channel, set the prefetch window, declare the queue. */
  ghost predicate EsPreambulo(cfg: CC.ConfiguracionConexionRabbit, n: string, t: seq<Llamada>,
                              d: Option<DeclaracionOk>) {
    || (d.None? && t == [CrearConexion(cfg.nombreConexion, false)])
    || (d.None? && t == [CrearConexion(cfg.nombreConexion, true), CrearCanal(false)])
    || (d.None? && cfg.prefetch > 0 && t == Apertura(cfg) + [Qos(0, cfg.prefetch, false, false)])
    || (var a := Apertura(cfg) + CalidadServicio(cfg, true);
        |a| <= |t| && t[..|a|] == a && EsDeclaracion(cfg, n, t[|a|..], d))
  }

  /** The queues once queue `n` is declared: a missing one has been created, empty. */
  ghost function ColasDeclaradas(colas: map<string, Cola>, n: string, durable: bool): (c: map<string, Cola>)
    ensures n in c
  {
    if n in colas then colas else colas[n := Cola(multiset{}, 0, durable)]
  }

  /** The queues once `cuerpo` is published to queue `n` through the default exchange. */
  ghost function ColasPublicadas(colas: map<string, Cola>, n: string, cuerpo: seq<byte>): map<string, Cola>
    requires n in colas
  {
    colas[n := colas[n].(listos := colas[n].listos + multiset{cuerpo})]
  }

  /**
    Lines 50-76 of `EnviarAsync`, after the declaration reported `info`: without consumers and without
    leave to publish anyway, nothing more happens and the send is refused; otherwise one mandatory publish
    of the encoded content through the default exchange, one `BasicGet` without auto-ack, and, when it
    yields a delivery, one `BasicNack` of that delivery with requeue. The value is whatever body the get
    yields, decoded: the queue may hand back another message than the one just published.
  */
  ghost predicate EnvioTrasDeclarar(s: SO.SolicitudOperacionCola, n: string, p: PropiedadesMensaje,
                                    info: DeclaracionOk, u: seq<Llamada>, r: Option<ResultadoOperacionCola<string>>) {
    if info.consumidores == 0 && !s.permitirPublicarSinSuscriptores then
      u == [] && r == Some(Fallo([ErrorSinSuscriptor], MensajeEnvioImposible))
    else
      EnvioPublicado(s, n, p, u, r)
  }

  /** The part of a send from the mandatory publish on: the publish, then the read-back of one message. */
  ghost predicate EnvioPublicado(s: SO.SolicitudOperacionCola, n: string, p: PropiedadesMensaje,
                                 u: seq<Llamada>, r: Option<ResultadoOperacionCola<string>>) {
      && |u| >= 1 && u[0].Publicacion?
      && u[0] == Publicacion([], n, true, p, CodificarContenido(s.contenido), u[0].ok)
      && if !u[0].ok then
           |u| == 1 && r.None?
         else
           && |u| >= 2 && u[1].Obtener? && u[1] == Obtener(n, false, u[1].obtencion)
           && match u[1].obtencion
              case AveriaObtencion => |u| == 2 && r.None?
              case Vacio => |u| == 2 && r == Some(Fallo([ErrorNoDisponible], MensajeFalloPredeterminado))
              case Obtenido(e) =>
                && |u| == 3 && u[2].Rechazo? && u[2] == Rechazo(e.etiqueta, false, true, u[2].ok)
                && r == if u[2].ok then Some(Exito(DecodificarMensaje(e.cuerpo), MensajeEnviado)) else None
  }

  /** A get that yields delivery `e`, then the nack that requeues it. */
  ghost function Par(n: string, e: Entrega): seq<Llamada> {
    [Obtener(n, false, Obtenido(e)), Rechazo(e.etiqueta, false, true, true)]
  }

  /** The calls of a run of the sampling loop that fetched and requeued `es`, in order. */
  ghost function Muestreo(n: string, es: seq<Entrega>): (t: seq<Llamada>)
    ensures |t| == 2 * |es|
  {
    if es == [] then [] else Muestreo(n, es[..|es| - 1]) + Par(n, es[|es| - 1])
  }

  /** The sample: each fetched body decoded, in the order fetched. */
  function Resumen(es: seq<Entrega>): (r: seq<string>)
    ensures |r| == |es| && forall i | 0 <= i < |es| :: r[i] == DecodificarMensaje(es[i].cuerpo)
  {
    if es == [] then [] else Resumen(es[..|es| - 1]) + [DecodificarMensaje(es[|es| - 1].cuerpo)]
  }

  /**
    Lines 159-171 of `SuscribirAsync`: `limite` rounds at most; each round fetches one message and requeues
    it; the loop stops early, successfully, at the first empty get, and a fault ends it with an exception.
  */
  ghost predicate MuestreoConforme(n: string, limite: nat, u: seq<Llamada>, r: Option<seq<string>>) {
    exists es: seq<Entrega>, v: seq<Llamada> | u == Muestreo(n, es) + v :: FinDeMuestreo(n, limite, es, v, r)
  }

  /** The calls of one round of the sampling loop: the get and, when it yields a delivery, the nack. */
  ghost function Ronda(n: string, m: Obtencion, devuelto: bool): seq<Llamada> {
    [Obtener(n, false, m)] + (if m.Obtenido? then [Rechazo(m.entrega.etiqueta, false, true, devuelto)] else [])
  }

  /** A round that did not fetch and requeue a message ends the loop: with the sample on an empty get, else with a fault. */
  lemma FinTrasRonda(n: string, limite: nat, es: seq<Entrega>, m: Obtencion, devuelto: bool)
    requires |es| < limite && !(m.Obtenido? && devuelto)
    ensures FinDeMuestreo(n, limite, es, Ronda(n, m, devuelto), if m.Vacio? then Some(Resumen(es)) else None)
  {
  }

  /** A run split into the completed rounds and how it ended conforms to the loop. */
  lemma MuestreoConformeDe(n: string, limite: nat, u: seq<Llamada>, es: seq<Entrega>, v: seq<Llamada>,
                           r: Option<seq<string>>)
    requires u == Muestreo(n, es) + v && FinDeMuestreo(n, limite, es, v, r)
    ensures MuestreoConforme(n, limite, u, r)
  {
  }

  /** How a sampling run that fetched and requeued `es` ended, `v` being its calls after those rounds. */
  ghost predicate FinDeMuestreo(n: string, limite: nat, es: seq<Entrega>, v: seq<Llamada>, r: Option<seq<string>>) {
    && |es| <= limite
    && if |es| == limite then
         v == [] && r == Some(Resumen(es))
       else
         && |v| >= 1 && v[0].Obtener? && v[0] == Obtener(n, false, v[0].obtencion)
         && match v[0].obtencion
            case Vacio => |v| == 1 && r == Some(Resumen(es))
            case AveriaObtencion => |v| == 1 && r.None?
            case Obtenido(e) => v == [v[0], Rechazo(e.etiqueta, false, true, false)] && r.None?
  }

  /**
    How many messages `SuscribirAsync` samples at most: none unless asked to and the queue has some;
    otherwise the smaller of the message count and the requested maximum cast to `uint`.
  */
  function Limite(s: SE.SolicitudEstadoCola, info: DeclaracionOk): (l: nat)
    ensures l <= info.mensajes as int
    ensures 0 <= s.maximoMensajes ==> l <= s.maximoMensajes as int
    ensures l == 0 <==> !s.incluirContenido || info.mensajes == 0 || s.maximoMensajes == 0
    ensures s.incluirContenido && 0 <= s.maximoMensajes ==>
            l == if (s.maximoMensajes as int) < (info.mensajes as int) then s.maximoMensajes as int else info.mensajes as int
  {
    if s.incluirContenido && info.mensajes > 0 then
      var maximo := (s.maximoMensajes as int) % DosALa32;
      if maximo < info.mensajes as int then maximo else info.mensajes as int
    else
      0
  }

  /** A configuration read, or `None` for the exception a disposed context raises. */
  ghost function ConfiguracionLeida(contexto: Contexto.ContextoConexionRabbit): (c: Option<CC.ConfiguracionConexionRabbit>)
    reads contexto
    ensures c.None? <==> contexto.disposed
    ensures c.Some? ==> c.value == contexto.configuracionActual
  {
    if contexto.disposed then None else Some(contexto.configuracionActual)
  }

  /**
    An operation from reading the configuration to the declaration: no call at all when there is no
    configuration or no queue name (`d` is then `None`, an exception), otherwise the preamble on the
    resolved queue.
  */
  ghost predicate HastaDeclarar(cfg: Option<CC.ConfiguracionConexionRabbit>, solicitado: Option<string>,
                                p: seq<Llamada>, d: Option<DeclaracionOk>) {
    if cfg.None? || ResolverNombreCola(solicitado, cfg.value).None? then
      p == [] && d.None?
    else
      EsPreambulo(cfg.value, ResolverNombreCola(solicitado, cfg.value).value, p, d)
  }

  /** The `try` block of `EnviarAsync`: `t` is every broker call it made, `e` its result, `None` for an exception. */
  ghost predicate EnvioIntento(cfg: Option<CC.ConfiguracionConexionRabbit>, s: SO.SolicitudOperacionCola,
                               idMensaje: string, marcaTiempo: int, t: seq<Llamada>,
                               e: Option<ResultadoOperacionCola<string>>) {
    exists p: seq<Llamada>, u: seq<Llamada>, d: Option<DeclaracionOk>
      | t == p + u && HastaDeclarar(cfg, s.nombreCola, p, d) ::
      if d.None? then
        u == [] && e.None?
      else
        EnvioTrasDeclarar(s, ResolverNombreCola(s.nombreCola, cfg.value).value,
                          CrearPropiedadesMensaje(s, cfg.value, idMensaje, marcaTiempo), d.value, u, e)
  }

  /** The `try` block of `PublicarAsync`: one mandatory publish after the declaration, nothing else. */
  ghost predicate PublicacionIntento(cfg: Option<CC.ConfiguracionConexionRabbit>, s: SO.SolicitudOperacionCola,
                                     idMensaje: string, marcaTiempo: int, t: seq<Llamada>,
                                     e: Option<ResultadoOperacionCola<bool>>) {
    exists p: seq<Llamada>, u: seq<Llamada>, d: Option<DeclaracionOk>
      | t == p + u && HastaDeclarar(cfg, s.nombreCola, p, d) ::
      if d.None? then
        u == [] && e.None?
      else
        PublicacionTrasDeclarar(s, ResolverNombreCola(s.nombreCola, cfg.value).value,
                                CrearPropiedadesMensaje(s, cfg.value, idMensaje, marcaTiempo), u, e)
  }

  /** What `PublicarAsync` does once queue `n` is declared: one mandatory publish, its outcome the result. */
  ghost predicate PublicacionTrasDeclarar(s: SO.SolicitudOperacionCola, n: string, p: PropiedadesMensaje,
                                          u: seq<Llamada>, e: Option<ResultadoOperacionCola<bool>>) {
    && |u| == 1 && u[0].Publicacion?
    && u[0] == Publicacion([], n, true, p, CodificarContenido(s.contenido), u[0].ok)
    && e == if u[0].ok then Some(Exito(true, MensajePublicado)) else None
  }

  /** A trace split into the part up to the declaration and the publish after it is a publication attempt. */
  lemma PublicacionIntentoDe(cfg: Option<CC.ConfiguracionConexionRabbit>, s: SO.SolicitudOperacionCola,
                             idMensaje: string, marcaTiempo: int, t: seq<Llamada>, p: seq<Llamada>, u: seq<Llamada>,
                             d: Option<DeclaracionOk>, e: Option<ResultadoOperacionCola<bool>>,
                             c: CC.ConfiguracionConexionRabbit, n: string)
    requires t == p + u && HastaDeclarar(cfg, s.nombreCola, p, d)
    requires d.None? ==> u == [] && e.None?
    requires d.Some? ==>
      && cfg == Some(c) && ResolverNombreCola(s.nombreCola, c) == Some(n)
      && PublicacionTrasDeclarar(s, n, CrearPropiedadesMensaje(s, c, idMensaje, marcaTiempo), u, e)
    ensures PublicacionIntento(cfg, s, idMensaje, marcaTiempo, t, e)
  {
  }

  /** A trace split into the part up to the declaration and the send after it is a send attempt. */
  lemma EnvioIntentoDe(cfg: Option<CC.ConfiguracionConexionRabbit>, s: SO.SolicitudOperacionCola,
                       idMensaje: string, marcaTiempo: int, t: seq<Llamada>, p: seq<Llamada>, u: seq<Llamada>,
                       d: Option<DeclaracionOk>, e: Option<ResultadoOperacionCola<string>>,
                       c: CC.ConfiguracionConexionRabbit, n: string)
    requires t == p + u && HastaDeclarar(cfg, s.nombreCola, p, d)
    requires d.None? ==> u == [] && e.None?
    requires d.Some? ==>
      && cfg == Some(c) && ResolverNombreCola(s.nombreCola, c) == Some(n)
      && EnvioTrasDeclarar(s, n, CrearPropiedadesMensaje(s, c, idMensaje, marcaTiempo), d.value, u, e)
    ensures EnvioIntento(cfg, s, idMensaje, marcaTiempo, t, e)
  {
  }

  /** The state `SuscribirAsync` reports: the declaration's counts and the sample. */
  function Detalle(n: string, info: DeclaracionOk, resumen: seq<string>): (r: ResultadoOperacionCola<EstadoColaDetalle>)
    ensures r.EsExitoso() && r.Errores() == [] && r.Mensaje() == MensajeEstadoRecuperado && r.Valor().Some?
    ensures r.Valor().value.nombreCola == n && r.Valor().value.resumenMensajes == resumen
    ensures TieneMensajes(r.Valor().value) <==> info.mensajes > 0 || info.consumidores > 0
  {
    CrearExito(EstadoColaDetalle(n, info.mensajes, info.consumidores, resumen), MensajeEstadoRecuperado)
  }

  /** The `try` block of `SuscribirAsync`: the declaration, then the sampling loop. */
  ghost predicate SuscripcionIntento(cfg: Option<CC.ConfiguracionConexionRabbit>, s: SE.SolicitudEstadoCola,
                                     t: seq<Llamada>, e: Option<ResultadoOperacionCola<EstadoColaDetalle>>) {
    exists p: seq<Llamada>, u: seq<Llamada>, d: Option<DeclaracionOk>
      | t == p + u && HastaDeclarar(cfg, s.nombreCola, p, d) ::
      if d.None? then
        u == [] && e.None?
      else
        SuscripcionTrasDeclarar(s, ResolverNombreCola(s.nombreCola, cfg.value).value, d.value, u, e)
  }

  /** What `SuscribirAsync` does once queue `n` is declared: the sample, reported with the declaration's counts. */
  ghost predicate SuscripcionTrasDeclarar(s: SE.SolicitudEstadoCola, n: string, info: DeclaracionOk,
                                          u: seq<Llamada>, e: Option<ResultadoOperacionCola<EstadoColaDetalle>>) {
    exists m: Option<seq<string>> | MuestreoConforme(n, Limite(s, info), u, m) ::
      e == if m.None? then None else Some(Detalle(n, info, m.value))
  }

  /** A trace split into the part up to the declaration and the sample after it is a subscription attempt. */
  lemma SuscripcionIntentoDe(cfg: Option<CC.ConfiguracionConexionRabbit>, s: SE.SolicitudEstadoCola,
                             t: seq<Llamada>, p: seq<Llamada>, u: seq<Llamada>,
                             d: Option<DeclaracionOk>, e: Option<ResultadoOperacionCola<EstadoColaDetalle>>,
                             c: CC.ConfiguracionConexionRabbit, n: string)
    requires t == p + u && HastaDeclarar(cfg, s.nombreCola, p, d)
    requires d.None? ==> u == [] && e.None?
    requires d.Some? ==>
      && cfg == Some(c) && ResolverNombreCola(s.nombreCola, c) == Some(n)
      && SuscripcionTrasDeclarar(s, n, d.value, u, e)
    ensures SuscripcionIntento(cfg, s, t, e)
  {
  }

  /**
    The broker after a send or a publish that succeeded: queue `n` is declared and holds the encoded
    content once more; no delivery is left pending.
  */
  ghost predicate PublicadoEn(colas0: map<string, Cola>, pendientes0: map<nat, (string, seq<byte>)>,
                              colas: map<string, Cola>, pendientes: map<nat, (string, seq<byte>)>,
                              cfg: Option<CC.ConfiguracionConexionRabbit>, s: SO.SolicitudOperacionCola) {
    && cfg.Some? && ResolverNombreCola(s.nombreCola, cfg.value).Some?
    && var n := ResolverNombreCola(s.nombreCola, cfg.value).value;
       && pendientes == pendientes0
       && colas == ColasPublicadas(ColasDeclaradas(colas0, n, cfg.value.persistirMensajes), n, CodificarContenido(s.contenido))
  }

  /** The broker after a subscription that succeeded: queue `n` is declared, every sampled message is back. */
  ghost predicate ConsultadoEn(colas0: map<string, Cola>, pendientes0: map<nat, (string, seq<byte>)>,
                               colas: map<string, Cola>, pendientes: map<nat, (string, seq<byte>)>,
                               cfg: Option<CC.ConfiguracionConexionRabbit>, s: SE.SolicitudEstadoCola) {
    && cfg.Some? && ResolverNombreCola(s.nombreCola, cfg.value).Some?
    && pendientes == pendientes0
    && colas == ColasDeclaradas(colas0, ResolverNombreCola(s.nombreCola, cfg.value).value, cfg.value.persistirMensajes)
  }

  /** The broker state a publish to the declared queue `n` leaves satisfies `PublicadoEn`. */
  lemma PublicadoEnDe(colas0: map<string, Cola>, pendientes0: map<nat, (string, seq<byte>)>,
                      colas: map<string, Cola>, pendientes: map<nat, (string, seq<byte>)>,
                      cfg: Option<CC.ConfiguracionConexionRabbit>, s: SO.SolicitudOperacionCola,
                      c: CC.ConfiguracionConexionRabbit, n: string)
    requires cfg == Some(c) && ResolverNombreCola(s.nombreCola, c) == Some(n)
    requires pendientes == pendientes0
    requires colas == ColasPublicadas(ColasDeclaradas(colas0, n, c.persistirMensajes), n, CodificarContenido(s.contenido))
    ensures PublicadoEn(colas0, pendientes0, colas, pendientes, cfg, s)
  {
  }

  /** The broker state a sample of the declared queue `n` leaves satisfies `ConsultadoEn`. */
  lemma ConsultadoEnDe(colas0: map<string, Cola>, pendientes0: map<nat, (string, seq<byte>)>,
                       colas: map<string, Cola>, pendientes: map<nat, (string, seq<byte>)>,
                       cfg: Option<CC.ConfiguracionConexionRabbit>, s: SE.SolicitudEstadoCola,
                       c: CC.ConfiguracionConexionRabbit, n: string)
    requires cfg == Some(c) && ResolverNombreCola(s.nombreCola, c) == Some(n)
    requires pendientes == pendientes0 && colas == ColasDeclaradas(colas0, n, c.persistirMensajes)
    ensures ConsultadoEn(colas0, pendientes0, colas, pendientes, cfg, s)
  {
  }

  /**
    Appending a trace in two steps appends their concatenation. Stated apart so that the methods that glue
    a preamble to an operation take it as one fact instead of rediscovering it in their larger context.
  */
  lemma TrazaAsociativa(t0: seq<Llamada>, p: seq<Llamada>, u: seq<Llamada>)
    ensures t0 + p + u == t0 + (p + u)
  {
  }

  /** The `catch` block's result: the `try` block's, or the fixed failure for an exception. */
  function Capturar<T>(e: Option<ResultadoOperacionCola<T>>, error: string): (r: ResultadoOperacionCola<T>)
    ensures e.Some? ==> r == e.value
    ensures e.None? ==> !r.EsExitoso() && r.Errores() == [error] && r.Mensaje() == MensajeFalloPredeterminado
  {
    if e.None? then FalloInesperado(error) else e.value
  }

  /** The log after an operation: one `Error` event for an exception, nothing otherwise. */
  function Registrado(eventos: seq<EventoLog>, excepcion: bool, metodo: string): seq<EventoLog> {
    eventos + if excepcion then [EventoError(metodo)] else []
  }

  /** The fixed error texts are trimmed and not blank, so `CrearFallo` keeps each as it is. */
  lemma ErroresLimpios()
    ensures !EsBlanco(ErrorSinSuscriptor) && Recortar(ErrorSinSuscriptor) == ErrorSinSuscriptor
    ensures !EsBlanco(ErrorNoDisponible) && Recortar(ErrorNoDisponible) == ErrorNoDisponible
    ensures !EsBlanco(ErrorEnvio) && Recortar(ErrorEnvio) == ErrorEnvio
    ensures !EsBlanco(ErrorPublicacion) && Recortar(ErrorPublicacion) == ErrorPublicacion
    ensures !EsBlanco(ErrorSuscripcion) && Recortar(ErrorSuscripcion) == ErrorSuscripcion
  {
    RecortarSinMargenes(ErrorSinSuscriptor);
    RecortarSinMargenes(ErrorNoDisponible);
    RecortarSinMargenes(ErrorEnvio);
    RecortarSinMargenes(ErrorPublicacion);
    RecortarSinMargenes(ErrorSuscripcion);
  }

  /** The one event a caught fault leaves in the log. */
  function EventoError(metodo: string): EventoLog {
    EventoLog(Error, ClaseServicio, metodo)
  }

  /** A failure built by `CrearFallo` from trimmed, non-blank errors carries exactly those errors. */
  method CrearFalloExacto<T>(errores: seq<string>, mensaje: string) returns (r: ResultadoOperacionCola<T>)
    requires forall i | 0 <= i < |errores| :: !EsBlanco(errores[i]) && Recortar(errores[i]) == errores[i]
    ensures r == Fallo(errores, mensaje)
  {
    r := CrearFallo(Some(ComoNulables(errores)), mensaje);
    CrearFalloLimpios<T>(errores, mensaje);
  }

  /** `ConfigurarCalidadServicio`. */
  method ConfigurarCalidadServicio(canal: Broker, cfg: CC.ConfiguracionConexionRabbit) returns (ok: bool)
    requires canal.Valid()
    modifies canal
    ensures canal.Valid()
    ensures canal.traza == old(canal.traza) + CalidadServicio(cfg, ok)
    ensures canal.colas == old(canal.colas) && canal.pendientes == old(canal.pendientes)
    ensures canal.canalCerrado == old(canal.canalCerrado)
    ensures cfg.prefetch == 0 ==> ok
  {
    ok := true;
    if cfg.prefetch > 0 {
      ok := canal.BasicQos(0, cfg.prefetch, false);
    }
  }

  /**
    `DeclararCola` as written: the 404 of the passive declaration closes the channel, and the active
    declaration goes to that same channel, so it always fails. A missing queue is never created.
  */
  method DeclararColaComoEscrita(canal: Broker, n: string, cfg: CC.ConfiguracionConexionRabbit)
    returns (d: Option<DeclaracionOk>)
    requires canal.Valid()
    modifies canal
    ensures canal.Valid()
    ensures canal.colas == old(canal.colas) && canal.pendientes == old(canal.pendientes)
    ensures n !in old(canal.colas) ==> d.None?
    ensures n in old(canal.colas) ==> d == if old(canal.Falla(true)) then None else Some(Informe(n, canal.colas[n]))
    ensures n !in old(canal.colas) && !old(canal.Falla(true)) ==>
      canal.traza == old(canal.traza)
                     + [DeclaracionPasiva(n, NoEncontrada), Declaracion(n, cfg.persistirMensajes, false, false, None)]
  {
    var pasiva := canal.QueueDeclarePassive(n);
    if pasiva.Encontrada? {
      d := Some(pasiva.declaracion);
    } else if pasiva.NoEncontrada? {
      d := canal.QueueDeclare(n, cfg.persistirMensajes, false, false);
    } else {
      d := None;
    }
  }

  /**
    `DeclararCola`, corrected: after the 404 the queue is declared on a new channel. A missing queue is
    created unless one of the calls faults. `None` is the fault that propagates.
  */
  method DeclararCola(canal: Broker, n: string, cfg: CC.ConfiguracionConexionRabbit) returns (d: Option<DeclaracionOk>)
    requires canal.Valid()
    modifies canal
    ensures canal.Valid()
    ensures old(canal.traza) <= canal.traza
    ensures EsDeclaracion(cfg, n, canal.traza[|old(canal.traza)|..], d)
    ensures canal.pendientes == old(canal.pendientes)
    ensures d.None? ==> canal.colas == old(canal.colas)
    ensures d.Some? ==>
      && canal.colas == ColasDeclaradas(old(canal.colas), n, cfg.persistirMensajes)
      && d.value == Informe(n, canal.colas[n]) && !canal.canalCerrado
    ensures n !in old(canal.colas) && !old(canal.Falla(true))
            && old(canal.llamadas) + 1 !in canal.averias && old(canal.llamadas) + 2 !in canal.averias ==>
      d == Some(DeclaracionOk(n, 0, 0))
  {
    ghost var t0 := canal.traza;
    var pasiva := canal.QueueDeclarePassive(n);
    if pasiva.Encontrada? {
      d := Some(pasiva.declaracion);
    } else if pasiva.NoEncontrada? {
      var abierto := canal.CreateModel();
      if abierto {
        d := canal.QueueDeclare(n, cfg.persistirMensajes, false, false);
        if d.Some? {
          assert Informe(n, Cola(multiset{}, 0, cfg.persistirMensajes)) == DeclaracionOk(n, 0, 0);
        }
      } else {
        d := None;
      }
    } else {
      d := None;
    }
    assert canal.traza[|t0|..] == canal.traza[|t0|..];
  }

  /** A fresh broker without the queue: the declaration as written fails. */
  method ColaNuevaComoEscrita() returns (d: Option<DeclaracionOk>)
    ensures d.None?
  {
    var canal := new Broker(map[], {});
    d := DeclararColaComoEscrita(canal, "pedidos", CC.Predeterminada());
  }

  /** The same broker: the corrected declaration creates the queue and reports it empty. */
  method ColaNuevaCorregida() returns (d: Option<DeclaracionOk>)
    ensures d == Some(DeclaracionOk("pedidos", 0, 0))
  {
    var canal := new Broker(map[], {});
    d := DeclararCola(canal, "pedidos", CC.Predeterminada());
  }

  class ServicioColaRabbit {
    const contexto: Contexto.ContextoConexionRabbit
    const administradorLog: AdministradorLog
    /** The broker every connection goes to. It stands for the `ConnectionFactory` that `CrearConexion`
      * builds anew on each call; it is not a field of the source class. */
    const fabrica: Broker

    /** The source's constructor takes the context and the log sink (and an optional logger, not modelled);
      * the broker is an extra argument, as the tests inject their factory. */
    constructor(contexto: Contexto.ContextoConexionRabbit, administradorLog: AdministradorLog, fabrica: Broker)
      ensures this.contexto == contexto && this.administradorLog == administradorLog && this.fabrica == fabrica
    {
      this.contexto := contexto;
      this.administradorLog := administradorLog;
      this.fabrica := fabrica;
    }

    /** The `catch` block: one `Error` event naming the class and the method, then the fixed failure. */
    method RegistrarErrorAsync<T>(metodo: string, error: string) returns (r: ResultadoOperacionCola<T>)
      requires !EsBlanco(error) && Recortar(error) == error
      modifies administradorLog
      ensures administradorLog.eventos == old(administradorLog.eventos) + [EventoError(metodo)]
      ensures r == FalloInesperado(error)
    {
      administradorLog.RegistrarEventoAsync(Error, ClaseServicio, metodo);
      r := CrearFalloExacto([error], MensajeFalloPredeterminado);
    }

    /** Lines 45-48 of every operation: connection, channel, prefetch window, declaration. */
    method AbrirYDeclarar(cfg: CC.ConfiguracionConexionRabbit, n: string) returns (d: Option<DeclaracionOk>)
      requires fabrica.Valid()
      modifies fabrica
      ensures fabrica.Valid()
      ensures old(fabrica.traza) <= fabrica.traza
      ensures EsPreambulo(cfg, n, fabrica.traza[|old(fabrica.traza)|..], d)
      ensures fabrica.pendientes == old(fabrica.pendientes)
      ensures d.Some? ==>
        && fabrica.colas == ColasDeclaradas(old(fabrica.colas), n, cfg.persistirMensajes)
        && d.value == Informe(n, fabrica.colas[n]) && !fabrica.canalCerrado
    {
      ghost var t0 := fabrica.traza;
      var conexion := fabrica.CreateConnection(cfg.nombreConexion);
      if !conexion {
        assert fabrica.traza[|t0|..] == [CrearConexion(cfg.nombreConexion, false)];
        return None;
      }
      var canal := fabrica.CreateModel();
      if !canal {
        assert fabrica.traza[|t0|..] == [CrearConexion(cfg.nombreConexion, true), CrearCanal(false)];
        return None;
      }
      var calidad := ConfigurarCalidadServicio(fabrica, cfg);
      if !calidad {
        assert fabrica.traza[|t0|..] == Apertura(cfg) + [Qos(0, cfg.prefetch, false, false)];
        return None;
      }
      ghost var t1 := fabrica.traza;
      assert t1[|t0|..] == Apertura(cfg) + CalidadServicio(cfg, true);
      d := DeclararCola(fabrica, n, cfg);
      ghost var a := Apertura(cfg) + CalidadServicio(cfg, true);
      ghost var t := fabrica.traza[|t0|..];
      assert t[..|a|] == a;
      assert t[|a|..] == fabrica.traza[|t1|..];
    }

    /**
      One `BasicGet` without auto-ack on queue `n` and, when it yields a delivery, one `BasicNack` of that
      delivery with requeue. A delivery both fetched and requeued leaves the queues and the pending
      deliveries as they were.
    */
    method ObtenerYDevolver(n: string) returns (m: Obtencion, devuelto: bool)
      requires fabrica.Valid() && n in fabrica.colas && !fabrica.canalCerrado
      modifies fabrica
      ensures fabrica.Valid() && n in fabrica.colas && !fabrica.canalCerrado
      ensures fabrica.traza == old(fabrica.traza) + Ronda(n, m, devuelto)
      ensures m.Vacio? || (m.Obtenido? && devuelto) ==>
        fabrica.colas == old(fabrica.colas) && fabrica.pendientes == old(fabrica.pendientes)
    {
      ghost var colas0 := fabrica.colas;
      ghost var pendientes0 := fabrica.pendientes;
      devuelto := false;
      m := fabrica.BasicGet(n, false);
      if m.Obtenido? {
        devuelto := fabrica.BasicNack(m.entrega.etiqueta, false, true);
        if devuelto {
          ObtenerYReencolar(colas0, n, m.entrega.cuerpo);
          EntregarYSaldar(pendientes0, m.entrega.etiqueta, (n, m.entrega.cuerpo));
        }
      }
    }

    /** Lines 57-76 of `EnviarAsync`: the mandatory publish, then one get and the nack that requeues it. */
    method PublicarYLeer(s: SO.SolicitudOperacionCola, n: string, cfg: CC.ConfiguracionConexionRabbit,
                         idMensaje: string, marcaTiempo: int)
      returns (r: Option<ResultadoOperacionCola<string>>)
      requires fabrica.Valid() && n in fabrica.colas && !fabrica.canalCerrado
      modifies fabrica
      ensures fabrica.Valid()
      ensures old(fabrica.traza) <= fabrica.traza
      ensures EnvioPublicado(s, n, CrearPropiedadesMensaje(s, cfg, idMensaje, marcaTiempo),
                             fabrica.traza[|old(fabrica.traza)|..], r)
      ensures r.Some? && r.value.EsExitoso() ==>
        && fabrica.pendientes == old(fabrica.pendientes)
        && fabrica.colas == ColasPublicadas(old(fabrica.colas), n, CodificarContenido(s.contenido))
    {
      ghost var t0 := fabrica.traza;
      var cuerpo := CodificarContenido(s.contenido);
      var propiedades := CrearPropiedadesMensaje(s, cfg, idMensaje, marcaTiempo);
      var publicado := fabrica.BasicPublish([], n, true, propiedades, cuerpo);
      ghost var publicacion := Publicacion([], n, true, propiedades, cuerpo, publicado);
      if !publicado {
        assert fabrica.traza[|t0|..] == [publicacion];
        return None;
      }
      var obtenido, devuelto := ObtenerYDevolver(n);
      ghost var u := fabrica.traza[|t0|..];
      assert u == [publicacion, Obtener(n, false, obtenido)]
                  + (if obtenido.Obtenido? then [Rechazo(obtenido.entrega.etiqueta, false, true, devuelto)] else []);
      if obtenido.AveriaObtencion? {
        return None;
      }
      if obtenido.Vacio? {
        ErroresLimpios();
        var f := CrearFalloExacto([ErrorNoDisponible], MensajeFalloPredeterminado);
        return Some(f);
      }
      var contenido := DecodificarMensaje(obtenido.entrega.cuerpo);
      if !devuelto {
        return None;
      }
      r := Some(CrearExito(contenido, MensajeEnviado));
    }

    /** Lines 50-76 of `EnviarAsync`; `None` is a fault the `catch` handles. */
    method EnviarTrasDeclarar(s: SO.SolicitudOperacionCola, n: string, cfg: CC.ConfiguracionConexionRabbit,
                              info: DeclaracionOk, idMensaje: string, marcaTiempo: int)
      returns (r: Option<ResultadoOperacionCola<string>>)
      requires fabrica.Valid() && n in fabrica.colas && !fabrica.canalCerrado
      modifies fabrica
      ensures fabrica.Valid()
      ensures old(fabrica.traza) <= fabrica.traza
      ensures EnvioTrasDeclarar(s, n, CrearPropiedadesMensaje(s, cfg, idMensaje, marcaTiempo), info,
                                fabrica.traza[|old(fabrica.traza)|..], r)
      ensures r.Some? && r.value.EsExitoso() ==>
        && fabrica.pendientes == old(fabrica.pendientes)
        && fabrica.colas == ColasPublicadas(old(fabrica.colas), n, CodificarContenido(s.contenido))
    {
      ghost var t0 := fabrica.traza;
      if info.consumidores == 0 && !s.permitirPublicarSinSuscriptores {
        ErroresLimpios();
        var f := CrearFalloExacto([ErrorSinSuscriptor], MensajeEnvioImposible);
        assert fabrica.traza[|t0|..] == [];
        return Some(f);
      }
      r := PublicarYLeer(s, n, cfg, idMensaje, marcaTiempo);
    }

    /**
      Lines 159-171 of `SuscribirAsync`: up to `limite` rounds of one get and one nack with requeue,
      collecting the decoded bodies; `None` is a fault the `catch` handles.
    */
    method Muestrear(n: string, limite: nat) returns (r: Option<seq<string>>)
      requires fabrica.Valid() && n in fabrica.colas && !fabrica.canalCerrado
      modifies fabrica
      ensures fabrica.Valid()
      ensures old(fabrica.traza) <= fabrica.traza
      ensures MuestreoConforme(n, limite, fabrica.traza[|old(fabrica.traza)|..], r)
      ensures r.Some? ==> fabrica.colas == old(fabrica.colas) && fabrica.pendientes == old(fabrica.pendientes)
    {
      ghost var t0 := fabrica.traza;
      ghost var es: seq<Entrega> := [];
      var resumen: seq<string> := [];
      var i := 0;
      while i < limite
        invariant 0 <= i <= limite && |es| == i
        invariant fabrica.Valid() && n in fabrica.colas && !fabrica.canalCerrado
        invariant fabrica.traza == t0 + Muestreo(n, es)
        invariant resumen == Resumen(es)
        invariant fabrica.colas == old(fabrica.colas) && fabrica.pendientes == old(fabrica.pendientes)
      {
        var mensaje, devuelto := ObtenerYDevolver(n);
        if !(mensaje.Obtenido? && devuelto) {
          r := if mensaje.Vacio? then Some(resumen) else None;
          FinTrasRonda(n, limite, es, mensaje, devuelto);
          assert fabrica.traza[|t0|..] == Muestreo(n, es) + Ronda(n, mensaje, devuelto);
          MuestreoConformeDe(n, limite, fabrica.traza[|t0|..], es, Ronda(n, mensaje, devuelto), r);
          return;
        }
        resumen := resumen + [DecodificarMensaje(mensaje.entrega.cuerpo)];
        assert (es + [mensaje.entrega])[..|es|] == es;
        es := es + [mensaje.entrega];
        i := i + 1;
      }
      assert fabrica.traza[|t0|..] == Muestreo(n, es) + [];
      assert FinDeMuestreo(n, limite, es, [], Some(resumen));
      MuestreoConformeDe(n, limite, fabrica.traza[|t0|..], es, [], Some(resumen));
      r := Some(resumen);
    }

    /** Lines 108-118 of `PublicarAsync`: the mandatory publish to the declared queue `n`. */
    method PublicarTrasDeclarar(s: SO.SolicitudOperacionCola, n: string, cfg: CC.ConfiguracionConexionRabbit,
                                idMensaje: string, marcaTiempo: int)
      returns (e: Option<ResultadoOperacionCola<bool>>)
      requires fabrica.Valid() && n in fabrica.colas && !fabrica.canalCerrado
      modifies fabrica
      ensures fabrica.Valid()
      ensures old(fabrica.traza) <= fabrica.traza
      ensures PublicacionTrasDeclarar(s, n, CrearPropiedadesMensaje(s, cfg, idMensaje, marcaTiempo),
                                      fabrica.traza[|old(fabrica.traza)|..], e)
      ensures e.Some? ==>
        && fabrica.pendientes == old(fabrica.pendientes)
        && fabrica.colas == ColasPublicadas(old(fabrica.colas), n, CodificarContenido(s.contenido))
    {
      ghost var t0 := fabrica.traza;
      var cuerpo := CodificarContenido(s.contenido);
      var propiedades := CrearPropiedadesMensaje(s, cfg, idMensaje, marcaTiempo);
      var publicado := fabrica.BasicPublish([], n, true, propiedades, cuerpo);
      assert fabrica.traza[|t0|..] == [Publicacion([], n, true, propiedades, cuerpo, publicado)];
      if !publicado {
        return None;
      }
      e := Some(CrearExito(true, MensajePublicado));
    }

    /** Lines 152-182 of `SuscribirAsync`: the sample of the declared queue `n`, reported with `info`'s counts. */
    method ConsultarTrasDeclarar(s: SE.SolicitudEstadoCola, n: string, info: DeclaracionOk)
      returns (e: Option<ResultadoOperacionCola<EstadoColaDetalle>>, ghost u: seq<Llamada>)
      requires fabrica.Valid() && n in fabrica.colas && !fabrica.canalCerrado
      modifies fabrica
      ensures fabrica.Valid()
      ensures fabrica.traza == old(fabrica.traza) + u
      ensures SuscripcionTrasDeclarar(s, n, info, u, e)
      ensures e.Some? ==> fabrica.colas == old(fabrica.colas) && fabrica.pendientes == old(fabrica.pendientes)
    {
      ghost var t0 := fabrica.traza;
      var resumen := Muestrear(n, Limite(s, info));
      u := fabrica.traza[|t0|..];
      assert fabrica.traza == t0 + u;
      if resumen.None? {
        return None, u;
      }
      e := Some(CrearExito(EstadoColaDetalle(n, info.mensajes, info.consumidores, resumen.value),
                           MensajeEstadoRecuperado));
    }

    /**
      Lines 42-48 of `EnviarAsync`, the same in every operation: the configuration in force, the queue
      name, the connection, the channel, the prefetch window and the declaration. `d` is `None` for an
      exception; otherwise `cfg` is the configuration read and `n` the queue, declared on an open channel.
    */
    method PrepararCola(solicitado: Option<string>)
      returns (cfg: CC.ConfiguracionConexionRabbit, n: string, d: Option<DeclaracionOk>)
      requires fabrica.Valid()
      modifies fabrica
      ensures fabrica.Valid()
      ensures old(fabrica.traza) <= fabrica.traza
      ensures HastaDeclarar(ConfiguracionLeida(contexto), solicitado, fabrica.traza[|old(fabrica.traza)|..], d)
      ensures fabrica.pendientes == old(fabrica.pendientes)
      ensures d.Some? ==>
        && ConfiguracionLeida(contexto) == Some(cfg) && ResolverNombreCola(solicitado, cfg) == Some(n)
        && fabrica.colas == ColasDeclaradas(old(fabrica.colas), n, cfg.persistirMensajes)
        && d.value == Informe(n, fabrica.colas[n]) && !fabrica.canalCerrado
    {
      ghost var t0 := fabrica.traza;
      var leida := contexto.ObtenerConfiguracionActual();
      if leida.None? || ResolverNombreCola(solicitado, leida.value).None? {
        assert fabrica.traza[|t0|..] == [];
        return CC.Predeterminada(), "", None;
      }
      cfg := leida.value;
      n := ResolverNombreCola(solicitado, cfg).value;
      d := AbrirYDeclarar(cfg, n);
    }

    /**
      The `try` block of `EnviarAsync` from line 50 on, once queue `n` is declared and reported `info`; `t0`,
      `colas0` and `pendientes0` are the broker as the block found it.
    */
    method EnviarDeclarada(s: SO.SolicitudOperacionCola, idMensaje: string, marcaTiempo: int,
                           cfg: CC.ConfiguracionConexionRabbit, n: string, info: DeclaracionOk,
                           ghost t0: seq<Llamada>, ghost p: seq<Llamada>, ghost colas0: map<string, Cola>,
                           ghost pendientes0: map<nat, (string, seq<byte>)>)
      returns (e: Option<ResultadoOperacionCola<string>>, ghost t: seq<Llamada>)
      requires fabrica.Valid() && n in fabrica.colas && !fabrica.canalCerrado
      requires fabrica.traza == t0 + p && HastaDeclarar(Some(cfg), s.nombreCola, p, Some(info))
      requires ResolverNombreCola(s.nombreCola, cfg) == Some(n)
      requires fabrica.colas == ColasDeclaradas(colas0, n, cfg.persistirMensajes) && fabrica.pendientes == pendientes0
      modifies fabrica
      ensures fabrica.Valid() && fabrica.traza == t0 + t
      ensures EnvioIntento(Some(cfg), s, idMensaje, marcaTiempo, t, e)
      ensures e.Some? && e.value.EsExitoso() ==>
        PublicadoEn(colas0, pendientes0, fabrica.colas, fabrica.pendientes, Some(cfg), s)
    {
      ghost var t1 := fabrica.traza;
      e := EnviarTrasDeclarar(s, n, cfg, info, idMensaje, marcaTiempo);
      ghost var u := fabrica.traza[|t1|..];
      assert fabrica.traza == t1 + u;
      t := p + u;
      TrazaAsociativa(t0, p, u);
      EnvioIntentoDe(Some(cfg), s, idMensaje, marcaTiempo, t, p, u, Some(info), e, cfg, n);
      if e.Some? && e.value.EsExitoso() {
        PublicadoEnDe(colas0, pendientes0, fabrica.colas, fabrica.pendientes, Some(cfg), s, cfg, n);
      }
    }

    /**
      The `try` block of `PublicarAsync` from line 108 on, once queue `n` is declared and reported `info`;
      `t0`, `colas0` and `pendientes0` are the broker as the block found it.
    */
    method PublicarDeclarada(s: SO.SolicitudOperacionCola, idMensaje: string, marcaTiempo: int,
                             cfg: CC.ConfiguracionConexionRabbit, n: string, info: DeclaracionOk,
                             ghost t0: seq<Llamada>, ghost p: seq<Llamada>, ghost colas0: map<string, Cola>,
                             ghost pendientes0: map<nat, (string, seq<byte>)>)
      returns (e: Option<ResultadoOperacionCola<bool>>, ghost t: seq<Llamada>)
      requires fabrica.Valid() && n in fabrica.colas && !fabrica.canalCerrado
      requires fabrica.traza == t0 + p && HastaDeclarar(Some(cfg), s.nombreCola, p, Some(info))
      requires ResolverNombreCola(s.nombreCola, cfg) == Some(n)
      requires fabrica.colas == ColasDeclaradas(colas0, n, cfg.persistirMensajes) && fabrica.pendientes == pendientes0
      modifies fabrica
      ensures fabrica.Valid() && fabrica.traza == t0 + t
      ensures PublicacionIntento(Some(cfg), s, idMensaje, marcaTiempo, t, e)
      ensures e.Some? ==>
        PublicadoEn(colas0, pendientes0, fabrica.colas, fabrica.pendientes, Some(cfg), s)
    {
      ghost var t1 := fabrica.traza;
      e := PublicarTrasDeclarar(s, n, cfg, idMensaje, marcaTiempo);
      ghost var u := fabrica.traza[|t1|..];
      assert fabrica.traza == t1 + u;
      t := p + u;
      TrazaAsociativa(t0, p, u);
      PublicacionIntentoDe(Some(cfg), s, idMensaje, marcaTiempo, t, p, u, Some(info), e, cfg, n);
      if e.Some? {
        PublicadoEnDe(colas0, pendientes0, fabrica.colas, fabrica.pendientes, Some(cfg), s, cfg, n);
      }
    }

    /**
      The `try` block of `SuscribirAsync` from line 152 on, once queue `n` is declared and reported `info`;
      `t0`, `colas0` and `pendientes0` are the broker as the block found it.
    */
    method ConsultarDeclarada(s: SE.SolicitudEstadoCola, cfg: CC.ConfiguracionConexionRabbit, n: string,
                              info: DeclaracionOk, ghost t0: seq<Llamada>, ghost p: seq<Llamada>,
                              ghost colas0: map<string, Cola>, ghost pendientes0: map<nat, (string, seq<byte>)>)
      returns (e: Option<ResultadoOperacionCola<EstadoColaDetalle>>, ghost t: seq<Llamada>)
      requires fabrica.Valid() && n in fabrica.colas && !fabrica.canalCerrado
      requires fabrica.traza == t0 + p && HastaDeclarar(Some(cfg), s.nombreCola, p, Some(info))
      requires ResolverNombreCola(s.nombreCola, cfg) == Some(n)
      requires fabrica.colas == ColasDeclaradas(colas0, n, cfg.persistirMensajes) && fabrica.pendientes == pendientes0
      modifies fabrica
      ensures fabrica.Valid() && fabrica.traza == t0 + t
      ensures SuscripcionIntento(Some(cfg), s, t, e)
      ensures e.Some? ==>
        ConsultadoEn(colas0, pendientes0, fabrica.colas, fabrica.pendientes, Some(cfg), s)
    {
      ghost var u;
      e, u := ConsultarTrasDeclarar(s, n, info);
      t := p + u;
      TrazaAsociativa(t0, p, u);
      SuscripcionIntentoDe(Some(cfg), s, t, p, u, Some(info), e, cfg, n);
      if e.Some? {
        ConsultadoEnDe(colas0, pendientes0, fabrica.colas, fabrica.pendientes, Some(cfg), s, cfg, n);
      }
    }

    /** The `try` block of `EnviarAsync`; `None` is the exception its `catch` receives. */
    method IntentarEnvio(s: SO.SolicitudOperacionCola, idMensaje: string, marcaTiempo: int)
      returns (e: Option<ResultadoOperacionCola<string>>)
      requires fabrica.Valid()
      modifies fabrica
      ensures fabrica.Valid()
      ensures old(fabrica.traza) <= fabrica.traza
      ensures EnvioIntento(ConfiguracionLeida(contexto), s, idMensaje, marcaTiempo,
                           fabrica.traza[|old(fabrica.traza)|..], e)
      ensures e.Some? && e.value.EsExitoso() ==>
        PublicadoEn(old(fabrica.colas), old(fabrica.pendientes), fabrica.colas, fabrica.pendientes,
                    ConfiguracionLeida(contexto), s)
    {
      ghost var t0 := fabrica.traza;
      ghost var colas0, pendientes0 := fabrica.colas, fabrica.pendientes;
      var cfg, n, d := PrepararCola(s.nombreCola);
      if d.None? {
        assert fabrica.traza[|t0|..] == fabrica.traza[|t0|..] + [];
        EnvioIntentoDe(ConfiguracionLeida(contexto), s, idMensaje, marcaTiempo, fabrica.traza[|t0|..], fabrica.traza[|t0|..], [], d, None, cfg, n);
        return None;
      }
      ghost var p := fabrica.traza[|t0|..];
      assert fabrica.traza == t0 + p;
      ghost var t;
      e, t := EnviarDeclarada(s, idMensaje, marcaTiempo, cfg, n, d.value, t0, p, colas0, pendientes0);
      assert fabrica.traza[|t0|..] == t;
    }

    /** The `try` block of `PublicarAsync`; `None` is the exception its `catch` receives. */
    method IntentarPublicacion(s: SO.SolicitudOperacionCola, idMensaje: string, marcaTiempo: int)
      returns (e: Option<ResultadoOperacionCola<bool>>)
      requires fabrica.Valid()
      modifies fabrica
      ensures fabrica.Valid()
      ensures old(fabrica.traza) <= fabrica.traza
      ensures PublicacionIntento(ConfiguracionLeida(contexto), s, idMensaje, marcaTiempo,
                                 fabrica.traza[|old(fabrica.traza)|..], e)
      ensures e.Some? ==>
        PublicadoEn(old(fabrica.colas), old(fabrica.pendientes), fabrica.colas, fabrica.pendientes,
                    ConfiguracionLeida(contexto), s)
    {
      ghost var t0 := fabrica.traza;
      ghost var colas0, pendientes0 := fabrica.colas, fabrica.pendientes;
      var cfg, n, d := PrepararCola(s.nombreCola);
      if d.None? {
        assert fabrica.traza[|t0|..] == fabrica.traza[|t0|..] + [];
        PublicacionIntentoDe(ConfiguracionLeida(contexto), s, idMensaje, marcaTiempo, fabrica.traza[|t0|..], fabrica.traza[|t0|..], [], d, None, cfg, n);
        return None;
      }
      ghost var p := fabrica.traza[|t0|..];
      assert fabrica.traza == t0 + p;
      ghost var t;
      e, t := PublicarDeclarada(s, idMensaje, marcaTiempo, cfg, n, d.value, t0, p, colas0, pendientes0);
      assert fabrica.traza[|t0|..] == t;
    }

    /** The `try` block of `SuscribirAsync`; `None` is the exception its `catch` receives. */
    method IntentarSuscripcion(s: SE.SolicitudEstadoCola)
      returns (e: Option<ResultadoOperacionCola<EstadoColaDetalle>>)
      requires fabrica.Valid()
      modifies fabrica
      ensures fabrica.Valid()
      ensures old(fabrica.traza) <= fabrica.traza
      ensures SuscripcionIntento(ConfiguracionLeida(contexto), s, fabrica.traza[|old(fabrica.traza)|..], e)
      ensures e.Some? ==>
        ConsultadoEn(old(fabrica.colas), old(fabrica.pendientes), fabrica.colas, fabrica.pendientes,
                     ConfiguracionLeida(contexto), s)
    {
      ghost var t0 := fabrica.traza;
      ghost var colas0, pendientes0 := fabrica.colas, fabrica.pendientes;
      var cfg, n, d := PrepararCola(s.nombreCola);
      if d.None? {
        assert fabrica.traza[|t0|..] == fabrica.traza[|t0|..] + [];
        SuscripcionIntentoDe(ConfiguracionLeida(contexto), s, fabrica.traza[|t0|..], fabrica.traza[|t0|..], [], d, None, cfg, n);
        return None;
      }
      ghost var p := fabrica.traza[|t0|..];
      assert fabrica.traza == t0 + p;
      ghost var t;
      e, t := ConsultarDeclarada(s, cfg, n, d.value, t0, p, colas0, pendientes0);
      assert fabrica.traza[|t0|..] == t;
    }

    /** The `try` block of `EnviarAsync` and its `catch`: a fault is logged and becomes the fixed failure. */
    method EjecutarEnvio(s: SO.SolicitudOperacionCola, idMensaje: string, marcaTiempo: int) returns (r: ResultadoOperacionCola<string>)
      requires fabrica.Valid()
      modifies fabrica, administradorLog
      ensures fabrica.Valid()
      ensures old(fabrica.traza) <= fabrica.traza
      ensures exists e | EnvioIntento(ConfiguracionLeida(contexto), s, idMensaje, marcaTiempo, fabrica.traza[|old(fabrica.traza)|..], e) ::
        && r == Capturar(e, ErrorEnvio)
        && administradorLog.eventos == Registrado(old(administradorLog.eventos), e.None?, "EnviarAsync")
      ensures r.EsExitoso() ==>
        PublicadoEn(old(fabrica.colas), old(fabrica.pendientes), fabrica.colas, fabrica.pendientes, ConfiguracionLeida(contexto), s)
    {
      ghost var t0 := fabrica.traza;
      ghost var eventos0 := administradorLog.eventos;
      ghost var colas0, pendientes0 := fabrica.colas, fabrica.pendientes;
      var e := IntentarEnvio(s, idMensaje, marcaTiempo);
      if e.None? {
        ErroresLimpios();
        r := RegistrarErrorAsync("EnviarAsync", ErrorEnvio);
        assert !r.EsExitoso();
      } else {
        r := e.value;
        assert r.EsExitoso() ==>
          PublicadoEn(colas0, pendientes0, fabrica.colas, fabrica.pendientes, ConfiguracionLeida(contexto), s);
      }
      assert EnvioIntento(ConfiguracionLeida(contexto), s, idMensaje, marcaTiempo, fabrica.traza[|t0|..], e)
             && r == Capturar(e, ErrorEnvio) && administradorLog.eventos == Registrado(eventos0, e.None?, "EnviarAsync");
    }

    /**
      `EnviarAsync`: an invalid request is refused with its errors before any call; otherwise the `try`
      block runs, and an exception in it is logged and becomes the fixed failure.
    */
    method EnviarAsync(solicitud: Option<SO.SolicitudOperacionCola>, idMensaje: string, marcaTiempo: int)
      returns (r: ResultadoOperacionCola<string>)
      requires fabrica.Valid()
      modifies fabrica, administradorLog
      ensures fabrica.Valid()
      ensures old(fabrica.traza) <= fabrica.traza
      ensures ValidarSolicitudOperacion(solicitud, SO.Enviar) != [] ==>
        && r == Fallo(ValidarSolicitudOperacion(solicitud, SO.Enviar), MensajeEnvioInvalido)
        && fabrica.traza == old(fabrica.traza)
        && fabrica.colas == old(fabrica.colas) && fabrica.pendientes == old(fabrica.pendientes)
        && administradorLog.eventos == old(administradorLog.eventos)
      ensures ValidarSolicitudOperacion(solicitud, SO.Enviar) == [] ==>
        exists e | EnvioIntento(ConfiguracionLeida(contexto), solicitud.value, idMensaje, marcaTiempo,
                                fabrica.traza[|old(fabrica.traza)|..], e) ::
          && r == Capturar(e, ErrorEnvio)
          && administradorLog.eventos == Registrado(old(administradorLog.eventos), e.None?, "EnviarAsync")
      ensures r.EsExitoso() ==>
        && solicitud.Some?
        && PublicadoEn(old(fabrica.colas), old(fabrica.pendientes), fabrica.colas, fabrica.pendientes,
                       ConfiguracionLeida(contexto), solicitud.value)
    {
      var errores := ValidarSolicitudOperacion(solicitud, SO.Enviar);
      if errores != [] {
        r := CrearFalloExacto(errores, MensajeEnvioInvalido);
        return;
      }
      r := EjecutarEnvio(solicitud.value, idMensaje, marcaTiempo);
    }

    /** The `try` block of `PublicarAsync` and its `catch`: a fault is logged and becomes the fixed failure. */
    method EjecutarPublicacion(s: SO.SolicitudOperacionCola, idMensaje: string, marcaTiempo: int) returns (r: ResultadoOperacionCola<bool>)
      requires fabrica.Valid()
      modifies fabrica, administradorLog
      ensures fabrica.Valid()
      ensures old(fabrica.traza) <= fabrica.traza
      ensures exists e | PublicacionIntento(ConfiguracionLeida(contexto), s, idMensaje, marcaTiempo, fabrica.traza[|old(fabrica.traza)|..], e) ::
        && r == Capturar(e, ErrorPublicacion)
        && administradorLog.eventos == Registrado(old(administradorLog.eventos), e.None?, "PublicarAsync")
      ensures r.EsExitoso() ==>
        PublicadoEn(old(fabrica.colas), old(fabrica.pendientes), fabrica.colas, fabrica.pendientes, ConfiguracionLeida(contexto), s)
    {
      ghost var t0 := fabrica.traza;
      ghost var eventos0 := administradorLog.eventos;
      ghost var colas0, pendientes0 := fabrica.colas, fabrica.pendientes;
      var e := IntentarPublicacion(s, idMensaje, marcaTiempo);
      if e.None? {
        ErroresLimpios();
        r := RegistrarErrorAsync("PublicarAsync", ErrorPublicacion);
        assert !r.EsExitoso();
      } else {
        r := e.value;
        assert r.EsExitoso() ==>
          PublicadoEn(colas0, pendientes0, fabrica.colas, fabrica.pendientes, ConfiguracionLeida(contexto), s);
      }
      assert PublicacionIntento(ConfiguracionLeida(contexto), s, idMensaje, marcaTiempo, fabrica.traza[|t0|..], e)
             && r == Capturar(e, ErrorPublicacion) && administradorLog.eventos == Registrado(eventos0, e.None?, "PublicarAsync");
    }

    /**
      `PublicarAsync`: an invalid request is refused with its errors before any call; otherwise the `try`
      block runs, and an exception in it is logged and becomes the fixed failure.
    */
    method PublicarAsync(solicitud: Option<SO.SolicitudOperacionCola>, idMensaje: string, marcaTiempo: int)
      returns (r: ResultadoOperacionCola<bool>)
      requires fabrica.Valid()
      modifies fabrica, administradorLog
      ensures fabrica.Valid()
      ensures old(fabrica.traza) <= fabrica.traza
      ensures ValidarSolicitudOperacion(solicitud, SO.Publicar) != [] ==>
        && r == Fallo(ValidarSolicitudOperacion(solicitud, SO.Publicar), MensajePublicacionInvalida)
        && fabrica.traza == old(fabrica.traza)
        && fabrica.colas == old(fabrica.colas) && fabrica.pendientes == old(fabrica.pendientes)
        && administradorLog.eventos == old(administradorLog.eventos)
      ensures ValidarSolicitudOperacion(solicitud, SO.Publicar) == [] ==>
        exists e | PublicacionIntento(ConfiguracionLeida(contexto), solicitud.value, idMensaje, marcaTiempo,
                                      fabrica.traza[|old(fabrica.traza)|..], e) ::
          && r == Capturar(e, ErrorPublicacion)
          && administradorLog.eventos == Registrado(old(administradorLog.eventos), e.None?, "PublicarAsync")
      ensures r.EsExitoso() ==>
        && solicitud.Some?
        && PublicadoEn(old(fabrica.colas), old(fabrica.pendientes), fabrica.colas, fabrica.pendientes,
                       ConfiguracionLeida(contexto), solicitud.value)
    {
      var errores := ValidarSolicitudOperacion(solicitud, SO.Publicar);
      if errores != [] {
        r := CrearFalloExacto(errores, MensajePublicacionInvalida);
        return;
      }
      r := EjecutarPublicacion(solicitud.value, idMensaje, marcaTiempo);
    }

    /** The `try` block of `SuscribirAsync` and its `catch`: a fault is logged and becomes the fixed failure. */
    method EjecutarSuscripcion(s: SE.SolicitudEstadoCola) returns (r: ResultadoOperacionCola<EstadoColaDetalle>)
      requires fabrica.Valid()
      modifies fabrica, administradorLog
      ensures fabrica.Valid()
      ensures old(fabrica.traza) <= fabrica.traza
      ensures exists e | SuscripcionIntento(ConfiguracionLeida(contexto), s, fabrica.traza[|old(fabrica.traza)|..], e) ::
        && r == Capturar(e, ErrorSuscripcion)
        && administradorLog.eventos == Registrado(old(administradorLog.eventos), e.None?, "SuscribirAsync")
      ensures r.EsExitoso() ==>
        ConsultadoEn(old(fabrica.colas), old(fabrica.pendientes), fabrica.colas, fabrica.pendientes, ConfiguracionLeida(contexto), s)
    {
      ghost var t0 := fabrica.traza;
      ghost var eventos0 := administradorLog.eventos;
      ghost var colas0, pendientes0 := fabrica.colas, fabrica.pendientes;
      var e := IntentarSuscripcion(s);
      if e.None? {
        ErroresLimpios();
        r := RegistrarErrorAsync("SuscribirAsync", ErrorSuscripcion);
        assert !r.EsExitoso();
      } else {
        r := e.value;
        assert r.EsExitoso() ==>
          ConsultadoEn(colas0, pendientes0, fabrica.colas, fabrica.pendientes, ConfiguracionLeida(contexto), s);
      }
      assert SuscripcionIntento(ConfiguracionLeida(contexto), s, fabrica.traza[|t0|..], e)
             && r == Capturar(e, ErrorSuscripcion) && administradorLog.eventos == Registrado(eventos0, e.None?, "SuscribirAsync");
    }

    /**
      `SuscribirAsync`: an invalid request is refused with its errors before any call; otherwise the `try`
      block runs, and an exception in it is logged and becomes the fixed failure.
    */
    method SuscribirAsync(solicitud: Option<SE.SolicitudEstadoCola>)
      returns (r: ResultadoOperacionCola<EstadoColaDetalle>)
      requires fabrica.Valid()
      modifies fabrica, administradorLog
      ensures fabrica.Valid()
      ensures old(fabrica.traza) <= fabrica.traza
      ensures ValidarSolicitudEstado(solicitud) != [] ==>
        && r == Fallo(ValidarSolicitudEstado(solicitud), MensajeSuscripcionInvalida)
        && fabrica.traza == old(fabrica.traza)
        && fabrica.colas == old(fabrica.colas) && fabrica.pendientes == old(fabrica.pendientes)
        && administradorLog.eventos == old(administradorLog.eventos)
      ensures ValidarSolicitudEstado(solicitud) == [] ==>
        exists e | SuscripcionIntento(ConfiguracionLeida(contexto), solicitud.value,
                                      fabrica.traza[|old(fabrica.traza)|..], e) ::
          && r == Capturar(e, ErrorSuscripcion)
          && administradorLog.eventos == Registrado(old(administradorLog.eventos), e.None?, "SuscribirAsync")
      ensures r.EsExitoso() ==>
        && solicitud.Some?
        && ConsultadoEn(old(fabrica.colas), old(fabrica.pendientes), fabrica.colas, fabrica.pendientes,
                        ConfiguracionLeida(contexto), solicitud.value)
    {
      var errores := ValidarSolicitudEstado(solicitud);
      if errores != [] {
        r := CrearFalloExacto(errores, MensajeSuscripcionInvalida);
        return;
      }
      r := EjecutarSuscripcion(solicitud.value);
    }
  }
}
