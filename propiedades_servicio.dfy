/**
  What the engine's operations promise over all their runs, read off the calls they make: how many
  messages each publishes, fetches and requeues, that the prefetch window is set exactly when configured,
  that the fixed failure only ever comes from an exception, and how names and contents come back.
*/
module PropiedadesServicio {
  import opened Tipos
  import opened Texto
  import Utf8
  import opened Resultados
  import CC = ConfiguracionConexion
  import SO = SolicitudOperacion
  import SE = SolicitudEstado
  import opened EstadoCola
  import opened Broker
  import opened Servicio

  /** The kinds of call counted. */
  datatype Clase = DePublicacion | DeObtencion | DeRechazo | DeQos

  predicate EsDe(l: Llamada, c: Clase) {
    match c
    case DePublicacion => l.Publicacion?
    case DeObtencion => l.Obtener?
    case DeRechazo => l.Rechazo?
    case DeQos => l.Qos?
  }

  /** How many calls of kind `c` a run made. */
  function Cuenta(t: seq<Llamada>, c: Clase): (k: nat)
    ensures k <= |t|
  {
    if t == [] then 0 else (if EsDe(t[0], c) then 1 else 0) + Cuenta(t[1..], c)
  }

  lemma {:induction false} CuentaConcatenada(a: seq<Llamada>, b: seq<Llamada>, c: Clase)
    ensures Cuenta(a + b, c) == Cuenta(a, c) + Cuenta(b, c)
  {
    if a == [] {
      assert a + b == b;
    } else {
      assert (a + b)[1..] == a[1..] + b;
      CuentaConcatenada(a[1..], b, c);
    }
  }

  lemma {:induction false} CuentaNula(t: seq<Llamada>, c: Clase)
    requires forall i | 0 <= i < |t| :: !EsDe(t[i], c)
    ensures Cuenta(t, c) == 0
  {
    if t != [] {
      CuentaNula(t[1..], c);
    }
  }

  lemma CuentaUna(l: Llamada, c: Clase)
    ensures Cuenta([l], c) == if EsDe(l, c) then 1 else 0
  {
    assert [l][1..] == [];
  }

  /** A call that sets up the connection, the channel, the prefetch window or the queue. */
  predicate DeApertura(l: Llamada) {
    l.CrearConexion? || l.CrearCanal? || l.Qos? || l.DeclaracionPasiva? || l.Declaracion?
  }

  /** Every call up to the declaration is a set-up call. */
  lemma PreambuloDeApertura(cfg: CC.ConfiguracionConexionRabbit, n: string, t: seq<Llamada>, d: Option<DeclaracionOk>)
    requires EsPreambulo(cfg, n, t, d)
    ensures forall i | 0 <= i < |t| :: DeApertura(t[i])
  {
    var a := Apertura(cfg) + CalidadServicio(cfg, true);
    if |a| <= |t| && t[..|a|] == a && EsDeclaracion(cfg, n, t[|a|..], d) {
      forall i | 0 <= i < |t| ensures DeApertura(t[i]) {
        if i < |a| {
          assert t[i] == t[..|a|][i];
        } else {
          assert t[i] == t[|a|..][i - |a|];
        }
      }
    }
  }

  /** The calls up to the declaration publish, fetch and settle nothing. */
  lemma PreambuloSinMensajes(cfg: CC.ConfiguracionConexionRabbit, n: string, t: seq<Llamada>, d: Option<DeclaracionOk>)
    requires EsPreambulo(cfg, n, t, d)
    ensures Cuenta(t, DePublicacion) == 0 && Cuenta(t, DeObtencion) == 0 && Cuenta(t, DeRechazo) == 0
  {
    PreambuloDeApertura(cfg, n, t, d);
    CuentaNula(t, DePublicacion);
    CuentaNula(t, DeObtencion);
    CuentaNula(t, DeRechazo);
  }

  /**
    Once the queue is declared, the prefetch window has been set exactly once when the configuration has
    a positive prefetch, and never otherwise.
  */
  lemma CalidadServicioSegunPrefetch(cfg: CC.ConfiguracionConexionRabbit, n: string, t: seq<Llamada>, d: Option<DeclaracionOk>)
    requires EsPreambulo(cfg, n, t, d) && d.Some?
    ensures Cuenta(t, DeQos) == if cfg.prefetch > 0 then 1 else 0
  {
    var a := Apertura(cfg) + CalidadServicio(cfg, true);
    var resto := t[|a|..];
    assert t == Apertura(cfg) + CalidadServicio(cfg, true) + resto;
    CuentaConcatenada(Apertura(cfg) + CalidadServicio(cfg, true), resto, DeQos);
    CuentaConcatenada(Apertura(cfg), CalidadServicio(cfg, true), DeQos);
    CuentaNula(Apertura(cfg), DeQos);
    CuentaNula(resto, DeQos);
    if cfg.prefetch > 0 {
      CuentaUna(Qos(0, cfg.prefetch, false, true), DeQos);
    }
  }

  /** A preamble that reaches the declaration is the only part of a run before the operation's own calls. */
  lemma HastaDeclararSinMensajes(cfg: Option<CC.ConfiguracionConexionRabbit>, solicitado: Option<string>,
                                 p: seq<Llamada>, d: Option<DeclaracionOk>)
    requires HastaDeclarar(cfg, solicitado, p, d)
    ensures Cuenta(p, DePublicacion) == 0 && Cuenta(p, DeObtencion) == 0 && Cuenta(p, DeRechazo) == 0
    ensures d.Some? ==> cfg.Some? && ResolverNombreCola(solicitado, cfg.value).Some?
  {
    if cfg.None? || ResolverNombreCola(solicitado, cfg.value).None? {
    } else {
      PreambuloSinMensajes(cfg.value, ResolverNombreCola(solicitado, cfg.value).value, p, d);
    }
  }

  /** After the declaration, a successful send is a publish, a get and a nack: one call of each kind. */
  lemma EnvioExitosoTrasDeclarar(s: SO.SolicitudOperacionCola, n: string, p: PropiedadesMensaje, info: DeclaracionOk,
                                 u: seq<Llamada>, e: Option<ResultadoOperacionCola<string>>)
    requires EnvioTrasDeclarar(s, n, p, info, u, e) && e.Some? && e.value.EsExitoso()
    ensures Cuenta(u, DePublicacion) == 1 && Cuenta(u, DeObtencion) == 1 && Cuenta(u, DeRechazo) == 1
  {
    assert |u| == 3 && u[0].Publicacion? && u[1].Obtener? && u[2].Rechazo?;
    var a, b, c := u[0], u[1], u[2];
    assert u == [a] + [b] + [c];
    forall k: Clase ensures Cuenta(u, k) == Cuenta([a], k) + Cuenta([b], k) + Cuenta([c], k) {
      CuentaConcatenada([a] + [b], [c], k);
      CuentaConcatenada([a], [b], k);
    }
    CuentaUna(a, DePublicacion);
    CuentaUna(b, DePublicacion);
    CuentaUna(c, DePublicacion);
    CuentaUna(a, DeObtencion);
    CuentaUna(b, DeObtencion);
    CuentaUna(c, DeObtencion);
    CuentaUna(a, DeRechazo);
    CuentaUna(b, DeRechazo);
    CuentaUna(c, DeRechazo);
  }

  /**
    A send that succeeds published the message once, fetched once and requeued once: the check that the
    message is available leaves it on the queue.
  */
  lemma EnvioExitosoUnaVez(cfg: Option<CC.ConfiguracionConexionRabbit>, s: SO.SolicitudOperacionCola,
                           idMensaje: string, marcaTiempo: int, t: seq<Llamada>,
                           e: Option<ResultadoOperacionCola<string>>)
    requires EnvioIntento(cfg, s, idMensaje, marcaTiempo, t, e) && e.Some? && e.value.EsExitoso()
    ensures Cuenta(t, DePublicacion) == 1 && Cuenta(t, DeObtencion) == 1 && Cuenta(t, DeRechazo) == 1
  {
    var p: seq<Llamada>, u: seq<Llamada>, d: Option<DeclaracionOk> :| t == p + u && HastaDeclarar(cfg, s.nombreCola, p, d)
                   && if d.None? then u == [] && e.None?
                      else EnvioTrasDeclarar(s, ResolverNombreCola(s.nombreCola, cfg.value).value,
                                             CrearPropiedadesMensaje(s, cfg.value, idMensaje, marcaTiempo), d.value, u, e);
    HastaDeclararSinMensajes(cfg, s.nombreCola, p, d);
    EnvioExitosoTrasDeclarar(s, ResolverNombreCola(s.nombreCola, cfg.value).value,
                             CrearPropiedadesMensaje(s, cfg.value, idMensaje, marcaTiempo), d.value, u, e);
    CuentaConcatenada(p, u, DePublicacion);
    CuentaConcatenada(p, u, DeObtencion);
    CuentaConcatenada(p, u, DeRechazo);
  }

  /** A send refused for want of subscribers published nothing, and the request had not allowed publishing anyway. */
  lemma EnvioSinSuscriptoresNoPublica(cfg: Option<CC.ConfiguracionConexionRabbit>, s: SO.SolicitudOperacionCola,
                                      idMensaje: string, marcaTiempo: int, t: seq<Llamada>,
                                      e: Option<ResultadoOperacionCola<string>>)
    requires EnvioIntento(cfg, s, idMensaje, marcaTiempo, t, e)
    requires e == Some(Fallo([ErrorSinSuscriptor], MensajeEnvioImposible))
    ensures Cuenta(t, DePublicacion) == 0 && Cuenta(t, DeObtencion) == 0 && !s.permitirPublicarSinSuscriptores
  {
    var p: seq<Llamada>, u: seq<Llamada>, d: Option<DeclaracionOk> :| t == p + u && HastaDeclarar(cfg, s.nombreCola, p, d)
                   && if d.None? then u == [] && e.None?
                      else EnvioTrasDeclarar(s, ResolverNombreCola(s.nombreCola, cfg.value).value,
                                             CrearPropiedadesMensaje(s, cfg.value, idMensaje, marcaTiempo), d.value, u, e);
    HastaDeclararSinMensajes(cfg, s.nombreCola, p, d);
    assert |MensajeEnvioImposible| != |MensajeFalloPredeterminado|;
    assert u == [];
    assert t == p;
  }

  /**
    The fixed failure of `EnviarAsync` only ever comes from an exception: no path of its `try` block
    returns it. So the failure is logged exactly when it is returned.
  */
  lemma EnvioFalloInesperadoSoloPorExcepcion(cfg: Option<CC.ConfiguracionConexionRabbit>, s: SO.SolicitudOperacionCola,
                                             idMensaje: string, marcaTiempo: int, t: seq<Llamada>,
                                             e: Option<ResultadoOperacionCola<string>>)
    requires EnvioIntento(cfg, s, idMensaje, marcaTiempo, t, e)
    ensures Capturar(e, ErrorEnvio) == FalloInesperado(ErrorEnvio) <==> e.None?
  {
    assert |MensajeEnvioImposible| != |MensajeFalloPredeterminado|;
    assert |ErrorNoDisponible| != |ErrorEnvio|;
  }

  /** An invalid request's failure is never the fixed one either: its message differs. */
  lemma ValidacionNoEsFalloInesperado(errores: seq<string>)
    ensures ResultadoOperacionCola<string>.Fallo(errores, MensajeEnvioInvalido) != FalloInesperado(ErrorEnvio)
    ensures ResultadoOperacionCola<bool>.Fallo(errores, MensajePublicacionInvalida) != FalloInesperado(ErrorPublicacion)
    ensures ResultadoOperacionCola<EstadoColaDetalle>.Fallo(errores, MensajeSuscripcionInvalida) != FalloInesperado(ErrorSuscripcion)
  {
    assert |MensajeEnvioInvalido| != |MensajeFalloPredeterminado|;
    assert |MensajePublicacionInvalida| != |MensajeFalloPredeterminado|;
    assert |MensajeSuscripcionInvalida| != |MensajeFalloPredeterminado|;
  }

  /**
    `PublicarAsync` publishes at most once and fetches nothing; it fails only by an exception, and when it
    succeeds it has published exactly once.
  */
  lemma PublicacionUnaVez(cfg: Option<CC.ConfiguracionConexionRabbit>, s: SO.SolicitudOperacionCola,
                          idMensaje: string, marcaTiempo: int, t: seq<Llamada>,
                          e: Option<ResultadoOperacionCola<bool>>)
    requires PublicacionIntento(cfg, s, idMensaje, marcaTiempo, t, e)
    ensures Cuenta(t, DeObtencion) == 0 && Cuenta(t, DeRechazo) == 0 && Cuenta(t, DePublicacion) <= 1
    ensures e.Some? ==> e.value == Exito(true, MensajePublicado) && Cuenta(t, DePublicacion) == 1
  {
    var p: seq<Llamada>, u: seq<Llamada>, d: Option<DeclaracionOk> :| t == p + u && HastaDeclarar(cfg, s.nombreCola, p, d)
                   && if d.None? then u == [] && e.None?
                      else
                        && |u| == 1 && u[0].Publicacion?
                        && u[0] == Publicacion([], ResolverNombreCola(s.nombreCola, cfg.value).value, true,
                                               CrearPropiedadesMensaje(s, cfg.value, idMensaje, marcaTiempo),
                                               CodificarContenido(s.contenido), u[0].ok)
                        && e == if u[0].ok then Some(Exito(true, MensajePublicado)) else None;
    HastaDeclararSinMensajes(cfg, s.nombreCola, p, d);
    forall c: Clase ensures Cuenta(t, c) == Cuenta(p, c) + Cuenta(u, c) {
      CuentaConcatenada(p, u, c);
    }
    if u != [] {
      assert u == [u[0]];
      CuentaUna(u[0], DePublicacion);
      CuentaUna(u[0], DeObtencion);
      CuentaUna(u[0], DeRechazo);
    }
  }

  lemma {:induction false} CuentaMuestreo(n: string, es: seq<Entrega>)
    ensures Cuenta(Muestreo(n, es), DeObtencion) == |es| && Cuenta(Muestreo(n, es), DeRechazo) == |es|
    ensures Cuenta(Muestreo(n, es), DePublicacion) == 0
  {
    if es != [] {
      var previas := es[..|es| - 1];
      var e := es[|es| - 1];
      CuentaMuestreo(n, previas);
      var par := Par(n, e);
      assert par == [par[0]] + [par[1]];
      forall c: Clase ensures Cuenta(Muestreo(n, es), c) == Cuenta(Muestreo(n, previas), c) + Cuenta([par[0]], c) + Cuenta([par[1]], c) {
        CuentaConcatenada(Muestreo(n, previas), par, c);
        CuentaConcatenada([par[0]], [par[1]], c);
      }
      CuentaUna(par[0], DeObtencion);
      CuentaUna(par[1], DeObtencion);
      CuentaUna(par[0], DeRechazo);
      CuentaUna(par[1], DeRechazo);
      CuentaUna(par[0], DePublicacion);
      CuentaUna(par[1], DePublicacion);
    }
  }

  /**
    The sampling loop fetches at most `limite` messages and publishes none; a sample it returns has one
    entry per message it requeued.
  */
  lemma MuestreoAcotado(n: string, limite: nat, u: seq<Llamada>, m: Option<seq<string>>)
    requires MuestreoConforme(n, limite, u, m)
    ensures Cuenta(u, DeObtencion) <= limite && Cuenta(u, DePublicacion) == 0
    ensures m.Some? ==> |m.value| == Cuenta(u, DeRechazo)
  {
    var es: seq<Entrega>, v: seq<Llamada> :| u == Muestreo(n, es) + v && FinDeMuestreo(n, limite, es, v, m);
    CuentaMuestreo(n, es);
    forall c: Clase ensures Cuenta(u, c) == Cuenta(Muestreo(n, es), c) + Cuenta(v, c) {
      CuentaConcatenada(Muestreo(n, es), v, c);
    }
    if |v| == 1 {
      assert v == [v[0]];
      CuentaUna(v[0], DeObtencion);
      CuentaUna(v[0], DeRechazo);
      CuentaUna(v[0], DePublicacion);
    } else if |v| == 2 {
      assert v == [v[0]] + [v[1]];
      forall c: Clase ensures Cuenta(v, c) == Cuenta([v[0]], c) + Cuenta([v[1]], c) {
        CuentaConcatenada([v[0]], [v[1]], c);
      }
      CuentaUna(v[0], DeObtencion);
      CuentaUna(v[1], DeObtencion);
      CuentaUna(v[0], DePublicacion);
      CuentaUna(v[1], DePublicacion);
    }
  }

  /**
    `SuscribirAsync` fetches no more messages than requested, nor than the queue reported, and none unless
    asked to include content; it publishes nothing. It fails only by an exception, and its sample has one
    entry per message it requeued.
  */
  lemma SuscripcionAcotada(cfg: Option<CC.ConfiguracionConexionRabbit>, s: SE.SolicitudEstadoCola,
                           t: seq<Llamada>, e: Option<ResultadoOperacionCola<EstadoColaDetalle>>)
    requires SuscripcionIntento(cfg, s, t, e)
    ensures Cuenta(t, DePublicacion) == 0
    ensures 0 <= s.maximoMensajes ==> Cuenta(t, DeObtencion) <= s.maximoMensajes as int
    ensures !s.incluirContenido ==> Cuenta(t, DeObtencion) == 0
    ensures e.Some? ==>
      && e.value.EsExitoso() && e.value.Valor().Some?
      && |e.value.Valor().value.resumenMensajes| == Cuenta(t, DeRechazo)
      && Cuenta(t, DeObtencion) <= e.value.Valor().value.totalMensajesListos as int
  {
    var p: seq<Llamada>, u: seq<Llamada>, d: Option<DeclaracionOk> :| t == p + u && HastaDeclarar(cfg, s.nombreCola, p, d)
                   && if d.None? then u == [] && e.None?
                      else SuscripcionTrasDeclarar(s, ResolverNombreCola(s.nombreCola, cfg.value).value, d.value, u, e);
    HastaDeclararSinMensajes(cfg, s.nombreCola, p, d);
    forall c: Clase ensures Cuenta(t, c) == Cuenta(p, c) + Cuenta(u, c) {
      CuentaConcatenada(p, u, c);
    }
    if d.Some? {
      var n := ResolverNombreCola(s.nombreCola, cfg.value).value;
      var m: Option<seq<string>> :| MuestreoConforme(n, Limite(s, d.value), u, m)
               && e == if m.None? then None else Some(Detalle(n, d.value, m.value));
      MuestreoAcotado(n, Limite(s, d.value), u, m);
    } else {
      assert u == [];
    }
  }

  /** A content sent is read back as the JSON text it was: UTF-8 encoding then decoding is the identity. */
  lemma ContenidoIdaYVuelta(contenido: SO.ElementoJson)
    ensures DecodificarMensaje(CodificarContenido(contenido)) == contenido.textoCrudo
  {
    Utf8.DecodificarCodificar(contenido.textoCrudo);
  }

  /** A queue name taken from a request resolves to itself when requested again: it is already trimmed. */
  lemma NombreSolicitadoEstable(solicitado: Option<string>, cfg: CC.ConfiguracionConexionRabbit)
    requires !EsNuloOBlanco(solicitado)
    ensures ResolverNombreCola(solicitado, cfg).Some?
    ensures ResolverNombreCola(ResolverNombreCola(solicitado, cfg), cfg) == ResolverNombreCola(solicitado, cfg)
  {
    RecortarIdempotente(solicitado.value);
  }

  /** Resolving fails exactly when neither the request nor the configuration names a queue. */
  lemma ResolverFallaSinNombre(solicitado: Option<string>, cfg: CC.ConfiguracionConexionRabbit)
    ensures ResolverNombreCola(solicitado, cfg).None? <==> EsNuloOBlanco(solicitado) && EsBlanco(cfg.nombreColaPorDefecto)
    ensures CC.EsValida(cfg) ==> ResolverNombreCola(solicitado, cfg).Some?
  {
  }

  /** The default queue is used as configured, untrimmed, unlike a requested name. */
  lemma NombrePredeterminadoSinRecortar()
    ensures var cfg := CC.Predeterminada().(nombreColaPorDefecto := " pedidos");
            && ResolverNombreCola(None, cfg) == Some(" pedidos")
            && ResolverNombreCola(Some(" pedidos"), cfg) == Some("pedidos")
  {
    RecortarSinMargenes("pedidos");
    assert Sangria(" pedidos") == 1;
    assert " pedidos"[1..] == "pedidos";
  }
}
