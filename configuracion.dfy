/** `ConfiguracionConexionRabbit`: the broker connection parameters, an init-only record, and its rule list. */
module ConfiguracionConexion {
  import opened Tipos
  import opened Texto

  datatype ConfiguracionConexionRabbit = ConfiguracionConexionRabbit(
    nombreConexion: string,
    hostName: string,
    puerto: int32,
    usuario: string,
    contrasena: string,
    virtualHost: string,
    nombreColaPorDefecto: string,
    usarSsl: bool,
    prefetch: uint16,
    persistirMensajes: bool,
    tiempoMaximoEsperaSegundos: int32)

  /**
    `new ConfiguracionConexionRabbit()`: every property at its initialiser. It names no default queue, and
    that is the one rule it breaks.
  */
  function Predeterminada(): (c: ConfiguracionConexionRabbit)
    ensures forall r: Regla :: Incumple(c, r) <==> r == ColaPorDefecto
  {
    assert !EsEspacio("localhost"[0]) && !EsEspacio("guest"[0]);
    ConfiguracionConexionRabbit(
      nombreConexion := "ConexionPrincipal",
      hostName := "localhost",
      puerto := 5672,
      usuario := "guest",
      contrasena := "guest",
      virtualHost := "/",
      nombreColaPorDefecto := "",
      usarSsl := false,
      prefetch := 1,
      persistirMensajes := true,
      tiempoMaximoEsperaSegundos := 30)
  }

  /** The seven rules `Validar` checks, in the order it checks them. */
  datatype Regla = HostName | Puerto | Usuario | Contrasena | ColaPorDefecto | Prefetch | TiempoEspera

  /** A rule's place in the checking order. */
  function Orden(r: Regla): nat {
    match r
    case HostName => 0
    case Puerto => 1
    case Usuario => 2
    case Contrasena => 3
    case ColaPorDefecto => 4
    case Prefetch => 5
    case TiempoEspera => 6
  }

  /**
    The message `Validar` adds for a broken rule. A message some proof reads character by character is
    written as two literals: the verifier does not see inside a longer one.
  */
  function Mensaje(r: Regla): string {
    match r
    case HostName => "El HostName de RabbitMQ es obligatorio."
    case Puerto => "El puerto configurado " + "debe ser mayor a cero."
    case Usuario => "El usuario de RabbitMQ es obligatorio."
    case Contrasena => "La contraseña de RabbitMQ es obligatoria."
    case ColaPorDefecto => "Debe definirse la cola predeterminada."
    case Prefetch => "El valor de Prefetch " + "debe ser mayor o igual a uno."
    case TiempoEspera => "El tiempo máximo de espera " + "debe ser mayor a cero."
  }

  /** The seven messages differ, so a message names its rule. */
  lemma MensajeInyectivo(a: Regla, b: Regla)
    ensures Mensaje(a) == Mensaje(b) ==> a == b
  {
    assert |Mensaje(HostName)| == 39 && |Mensaje(Puerto)| == 44 && |Mensaje(Contrasena)| == 41;
    assert |Mensaje(Prefetch)| == 50 && |Mensaje(TiempoEspera)| == 49;
    assert |Mensaje(Usuario)| == 38 && |Mensaje(ColaPorDefecto)| == 38;
    assert Mensaje(Usuario)[0] == 'E' && Mensaje(ColaPorDefecto)[0] == 'D';
  }

  /** Every message is already trimmed and not blank, so `CrearFallo` keeps it as it is. */
  lemma MensajeLimpio(r: Regla)
    ensures !EsBlanco(Mensaje(r)) && Recortar(Mensaje(r)) == Mensaje(r)
  {
    RecortarSinMargenes(Mensaje(r));
  }

  /** Whether configuration `c` breaks rule `r`. */
  predicate Incumple(c: ConfiguracionConexionRabbit, r: Regla) {
    match r
    case HostName => EsBlanco(c.hostName)
    case Puerto => c.puerto <= 0
    case Usuario => EsBlanco(c.usuario)
    case Contrasena => EsBlanco(c.contrasena)
    case ColaPorDefecto => EsBlanco(c.nombreColaPorDefecto)
    case Prefetch => c.prefetch == 0
    case TiempoEspera => c.tiempoMaximoEsperaSegundos <= 0
  }

  /** A configuration every rule accepts, stated field by field. */
  predicate EsValida(c: ConfiguracionConexionRabbit) {
    && !EsBlanco(c.hostName)
    && c.puerto > 0
    && !EsBlanco(c.usuario)
    && !EsBlanco(c.contrasena)
    && !EsBlanco(c.nombreColaPorDefecto)
    && c.prefetch >= 1
    && c.tiempoMaximoEsperaSegundos > 0
  }

  /** Each rule comes later in the checking order than the one before it, so none appears twice. */
  predicate EnOrden(rs: seq<Regla>) {
    forall i, j | 0 <= i < j < |rs| :: Orden(rs[i]) < Orden(rs[j])
  }

  /** One rule's contribution: the rule when it is broken, nothing otherwise. */
  function SiIncumple(c: ConfiguracionConexionRabbit, r: Regla): (x: seq<Regla>)
    ensures forall s: Regla :: s in x <==> s == r && Incumple(c, r)
  {
    if Incumple(c, r) then [r] else []
  }

  /**
    The rules from `r` onwards in checking order that `c` breaks: `r`'s own contribution in front of
    those of the rules after it.
  */
  function IncumplidasDesde(c: ConfiguracionConexionRabbit, r: Regla): (rs: seq<Regla>)
    ensures EnOrden(rs) && |rs| <= 7 - Orden(r)
    ensures forall i | 0 <= i < |rs| :: Orden(r) <= Orden(rs[i])
    ensures forall s: Regla :: s in rs <==> Orden(r) <= Orden(s) && Incumple(c, s)
    decreases 6 - Orden(r)
  {
    if r == TiempoEspera then SiIncumple(c, r)
    else
      var resto := IncumplidasDesde(c, Siguiente(r));
      AnteponerEnOrden(SiIncumple(c, r), resto, r);
      SiIncumple(c, r) + resto
  }

  /** The rule checked right after `r`. */
  function Siguiente(r: Regla): (s: Regla)
    requires r != TiempoEspera
    ensures Orden(s) == Orden(r) + 1
  {
    match r
    case HostName => Puerto
    case Puerto => Usuario
    case Usuario => Contrasena
    case Contrasena => ColaPorDefecto
    case ColaPorDefecto => Prefetch
    case Prefetch => TiempoEspera
  }

  /** Putting rule `r`, or nothing, in front of later rules keeps the order. */
  lemma AnteponerEnOrden(x: seq<Regla>, rs: seq<Regla>, r: Regla)
    requires x == [] || x == [r]
    requires EnOrden(rs) && forall i | 0 <= i < |rs| :: Orden(r) < Orden(rs[i])
    ensures EnOrden(x + rs)
  {
    if x == [] {
      assert x + rs == rs;
    } else {
      forall i | 0 < i < |x + rs| ensures (x + rs)[i] == rs[i - 1] { }
    }
  }

  /** The broken rules of `c`, each once, in checking order. */
  function ReglasIncumplidas(c: ConfiguracionConexionRabbit): (rs: seq<Regla>)
    ensures EnOrden(rs) && |rs| <= 7
    ensures forall r: Regla :: r in rs <==> Incumple(c, r)
  {
    IncumplidasDesde(c, HostName)
  }

  /**
    `Validar()`: one message per broken rule, all broken rules collected, in the fixed order host, port,
    user, password, default queue, prefetch, timeout; no message at all exactly when the configuration is valid.
  */
  function Validar(c: ConfiguracionConexionRabbit): (errores: seq<string>)
    ensures errores == [] <==> EsValida(c)
    ensures errores == Mapear(ReglasIncumplidas(c), Mensaje) && |errores| <= 7
  {
    var rs := ReglasIncumplidas(c);
    assert rs == [] ==> EsValida(c) by {
      if rs == [] {
        assert !Incumple(c, HostName) && !Incumple(c, Puerto) && !Incumple(c, Usuario) && !Incumple(c, Contrasena);
        assert !Incumple(c, ColaPorDefecto) && !Incumple(c, Prefetch) && !Incumple(c, TiempoEspera);
      }
    }
    Mapear(rs, Mensaje)
  }

  /** A rule's message is among the messages of a list exactly when the rule is in the list. */
  lemma {:induction false} MensajeEnMensajes(rs: seq<Regla>, r: Regla)
    ensures Mensaje(r) in Mapear(rs, Mensaje) <==> r in rs
  {
    if rs != [] {
      MensajeInyectivo(rs[0], r);
      MensajeEnMensajes(rs[1..], r);
      assert Mapear(rs, Mensaje) == [Mensaje(rs[0])] + Mapear(rs[1..], Mensaje);
      assert rs == [rs[0]] + rs[1..];
    }
  }

  /** A rule's message is in the list exactly when the configuration breaks that rule. */
  lemma ValidarNombraIncumplidas(c: ConfiguracionConexionRabbit, r: Regla)
    ensures Mensaje(r) in Validar(c) <==> Incumple(c, r)
  {
    MensajeEnMensajes(ReglasIncumplidas(c), r);
  }

  /** Two configurations that break the same rules get the same list from rule `r` onwards. */
  lemma {:induction false} MismasReglasDesde(c: ConfiguracionConexionRabbit, d: ConfiguracionConexionRabbit, r: Regla)
    requires forall s: Regla :: Incumple(c, s) == Incumple(d, s)
    ensures IncumplidasDesde(c, r) == IncumplidasDesde(d, r)
    decreases 6 - Orden(r)
  {
    if r != TiempoEspera {
      MismasReglasDesde(c, d, Siguiente(r));
    }
  }

  /** The display name, the virtual host, TLS and persistence never change what `Validar` reports. */
  lemma ValidarIgnoraCamposLibres(c: ConfiguracionConexionRabbit, nombre: string, vhost: string, ssl: bool, persistir: bool)
    ensures Validar(c.(nombreConexion := nombre, virtualHost := vhost, usarSsl := ssl, persistirMensajes := persistir))
         == Validar(c)
  {
    var d := c.(nombreConexion := nombre, virtualHost := vhost, usarSsl := ssl, persistirMensajes := persistir);
    forall s: Regla ensures Incumple(c, s) == Incumple(d, s) { }
    MismasReglasDesde(c, d, HostName);
    assert ReglasIncumplidas(d) == ReglasIncumplidas(c);
  }

  /** A default-constructed configuration breaks exactly one rule: it names no default queue. */
  lemma ValidarPredeterminada()
    ensures ReglasIncumplidas(Predeterminada()) == [ColaPorDefecto]
    ensures Validar(Predeterminada()) == [Mensaje(ColaPorDefecto)]
  {
    var c := Predeterminada();
    assert !EsEspacio("localhost"[0]);
    assert !EsEspacio("guest"[0]);
    assert !Incumple(c, HostName) && !Incumple(c, Puerto) && !Incumple(c, Usuario) && !Incumple(c, Contrasena);
    assert Incumple(c, ColaPorDefecto) && !Incumple(c, Prefetch) && !Incumple(c, TiempoEspera);
    var uno := [ColaPorDefecto];
    assert IncumplidasDesde(c, TiempoEspera) == [];
    Paso(c, Prefetch);
    assert IncumplidasDesde(c, Prefetch) == [];
    Paso(c, ColaPorDefecto);
    assert IncumplidasDesde(c, ColaPorDefecto) == uno;
    Paso(c, Contrasena);
    assert IncumplidasDesde(c, Contrasena) == uno;
    Paso(c, Usuario);
    assert IncumplidasDesde(c, Usuario) == uno;
    Paso(c, Puerto);
    assert IncumplidasDesde(c, Puerto) == uno;
    Paso(c, HostName);
  }

  /** One step of the scan: rule `r` adds itself in front exactly when `c` breaks it. */
  lemma Paso(c: ConfiguracionConexionRabbit, r: Regla)
    requires r != TiempoEspera
    ensures IncumplidasDesde(c, r) == (if Incumple(c, r) then [r] else []) + IncumplidasDesde(c, Siguiente(r))
  {
  }

  /** An empty default queue and a zero prefetch, everything else at its default: exactly those two rules broken. */
  lemma ReglasSinColaNiPrefetch(c: ConfiguracionConexionRabbit)
    requires c == Predeterminada().(prefetch := 0)
    ensures ReglasIncumplidas(c) == [ColaPorDefecto, Prefetch]
  {
    assert !EsEspacio("localhost"[0]);
    assert !EsEspacio("guest"[0]);
    assert !Incumple(c, HostName) && !Incumple(c, Puerto) && !Incumple(c, Usuario) && !Incumple(c, Contrasena);
    assert Incumple(c, ColaPorDefecto) && Incumple(c, Prefetch) && !Incumple(c, TiempoEspera);
    var dos := [ColaPorDefecto, Prefetch];
    assert IncumplidasDesde(c, TiempoEspera) == [];
    Paso(c, Prefetch);
    assert IncumplidasDesde(c, Prefetch) == [Prefetch];
    Paso(c, ColaPorDefecto);
    assert IncumplidasDesde(c, ColaPorDefecto) == dos;
    Paso(c, Contrasena);
    assert IncumplidasDesde(c, Contrasena) == [] + dos == dos;
    Paso(c, Usuario);
    assert IncumplidasDesde(c, Usuario) == dos;
    Paso(c, Puerto);
    assert IncumplidasDesde(c, Puerto) == dos;
    Paso(c, HostName);
  }

  /** The same configuration reports the default-queue message and then the prefetch message. */
  lemma ValidarSinColaNiPrefetch()
    ensures Validar(Predeterminada().(prefetch := 0)) == [Mensaje(ColaPorDefecto), Mensaje(Prefetch)]
  {
    ReglasSinColaNiPrefetch(Predeterminada().(prefetch := 0));
    assert Mapear([Prefetch], Mensaje) == [Mensaje(Prefetch)];
  }
}
