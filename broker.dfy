/**
  The RabbitMQ side of the engine: the connection and channel calls it makes (`CreateConnection`,
  `CreateModel`, `BasicQos`, `QueueDeclarePassive`, `QueueDeclare`, `BasicPublish`, `BasicGet`,
  `BasicNack`) against one broker. The broker holds named queues of ready messages and the deliveries
  handed out but not yet settled, and whether the channel in use has been closed. Any call may fault (a
  network error, a refused login): the call with number `k` faults when `k` is in `averias`. A channel
  error (a 404 for a missing queue, a PRECONDITION_FAILED) fails its call and closes the channel, as
  the AMQP 0-9-1 protocol has it: every later call on that channel fails too. Every call is recorded in
  `traza` together with its outcome, so the engine's contracts can say which calls it made, in which
  order, with which arguments, and what came back.
*/
module Broker {
  import opened Tipos

  /** `QueueDeclareOk`: the queue and the counts the broker reports for it. */
  datatype DeclaracionOk = DeclaracionOk(cola: string, mensajes: uint32, consumidores: uint32)

  /** How a passive declaration ends: the queue's counts, a 404 because it does not exist, or another fault. */
  datatype Pasiva = Encontrada(declaracion: DeclaracionOk) | NoEncontrada | OtraAveria

  /** A message handed out by `BasicGet`, with the delivery tag that settles it. */
  datatype Entrega = Entrega(etiqueta: nat, cuerpo: seq<byte>)

  /** How `BasicGet` ends: a delivery, `null` for an empty queue, or a fault. */
  datatype Obtencion = Obtenido(entrega: Entrega) | Vacio | AveriaObtencion

  /** A queue: its ready messages (in no particular order), its consumers and whether it is durable. */
  datatype Cola = Cola(listos: multiset<seq<byte>>, consumidores: nat, durable: bool)

  /** The `IBasicProperties` a message is published with; `None` headers are headers never set. */
  datatype PropiedadesMensaje = PropiedadesMensaje(
    tipoContenido: string,
    modoEntrega: byte,
    idMensaje: string,
    idAplicacion: string,
    marcaTiempo: int,
    persistente: bool,
    cabeceras: Option<map<string, string>>)

  /** One call to the broker and how it ended. */
  datatype Llamada =
    | CrearConexion(nombre: string, ok: bool)
    | CrearCanal(ok: bool)
    | Qos(tamano: nat, cantidad: uint16, global: bool, ok: bool)
    | DeclaracionPasiva(cola: string, pasiva: Pasiva)
    | Declaracion(cola: string, durable: bool, exclusiva: bool, autoBorrado: bool, declaracion: Option<DeclaracionOk>)
    | Publicacion(intercambio: string, cola: string, obligatorio: bool, propiedades: PropiedadesMensaje,
                  cuerpo: seq<byte>, ok: bool)
    | Obtener(cola: string, autoAck: bool, obtencion: Obtencion)
    | Rechazo(etiqueta: nat, multiple: bool, reencolar: bool, ok: bool)

  /** What a declaration reports for an existing queue; counts above `uint.MaxValue` keep their low 32 bits. */
  function Informe(nombre: string, cola: Cola): (d: DeclaracionOk)
    ensures d.cola == nombre
    ensures |cola.listos| < DosALa32 ==> d.mensajes as int == |cola.listos|
    ensures cola.consumidores < DosALa32 ==> d.consumidores as int == cola.consumidores
  {
    DeclaracionOk(nombre, ComoUint32(|cola.listos|), ComoUint32(cola.consumidores))
  }

  class Broker {
    var colas: map<string, Cola>
    /** Deliveries handed out and not yet settled: tag to queue and body. */
    var pendientes: map<nat, (string, seq<byte>)>
    var siguienteEtiqueta: nat
    /**
      Whether the channel in use was closed by a channel error (a 404 or a PRECONDITION_FAILED); every
      later call on it fails, until `CreateModel` opens a new one.
    */
    var canalCerrado: bool
    /** How many calls have been made so far. */
    var llamadas: nat
    /** The numbers of the calls that fault. */
    const averias: set<nat>
    ghost var traza: seq<Llamada>

    /** Every delivery tag handed out so far is below the next one, so the next one is fresh. */
    ghost predicate Valid()
      reads this
    {
      forall t | t in pendientes :: t < siguienteEtiqueta
    }

    /** Whether the next call fails: it is one of the faulting calls, or it runs on a closed channel. */
    predicate Falla(enCanal: bool)
      reads this
    {
      llamadas in averias || (enCanal && canalCerrado)
    }

    constructor(colas: map<string, Cola>, averias: set<nat>)
      ensures Valid()
      ensures this.colas == colas && this.averias == averias
      ensures pendientes == map[] && llamadas == 0 && traza == [] && !canalCerrado
    {
      this.colas := colas;
      this.averias := averias;
      pendientes := map[];
      siguienteEtiqueta := 0;
      canalCerrado := false;
      llamadas := 0;
      traza := [];
    }

    /** Counts one call and says whether it fails. */
    method Turno(enCanal: bool) returns (averia: bool)
      modifies this
      ensures averia == old(Falla(enCanal)) && llamadas == old(llamadas) + 1
      ensures colas == old(colas) && pendientes == old(pendientes) && canalCerrado == old(canalCerrado)
      ensures siguienteEtiqueta == old(siguienteEtiqueta) && traza == old(traza)
    {
      averia := Falla(enCanal);
      llamadas := llamadas + 1;
    }

    /** `ConnectionFactory.CreateConnection(nombre)`. */
    method CreateConnection(nombre: string) returns (ok: bool)
      requires Valid()
      modifies this
      ensures Valid() && ok == !old(Falla(false))
      ensures colas == old(colas) && pendientes == old(pendientes) && canalCerrado == old(canalCerrado)
      ensures traza == old(traza) + [CrearConexion(nombre, ok)]
      ensures llamadas == old(llamadas) + 1
    {
      var averia := Turno(false);
      ok := !averia;
      traza := traza + [CrearConexion(nombre, ok)];
    }

    /** `IConnection.CreateModel()`: a new channel, open. */
    method CreateModel() returns (ok: bool)
      requires Valid()
      modifies this
      ensures Valid() && ok == !old(Falla(false))
      ensures colas == old(colas) && pendientes == old(pendientes)
      ensures canalCerrado == (old(canalCerrado) && !ok)
      ensures traza == old(traza) + [CrearCanal(ok)]
      ensures llamadas == old(llamadas) + 1
    {
      var averia := Turno(false);
      ok := !averia;
      if ok {
        canalCerrado := false;
      }
      traza := traza + [CrearCanal(ok)];
    }

    /** `IModel.BasicQos(tamano, cantidad, global)`: only the prefetch window changes, which the model does not keep. */
    method BasicQos(tamano: nat, cantidad: uint16, global: bool) returns (ok: bool)
      requires Valid()
      modifies this
      ensures Valid() && ok == !old(Falla(true))
      ensures colas == old(colas) && pendientes == old(pendientes) && canalCerrado == old(canalCerrado)
      ensures traza == old(traza) + [Qos(tamano, cantidad, global, ok)]
      ensures llamadas == old(llamadas) + 1
    {
      var averia := Turno(true);
      ok := !averia;
      traza := traza + [Qos(tamano, cantidad, global, ok)];
    }

    /**
      `IModel.QueueDeclarePassive(cola)`: the counts of an existing queue; a missing one is a 404, which
      closes the channel.
    */
    method QueueDeclarePassive(cola: string) returns (r: Pasiva)
      requires Valid()
      modifies this
      ensures Valid()
      ensures r == if old(Falla(true)) then OtraAveria
                   else if cola in colas then Encontrada(Informe(cola, colas[cola]))
                   else NoEncontrada
      ensures canalCerrado == (old(canalCerrado) || r.NoEncontrada?)
      ensures colas == old(colas) && pendientes == old(pendientes)
      ensures traza == old(traza) + [DeclaracionPasiva(cola, r)]
      ensures llamadas == old(llamadas) + 1
    {
      var averia := Turno(true);
      if averia {
        r := OtraAveria;
      } else if cola in colas {
        r := Encontrada(Informe(cola, colas[cola]));
      } else {
        r := NoEncontrada;
        canalCerrado := true;
      }
      traza := traza + [DeclaracionPasiva(cola, r)];
    }

    /**
      `IModel.QueueDeclare(cola, durable, exclusiva, autoBorrado)`: creates a missing queue, empty and without
      consumers; an existing one is reported as it is, unless it was declared with the other durability,
      which the broker refuses with PRECONDITION_FAILED, closing the channel.
    */
    method QueueDeclare(cola: string, durable: bool, exclusiva: bool, autoBorrado: bool) returns (r: Option<DeclaracionOk>)
      requires Valid()
      modifies this
      ensures Valid()
      ensures old(Falla(true)) ==> r.None? && colas == old(colas) && canalCerrado == old(canalCerrado)
      ensures !old(Falla(true)) && cola in old(colas) ==>
        && r == (if old(colas)[cola].durable == durable then Some(Informe(cola, old(colas)[cola])) else None)
        && colas == old(colas) && canalCerrado == r.None?
      ensures !old(Falla(true)) && cola !in old(colas) ==>
        && r == Some(DeclaracionOk(cola, 0, 0))
        && colas == old(colas)[cola := Cola(multiset{}, 0, durable)] && !canalCerrado
      ensures pendientes == old(pendientes)
      ensures traza == old(traza) + [Declaracion(cola, durable, exclusiva, autoBorrado, r)]
      ensures llamadas == old(llamadas) + 1
    {
      var averia := Turno(true);
      if averia {
        r := None;
      } else if cola in colas {
        r := if colas[cola].durable == durable then Some(Informe(cola, colas[cola])) else None;
        canalCerrado := r.None?;
      } else {
        colas := colas[cola := Cola(multiset{}, 0, durable)];
        r := Some(DeclaracionOk(cola, 0, 0));
      }
      traza := traza + [Declaracion(cola, durable, exclusiva, autoBorrado, r)];
    }

    /**
      `IModel.BasicPublish(intercambio, cola, obligatorio, propiedades, cuerpo)`: through the default exchange
      the body joins the queue of that name. A message no queue takes is returned to the publisher or
      dropped, never raised as a fault, so it only leaves the queues as they were.
    */
    method BasicPublish(intercambio: string, cola: string, obligatorio: bool, propiedades: PropiedadesMensaje,
                        cuerpo: seq<byte>)
      returns (ok: bool)
      requires Valid()
      modifies this
      ensures Valid() && ok == !old(Falla(true))
      ensures colas == if ok && intercambio == [] && cola in old(colas)
                       then old(colas)[cola := old(colas)[cola].(listos := old(colas)[cola].listos + multiset{cuerpo})]
                       else old(colas)
      ensures pendientes == old(pendientes) && canalCerrado == old(canalCerrado)
      ensures traza == old(traza) + [Publicacion(intercambio, cola, obligatorio, propiedades, cuerpo, ok)]
      ensures llamadas == old(llamadas) + 1
    {
      var averia := Turno(true);
      ok := !averia;
      if ok && intercambio == [] && cola in colas {
        colas := colas[cola := colas[cola].(listos := colas[cola].listos + multiset{cuerpo})];
      }
      traza := traza + [Publicacion(intercambio, cola, obligatorio, propiedades, cuerpo, ok)];
    }

    /**
      `IModel.BasicGet(cola, autoAck)`: takes some ready message off the queue under a fresh delivery tag;
      without `autoAck` the delivery stays pending until it is settled. An empty queue gives `null`; a
      missing queue is a 404, which closes the channel.
    */
    method BasicGet(cola: string, autoAck: bool) returns (r: Obtencion)
      requires Valid()
      modifies this
      ensures Valid()
      ensures old(Falla(true)) || cola !in old(colas) ==>
        && r == AveriaObtencion && colas == old(colas) && pendientes == old(pendientes)
        && canalCerrado == (old(canalCerrado) || !old(Falla(true)))
      ensures !old(Falla(true)) && cola in old(colas) && old(colas)[cola].listos == multiset{} ==>
        r == Vacio && colas == old(colas) && pendientes == old(pendientes) && canalCerrado == old(canalCerrado)
      ensures !old(Falla(true)) && cola in old(colas) && old(colas)[cola].listos != multiset{} ==>
        && r.Obtenido? && canalCerrado == old(canalCerrado)
        && r.entrega.etiqueta == old(siguienteEtiqueta) && r.entrega.etiqueta !in old(pendientes)
        && r.entrega.cuerpo in old(colas)[cola].listos
        && colas == old(colas)[cola := old(colas)[cola].(listos := old(colas)[cola].listos - multiset{r.entrega.cuerpo})]
        && pendientes == if autoAck then old(pendientes)
                         else old(pendientes)[r.entrega.etiqueta := (cola, r.entrega.cuerpo)]
      ensures traza == old(traza) + [Obtener(cola, autoAck, r)]
      ensures llamadas == old(llamadas) + 1
    {
      var averia := Turno(true);
      if averia {
        r := AveriaObtencion;
      } else if cola !in colas {
        r := AveriaObtencion;
        canalCerrado := true;
      } else if colas[cola].listos == multiset{} {
        r := Vacio;
      } else {
        var cuerpo :| cuerpo in colas[cola].listos;
        var etiqueta := siguienteEtiqueta;
        colas := colas[cola := colas[cola].(listos := colas[cola].listos - multiset{cuerpo})];
        if !autoAck {
          pendientes := pendientes[etiqueta := (cola, cuerpo)];
        }
        siguienteEtiqueta := siguienteEtiqueta + 1;
        r := Obtenido(Entrega(etiqueta, cuerpo));
      }
      traza := traza + [Obtener(cola, autoAck, r)];
    }

    /**
      `IModel.BasicNack(etiqueta, multiple, reencolar)`: settles a pending delivery, putting its body back on
      its queue when asked to requeue; an unknown tag is a PRECONDITION_FAILED, which closes the channel.
    */
    method BasicNack(etiqueta: nat, multiple: bool, reencolar: bool) returns (ok: bool)
      requires Valid()
      modifies this
      ensures Valid() && ok == (!old(Falla(true)) && etiqueta in old(pendientes))
      ensures canalCerrado == (old(canalCerrado) || (!old(Falla(true)) && !ok))
      ensures !ok ==> colas == old(colas) && pendientes == old(pendientes)
      ensures ok ==>
        var (cola, cuerpo) := old(pendientes)[etiqueta];
        && pendientes == old(pendientes) - {etiqueta}
        && colas == if reencolar && cola in old(colas)
                    then old(colas)[cola := old(colas)[cola].(listos := old(colas)[cola].listos + multiset{cuerpo})]
                    else old(colas)
      ensures traza == old(traza) + [Rechazo(etiqueta, multiple, reencolar, ok)]
      ensures llamadas == old(llamadas) + 1
    {
      var averia := Turno(true);
      ok := !averia && etiqueta in pendientes;
      if ok {
        var (cola, cuerpo) := pendientes[etiqueta];
        pendientes := pendientes - {etiqueta};
        if reencolar && cola in colas {
          colas := colas[cola := colas[cola].(listos := colas[cola].listos + multiset{cuerpo})];
        }
      } else if !averia {
        canalCerrado := true;
      }
      traza := traza + [Rechazo(etiqueta, multiple, reencolar, ok)];
    }
  }

  /** Taking a message and putting it back leaves the queues as they were. */
  lemma ObtenerYReencolar(colas: map<string, Cola>, cola: string, cuerpo: seq<byte>)
    requires cola in colas && cuerpo in colas[cola].listos
    ensures var sin := colas[cola := colas[cola].(listos := colas[cola].listos - multiset{cuerpo})];
            sin[cola := sin[cola].(listos := sin[cola].listos + multiset{cuerpo})] == colas
  {
    var sin := colas[cola := colas[cola].(listos := colas[cola].listos - multiset{cuerpo})];
    assert colas[cola].listos - multiset{cuerpo} + multiset{cuerpo} == colas[cola].listos;
    assert sin[cola := sin[cola].(listos := sin[cola].listos + multiset{cuerpo})][cola] == colas[cola];
  }

  /** Handing out a fresh tag and settling it leaves the pending deliveries as they were. */
  lemma EntregarYSaldar(pendientes: map<nat, (string, seq<byte>)>, etiqueta: nat, v: (string, seq<byte>))
    requires etiqueta !in pendientes
    ensures pendientes[etiqueta := v] - {etiqueta} == pendientes
  {
  }
}
