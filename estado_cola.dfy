/** `EstadoColaDetalle`: what `SuscribirAsync` reports about a queue. */
module EstadoCola {
  import opened Tipos

  datatype EstadoColaDetalle = EstadoColaDetalle(
    nombreCola: string,
    totalMensajesListos: uint32,
    totalMensajesEnProcesamiento: uint32,
    resumenMensajes: seq<string>)

  /** `new EstadoColaDetalle()`: an empty name, no sample and, by either reading, no messages. */
  function Predeterminado(): (e: EstadoColaDetalle)
    ensures e.nombreCola == "" && e.resumenMensajes == []
    ensures !TieneMensajes(e) && !TieneMensajesEscrito(e)
  {
    EstadoColaDetalle("", 0, 0, [])
  }

  /** `uint + uint`, unchecked: the sum modulo 2^32. */
  function SumaUint32(a: uint32, b: uint32): (r: uint32)
    ensures a as int + b as int < DosALa32 ==> r as int == a as int + b as int
    ensures a as int + b as int >= DosALa32 ==> r as int == a as int + b as int - DosALa32
  {
    ((a as int + b as int) % DosALa32) as uint32
  }

  /** `TieneMensajes` as written: the 32-bit sum of the two counts is positive. */
  function TieneMensajesEscrito(e: EstadoColaDetalle): (b: bool)
    ensures b ==> TieneMensajes(e)
  {
    SumaUint32(e.totalMensajesListos, e.totalMensajesEnProcesamiento) > 0
  }

  /** `TieneMensajes` as intended: some message is ready or some consumer is attached. */
  function TieneMensajes(e: EstadoColaDetalle): (b: bool)
    ensures b <==> e.totalMensajesListos as int + e.totalMensajesEnProcesamiento as int > 0
  {
    e.totalMensajesListos > 0 || e.totalMensajesEnProcesamiento > 0
  }

  /** While the two counts add up to less than 2^32, the code as written and the intent agree. */
  lemma TieneMensajesSinDesbordamiento(e: EstadoColaDetalle)
    requires e.totalMensajesListos as int + e.totalMensajesEnProcesamiento as int < DosALa32
    ensures TieneMensajesEscrito(e) <==> TieneMensajes(e)
  {
  }

  /** The wrap-around: 2^32 - 1 ready messages and one consumer sum to 0, and the code reports no messages. */
  lemma TieneMensajesDesborda()
    ensures var e := EstadoColaDetalle("cola", 0xFFFF_FFFF, 1, []);
            TieneMensajes(e) && !TieneMensajesEscrito(e)
  {
    var e := EstadoColaDetalle("cola", 0xFFFF_FFFF, 1, []);
    assert SumaUint32(e.totalMensajesListos, e.totalMensajesEnProcesamiento) == 0;
  }
}
