/**
  `IAdministradorLog`: the sink both the context and the engine report to. Only the level, the class and the
  method of each event are kept; the message text, the exception and where the event is written are not.
*/
module Registro {

  /** `NivelLog`, the two levels the core uses. */
  datatype NivelLog = Informacion | Error

  datatype EventoLog = EventoLog(nivel: NivelLog, clase: string, metodo: string)

  class AdministradorLog {
    /** Every event recorded so far, oldest first. */
    ghost var eventos: seq<EventoLog>

    constructor()
      ensures eventos == []
    {
      eventos := [];
    }

    /** `RegistrarEventoAsync(nivel, clase, metodo, ...)`: appends one event and nothing else. */
    method RegistrarEventoAsync(nivel: NivelLog, clase: string, metodo: string)
      modifies this
      ensures eventos == old(eventos) + [EventoLog(nivel, clase, metodo)]
    {
      eventos := eventos + [EventoLog(nivel, clase, metodo)];
    }
  }
}
