/**
  `ContextoConexionRabbit`: the connection configuration in force. It keeps two slots, the current
  configuration every operation reads and the default one a reset returns to; the configuration source
  refreshes the default slot through its change notification, and callers replace the current slot.
*/
module Contexto {
  import opened Tipos
  import opened Texto
  import opened Resultados
  import opened ConfiguracionConexion
  import opened Registro

  const MensajeConfiguracionObligatoria := "La configuración de conexión es obligatoria."
  const MensajeConfiguracionInvalida := "La configuración recibida es inválida."
  const MensajeActualizada := "Conexión actualizada correctamente."
  const MensajeRestablecida := "Conexión restablecida correctamente a la configuración predeterminada."

  /** `Normalizar`: a missing configuration becomes a default-constructed one. */
  function Normalizar(configuracion: Option<ConfiguracionConexionRabbit>): (c: ConfiguracionConexionRabbit)
    ensures configuracion.Some? ==> c == configuracion.value
    ensures configuracion.None? ==> c == Predeterminada() && !EsValida(c)
  {
    if configuracion.None? then Predeterminada() else configuracion.value
  }

  /** `CrearFallo` keeps a configuration's errors as they are: each is already trimmed and not blank. */
  lemma ErroresDeConfiguracion(c: ConfiguracionConexionRabbit)
    ensures CrearFallo<ConfiguracionConexionRabbit>(Some(ComoNulables(Validar(c))), MensajeConfiguracionInvalida)
            == Fallo(Validar(c), MensajeConfiguracionInvalida)
  {
    var rs := ReglasIncumplidas(c);
    forall i | 0 <= i < |Validar(c)|
      ensures !EsBlanco(Validar(c)[i]) && Recortar(Validar(c)[i]) == Validar(c)[i]
    {
      MensajeLimpio(rs[i]);
    }
    FiltrarFiltrados(Validar(c));
  }

  /** The failure an invalid configuration gets: built by `CrearFallo` from exactly its errors. */
  method FalloPorInvalida(c: ConfiguracionConexionRabbit) returns (r: ResultadoOperacionCola<ConfiguracionConexionRabbit>)
    ensures r == Fallo(Validar(c), MensajeConfiguracionInvalida)
  {
    r := CrearFallo(Some(ComoNulables(Validar(c))), MensajeConfiguracionInvalida);
    ErroresDeConfiguracion(c);
  }

  /** The failure a missing configuration gets: its one fixed error and the default message. */
  method FalloPorAusente() returns (r: ResultadoOperacionCola<ConfiguracionConexionRabbit>)
    ensures r == Fallo([MensajeConfiguracionObligatoria], MensajeFalloPredeterminado)
  {
    r := CrearFallo(Some(ComoNulables([MensajeConfiguracionObligatoria])));
    RecortarSinMargenes(MensajeConfiguracionObligatoria);
    CrearFalloLimpios<ConfiguracionConexionRabbit>([MensajeConfiguracionObligatoria], MensajeFalloPredeterminado);
  }

  class ContextoConexionRabbit {
    var configuracionActual: ConfiguracionConexionRabbit
    var configuracionPredeterminada: ConfiguracionConexionRabbit
    /** Set by `Dispose`; from then on the lock is gone and the change subscription cancelled. */
    var disposed: bool
    const administradorLog: AdministradorLog

    /** Both slots start at the source's current value, normalised. */
    constructor(valorActual: Option<ConfiguracionConexionRabbit>, administradorLog: AdministradorLog)
      ensures configuracionActual == Normalizar(valorActual)
      ensures configuracionPredeterminada == Normalizar(valorActual)
      ensures !disposed && this.administradorLog == administradorLog
    {
      configuracionActual := Normalizar(valorActual);
      configuracionPredeterminada := Normalizar(valorActual);
      disposed := false;
      this.administradorLog := administradorLog;
    }

    /**
      `ObtenerConfiguracionActual`: the current slot, read under the read lock; `None` stands for the
      `ObjectDisposedException` the disposed lock throws.
    */
    method ObtenerConfiguracionActual() returns (c: Option<ConfiguracionConexionRabbit>)
      ensures c == if disposed then None else Some(configuracionActual)
    {
      if disposed {
        c := None;
      } else {
        c := Some(configuracionActual);
      }
    }

    /**
      `ActualizarConfiguracionAsync`: a missing configuration and an invalid one are refused before
      anything changes or is logged; a valid one becomes current, is logged once at `Informacion` and is
      returned. The default slot never changes. `None` stands for the `ObjectDisposedException` a
      disposed context throws once it gets to the write lock.
    */
    method ActualizarConfiguracionAsync(nueva: Option<ConfiguracionConexionRabbit>)
      returns (r: Option<ResultadoOperacionCola<ConfiguracionConexionRabbit>>)
      modifies this, administradorLog
      ensures configuracionPredeterminada == old(configuracionPredeterminada) && disposed == old(disposed)
      ensures nueva.None? ==>
        && r == Some(Fallo([MensajeConfiguracionObligatoria], MensajeFalloPredeterminado))
        && configuracionActual == old(configuracionActual)
        && administradorLog.eventos == old(administradorLog.eventos)
      ensures nueva.Some? && Validar(nueva.value) != [] ==>
        && r == Some(Fallo(Validar(nueva.value), MensajeConfiguracionInvalida))
        && configuracionActual == old(configuracionActual)
        && administradorLog.eventos == old(administradorLog.eventos)
      ensures nueva.Some? && Validar(nueva.value) == [] && old(disposed) ==>
        && r.None?
        && configuracionActual == old(configuracionActual)
        && administradorLog.eventos == old(administradorLog.eventos)
      ensures nueva.Some? && Validar(nueva.value) == [] && !old(disposed) ==>
        && r == Some(CrearExito(nueva.value, MensajeActualizada))
        && configuracionActual == nueva.value
        && administradorLog.eventos
           == old(administradorLog.eventos) + [EventoLog(Informacion, "ContextoConexionRabbit", "ActualizarConfiguracionAsync")]
    {
      if nueva.None? {
        var f := FalloPorAusente();
        return Some(f);
      }
      var errores := Validar(nueva.value);
      if errores != [] {
        var f := FalloPorInvalida(nueva.value);
        return Some(f);
      }
      if disposed {
        return None;
      }
      configuracionActual := nueva.value;
      administradorLog.RegistrarEventoAsync(Informacion, "ContextoConexionRabbit", "ActualizarConfiguracionAsync");
      var actual := ObtenerConfiguracionActual();
      r := Some(CrearExito(actual.value, MensajeActualizada));
    }

    /**
      `RestablecerConfiguracionPredeterminadaAsync`: always succeeds on a live context; the default slot
      becomes current, is logged once at `Informacion` and is returned.
    */
    method RestablecerConfiguracionPredeterminadaAsync()
      returns (r: Option<ResultadoOperacionCola<ConfiguracionConexionRabbit>>)
      modifies this, administradorLog
      ensures configuracionPredeterminada == old(configuracionPredeterminada) && disposed == old(disposed)
      ensures old(disposed) ==>
        && r.None?
        && configuracionActual == old(configuracionActual)
        && administradorLog.eventos == old(administradorLog.eventos)
      ensures !old(disposed) ==>
        && r == Some(CrearExito(configuracionPredeterminada, MensajeRestablecida))
        && configuracionActual == configuracionPredeterminada
        && administradorLog.eventos
           == old(administradorLog.eventos)
              + [EventoLog(Informacion, "ContextoConexionRabbit", "RestablecerConfiguracionPredeterminadaAsync")]
    {
      if disposed {
        return None;
      }
      var predeterminada := configuracionPredeterminada;
      configuracionActual := predeterminada;
      administradorLog.RegistrarEventoAsync(
        Informacion, "ContextoConexionRabbit", "RestablecerConfiguracionPredeterminadaAsync");
      r := Some(CrearExito(predeterminada, MensajeRestablecida));
    }

    /**
      The `OnChange` callback: while subscribed, the source's new value, normalised, replaces the default
      slot and nothing else; after `Dispose` the subscription is gone and nothing happens.
    */
    method NotificarCambio(valor: Option<ConfiguracionConexionRabbit>)
      modifies this
      ensures configuracionActual == old(configuracionActual) && disposed == old(disposed)
      ensures configuracionPredeterminada == if disposed then old(configuracionPredeterminada) else Normalizar(valor)
    {
      if !disposed {
        configuracionPredeterminada := Normalizar(valor);
      }
    }

    /** `Dispose`: the first call cancels the subscription and releases the lock; later calls do nothing. */
    method Dispose()
      modifies this
      ensures disposed
      ensures configuracionActual == old(configuracionActual)
      ensures configuracionPredeterminada == old(configuracionPredeterminada)
    {
      if disposed {
        return;
      }
      disposed := true;
    }
  }

  /** How many of `nuevas` an update accepts: those present and valid. */
  function Aceptadas(nuevas: seq<Option<ConfiguracionConexionRabbit>>): (k: nat)
    ensures k <= |nuevas|
  {
    if nuevas == [] then 0
    else
      var ultima := nuevas[|nuevas| - 1];
      Aceptadas(nuevas[..|nuevas| - 1]) + (if ultima.Some? && Validar(ultima.value) == [] then 1 else 0)
  }

  /**
    A live context given any number of updates, accepted or refused, and then reset is back at the default
    it started with, and the reset reports that default: updates never touch the default slot. The log
    gains one event per accepted update and one for the reset.
  */
  method ActualizarYRestablecer(contexto: ContextoConexionRabbit, nuevas: seq<Option<ConfiguracionConexionRabbit>>)
    returns (r: Option<ResultadoOperacionCola<ConfiguracionConexionRabbit>>)
    requires !contexto.disposed
    modifies contexto, contexto.administradorLog
    ensures contexto.configuracionActual == old(contexto.configuracionPredeterminada)
    ensures contexto.configuracionPredeterminada == old(contexto.configuracionPredeterminada)
    ensures r == Some(CrearExito(old(contexto.configuracionPredeterminada), MensajeRestablecida))
    ensures |contexto.administradorLog.eventos| == |old(contexto.administradorLog.eventos)| + Aceptadas(nuevas) + 1
  {
    var i := 0;
    while i < |nuevas|
      invariant 0 <= i <= |nuevas|
      invariant !contexto.disposed
      invariant contexto.configuracionPredeterminada == old(contexto.configuracionPredeterminada)
      invariant |contexto.administradorLog.eventos| == |old(contexto.administradorLog.eventos)| + Aceptadas(nuevas[..i])
    {
      var _ := contexto.ActualizarConfiguracionAsync(nuevas[i]);
      assert nuevas[..i + 1][..i] == nuevas[..i];
      i := i + 1;
    }
    assert nuevas[..i] == nuevas;
    r := contexto.RestablecerConfiguracionPredeterminadaAsync();
  }
}
