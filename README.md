# BusRabbitMQ queue engine, modelled in Dafny

This project models the core of BusRabbitMQ, a small HTTP front end over RabbitMQ, and proves properties of
that model. It covers:

- `ServicioColaRabbit`, the engine that sends, publishes and inspects queue messages;
- `ContextoConexionRabbit`, which holds the connection configuration in force;
- the records it works on, each with its rule list: `ConfiguracionConexionRabbit`, `SolicitudOperacionCola`,
  `SolicitudEstadoCola`, `ResultadoOperacionCola<T>` and `EstadoColaDetalle`.

One module per source file:

| file | module | source |
|---|---|---|
| tipos.dfy | `Tipos` | nullable references, `byte`/`ushort`/`int`/`uint` |
| texto.dfy | `Texto` | `string.IsNullOrWhiteSpace`, `string.Trim()` with .NET's white-space set |
| utf8.dfy | `Utf8` | `Encoding.UTF8.GetBytes` / `GetString`, with U+FFFD replacement |
| resultado.dfy | `Resultados` | `ResultadoOperacionCola<T>` |
| configuracion.dfy | `ConfiguracionConexion` | `ConfiguracionConexionRabbit` |
| solicitud_operacion.dfy | `SolicitudOperacion` | `SolicitudOperacionCola` |
| solicitud_estado.dfy | `SolicitudEstado` | `SolicitudEstadoCola` |
| estado_cola.dfy | `EstadoCola` | `EstadoColaDetalle` |
| registro.dfy | `Registro` | the `IAdministradorLog` sink, as a ghost list of (level, class, method) events |
| broker.dfy | `Broker` | the RabbitMQ channel the engine talks to |
| contexto.dfy | `Contexto` | `ContextoConexionRabbit` |
| servicio.dfy | `Servicio` | `ServicioColaRabbit` |
| propiedades_servicio.dfy | `PropiedadesServicio` | what the three operations promise over all runs |

The validators and the result factories are pure functions. Each validator has an exact specification: the
messages of the broken rules, each once, in the fixed checking order, and no error exactly when the input is valid.

The context is a class with its two slots (current and default) and the disposed flag as fields.

The engine is a class whose three operations are methods. They drive an abstract broker (`Broker.Broker`)
step by step:

- The broker holds a map from queue name to ready messages (a multiset), consumer count and durability.
- It also holds the deliveries fetched but not yet settled, and whether the channel has been closed.
- Call number `k` faults when `k` is in the set `averias`, so any call may fault.
- Every call is recorded, with its outcome, in a ghost trace.

Each operation's contract gives three things:

- the exact sequence of broker calls it makes, with their arguments;
- the result it returns for each outcome of those calls;
- the log it leaves, in every case, and the broker's queues and pending deliveries for a refused request
  and for a success.

A failure after the declaration leaves the broker in a state the contracts of the three operations do not
describe (see "## Left out").

The broker has no clients besides the engine. Its consumers are only a count, and nothing else publishes,
fetches or deletes between the engine's calls. The broker states the contracts promise are the engine's
own effect on an otherwise idle broker.

An exception is a `None` result that the operation's `catch` turns into the fixed failure and one `Error`
event. A `BasicGet` may return any ready message. So the model does not promise that sampled messages are
distinct, nor that a send reads back the message it just published.

The message id (`Guid.NewGuid`) and the timestamp (`DateTimeOffset.UtcNow`) are parameters of the operations.
The source's constructor takes only the context and the log sink, and `CrearConexion` builds a new
`ConnectionFactory` on every call. The model passes the broker to the constructor as a third argument,
as the repository's tests inject their factory, and every connection is a call on that broker.

## Model

| member | source | states |
|---|---|---|
| Tipos.ComoUint32 | src/BusRabbitMQ.Shared/Models/EstadoColaDetalle.cs:6-7 | a count below 2^32 is kept exactly as a `uint` |
| Texto.Sangria | src/BusRabbitMQ.Shared/Models/ResultadoOperacionCola.cs:30 | the leading white-space run: all white space, and followed by a non-space or the end |
| Texto.Relleno | src/BusRabbitMQ.Shared/Models/ResultadoOperacionCola.cs:30 | the trailing white-space run: all white space, and preceded by a non-space or the start |
| Texto.Recortar | src/BusRabbitMQ.Shared/Models/ResultadoOperacionCola.cs:30 | `Trim()` is empty exactly for a blank string; otherwise it starts and ends with a non-space |
| Texto.EspacioAsciiYFormato | src/BusRabbitMQ.API/Servicios/ServicioColaRabbit.cs:223 | `EsEspacio` is the white space of `IsNullOrWhiteSpace` and `Trim`: among ASCII exactly the space and tab to carriage return; never the zero-width space or the byte-order mark |
| Texto.EsNuloOBlanco | src/BusRabbitMQ.API/Servicios/ServicioColaRabbit.cs:223-225 | `IsNullOrWhiteSpace` holds exactly for null or a string that trims to nothing |
| Texto.RecortarEsTramo | src/BusRabbitMQ.Shared/Models/ResultadoOperacionCola.cs:30 | the trimmed string is the slice of the input between two blank margins |
| Texto.RecortarIdempotente | src/BusRabbitMQ.Shared/Models/ResultadoOperacionCola.cs:28-31 | trimming twice trims nothing more |
| Texto.RecortarSinMargenes | src/BusRabbitMQ.Shared/Models/ResultadoOperacionCola.cs:29-30 | a string that starts and ends with a non-space is not blank and trims to itself |
| Utf8.CodificarCaracter | src/BusRabbitMQ.API/Servicios/ServicioColaRabbit.cs:290 | one character encodes to one to four bytes |
| Utf8.Codificar | src/BusRabbitMQ.API/Servicios/ServicioColaRabbit.cs:287-291 | `GetBytes` yields between one and four bytes per character |
| Utf8.Continuacion | src/BusRabbitMQ.API/Servicios/ServicioColaRabbit.cs:295 | the continuation bytes a lead byte takes stay within its sequence length and the input |
| Utf8.ValorEsEscalar | src/BusRabbitMQ.API/Servicios/ServicioColaRabbit.cs:295 | a complete well-formed sequence always decodes to a Unicode scalar value |
| Utf8.DecodificarPrimero | src/BusRabbitMQ.API/Servicios/ServicioColaRabbit.cs:295 | each decoding step consumes at least one byte and no more than there are |
| Utf8.Decodificar | src/BusRabbitMQ.API/Servicios/ServicioColaRabbit.cs:293-296 | `GetString` never fails and yields at most one character per byte |
| Utf8.DecodificarDosBytes | src/BusRabbitMQ.API/Servicios/ServicioColaRabbit.cs:290-295 | a two-byte character decodes back to itself, whatever follows |
| Utf8.DecodificarTresBytes | src/BusRabbitMQ.API/Servicios/ServicioColaRabbit.cs:290-295 | a three-byte character decodes back to itself, whatever follows |
| Utf8.DecodificarCuatroBytes | src/BusRabbitMQ.API/Servicios/ServicioColaRabbit.cs:290-295 | a four-byte character decodes back to itself, whatever follows |
| Utf8.DecodificarCaracter | src/BusRabbitMQ.API/Servicios/ServicioColaRabbit.cs:290-295 | the bytes of any character decode back to it and are consumed exactly |
| Utf8.DecodificarCodificar | src/BusRabbitMQ.API/Servicios/ServicioColaRabbit.cs:287-296 | `GetString(GetBytes(s)) == s` for every string |
| Resultados.CrearExito | src/BusRabbitMQ.Shared/Models/ResultadoOperacionCola.cs:21-24 | a success: no errors, the given value and message ("Operación completada." by default) |
| Resultados.FiltrarErrores | src/BusRabbitMQ.Shared/Models/ResultadoOperacionCola.cs:28-31 | the filtered list is no longer than the input, and every entry is trimmed and not blank |
| Resultados.CrearFallo | src/BusRabbitMQ.Shared/Models/ResultadoOperacionCola.cs:26-34 | a failure with no value and the given message; a null list gives no errors, otherwise the filtered list |
| Resultados.ComoNulables | src/BusRabbitMQ.Shared/Models/ResultadoOperacionCola.cs:26 | a string array passed as `IEnumerable<string?>`, element for element |
| Resultados.FiltrarConcatenacion | src/BusRabbitMQ.Shared/Models/ResultadoOperacionCola.cs:28-31 | filtering distributes over concatenation, so the input order is kept |
| Resultados.FiltrarPertenencia | src/BusRabbitMQ.Shared/Models/ResultadoOperacionCola.cs:28-31 | an error is kept exactly when some non-null, non-blank input trims to it |
| Resultados.FiltrarFiltrados | src/BusRabbitMQ.Shared/Models/ResultadoOperacionCola.cs:28-31 | an already clean list passes through unchanged |
| Resultados.CrearFalloIdempotente | src/BusRabbitMQ.Shared/Models/ResultadoOperacionCola.cs:26-34 | feeding a failure's errors back into `CrearFallo` gives the same failure |
| Resultados.CrearFalloLimpios | src/BusRabbitMQ.Shared/Models/ResultadoOperacionCola.cs:26-34 | a failure built from clean messages carries exactly those messages |
| ConfiguracionConexion.MensajeInyectivo | src/BusRabbitMQ.Shared/Models/ConfiguracionConexionRabbit.cs:23-56 | the seven messages are pairwise different, so a message names its rule |
| ConfiguracionConexion.Predeterminada | src/BusRabbitMQ.Shared/Models/ConfiguracionConexionRabbit.cs:7-17 | a default-constructed configuration breaks exactly one rule, the missing default queue |
| ConfiguracionConexion.MensajeLimpio | src/BusRabbitMQ.Shared/Models/ConfiguracionConexionRabbit.cs:23-56 | every message is trimmed and not blank |
| ConfiguracionConexion.SiIncumple | src/BusRabbitMQ.Shared/Models/ConfiguracionConexionRabbit.cs:23-56 | one `if`: the rule is listed exactly when it is broken |
| ConfiguracionConexion.IncumplidasDesde | src/BusRabbitMQ.Shared/Models/ConfiguracionConexionRabbit.cs:23-56 | the rules from a point on: in order, each once, exactly the broken ones |
| ConfiguracionConexion.Siguiente | src/BusRabbitMQ.Shared/Models/ConfiguracionConexionRabbit.cs:23-56 | the next rule checked comes one place later |
| ConfiguracionConexion.AnteponerEnOrden | src/BusRabbitMQ.Shared/Models/ConfiguracionConexionRabbit.cs:21-56 | appending an earlier rule's message first keeps the order |
| ConfiguracionConexion.ReglasIncumplidas | src/BusRabbitMQ.Shared/Models/ConfiguracionConexionRabbit.cs:19-58 | the broken rules, each once, in checking order, at most seven |
| ConfiguracionConexion.Validar | src/BusRabbitMQ.Shared/Models/ConfiguracionConexionRabbit.cs:19-58 | no error exactly when the seven field conditions hold; otherwise the broken rules' messages in order, at most seven |
| ConfiguracionConexion.MensajeEnMensajes | src/BusRabbitMQ.Shared/Models/ConfiguracionConexionRabbit.cs:21-58 | a rule's message is in a message list exactly when the rule is in the rule list |
| ConfiguracionConexion.ValidarNombraIncumplidas | src/BusRabbitMQ.Shared/Models/ConfiguracionConexionRabbit.cs:19-58 | a rule's message is reported exactly when the rule is broken |
| ConfiguracionConexion.MismasReglasDesde | src/BusRabbitMQ.Shared/Models/ConfiguracionConexionRabbit.cs:19-58 | configurations that break the same rules get the same list |
| ConfiguracionConexion.ValidarIgnoraCamposLibres | src/BusRabbitMQ.Shared/Models/ConfiguracionConexionRabbit.cs:7-58 | connection name, virtual host, SSL and persistence never change the result |
| ConfiguracionConexion.ValidarPredeterminada | src/BusRabbitMQ.Shared/Models/ConfiguracionConexionRabbit.cs:7-17 | a default configuration reports exactly the missing default queue |
| ConfiguracionConexion.Paso | src/BusRabbitMQ.Shared/Models/ConfiguracionConexionRabbit.cs:23-56 | one step of the scan: a rule goes in front of the later ones exactly when it is broken |
| ConfiguracionConexion.ReglasSinColaNiPrefetch | src/BusRabbitMQ.Shared/Models/ConfiguracionConexionRabbit.cs:43-51 | empty queue and zero prefetch, the rest default: exactly those two rules, in order |
| ConfiguracionConexion.ValidarSinColaNiPrefetch | src/BusRabbitMQ.APITest/Servicios/Contexto/ContextoConexionRabbitTests.cs:42-51 | that configuration reports the queue message and then the prefetch message |
| SolicitudOperacion.LongitudUtf16 | src/BusRabbitMQ.Shared/Models/SolicitudOperacionCola.cs:34 | `Length` counts one or two UTF-16 units per character |
| SolicitudOperacion.NuevaSolicitud | src/BusRabbitMQ.Shared/Models/SolicitudOperacionCola.cs:10-20 | the initialiser keeps each given property; a null `Metadatos` is stored as an empty dictionary, which no validation rejects |
| SolicitudOperacion.MensajeInyectivo | src/BusRabbitMQ.Shared/Models/SolicitudOperacionCola.cs:26-42 | the three messages differ |
| SolicitudOperacion.MensajeLimpio | src/BusRabbitMQ.Shared/Models/SolicitudOperacionCola.cs:26-42 | every message is trimmed and not blank |
| SolicitudOperacion.SiIncumple | src/BusRabbitMQ.Shared/Models/SolicitudOperacionCola.cs:26-42 | one `if`: the rule is listed exactly when it is broken |
| SolicitudOperacion.EnOrdenConcatenadas | src/BusRabbitMQ.Shared/Models/SolicitudOperacionCola.cs:22-45 | content, name and metadata messages, each present or not, stay in that order |
| SolicitudOperacion.ReglasIncumplidas | src/BusRabbitMQ.Shared/Models/SolicitudOperacionCola.cs:22-45 | the broken rules, each once, in the order content, name, metadata |
| SolicitudOperacion.Validar | src/BusRabbitMQ.Shared/Models/SolicitudOperacionCola.cs:22-45 | at most three errors, in order; a message appears exactly when its rule is broken; none exactly when none is broken |
| SolicitudOperacion.SuscribirIgnoraContenido | src/BusRabbitMQ.Shared/Models/SolicitudOperacionCola.cs:26 | content is not checked for any operation other than send and publish |
| SolicitudOperacion.ValidarSolicitudVacia | src/BusRabbitMQ.Shared/Models/SolicitudOperacionCola.cs:10-45 | an empty request fails send and publish on the content rule alone; a null `Metadatos` is stored empty |
| SolicitudEstado.MensajeInyectivo | src/BusRabbitMQ.Shared/Models/SolicitudEstadoCola.cs:15-27 | the three messages differ |
| SolicitudEstado.NuevaSolicitud | src/BusRabbitMQ.Shared/Models/SolicitudEstadoCola.cs:7-9 | the initialiser keeps each given property; the request validates exactly when its name fits and 1 <= maximum <= 500 |
| SolicitudEstado.MensajeLimpio | src/BusRabbitMQ.Shared/Models/SolicitudEstadoCola.cs:15-27 | every message is trimmed and not blank |
| SolicitudEstado.ReglasIncumplidas | src/BusRabbitMQ.Shared/Models/SolicitudEstadoCola.cs:15-27 | the broken rules, each once, in checking order (name, then at most one bound), at most two |
| SolicitudEstado.Validar | src/BusRabbitMQ.Shared/Models/SolicitudEstadoCola.cs:11-30 | exactly the broken rules' messages in checking order, at most two, the name first; none exactly when the name fits and 1 <= maximum <= 500; a message appears exactly when its rule is broken |
| SolicitudEstado.ValidarSinRepetidos | src/BusRabbitMQ.Shared/Models/SolicitudEstadoCola.cs:11-30 | no message appears twice |
| SolicitudEstado.ValidarMaximoExclusivo | src/BusRabbitMQ.Shared/Models/SolicitudEstadoCola.cs:20-27 | the two bound messages never appear together |
| SolicitudEstado.ValidarPredeterminada | src/BusRabbitMQ.Shared/Models/SolicitudEstadoCola.cs:7-30 | a request that sets nothing is valid |
| EstadoCola.SumaUint32 | src/BusRabbitMQ.Shared/Models/EstadoColaDetalle.cs:10 | the `uint` sum is exact below 2^32 and wraps by 2^32 above |
| EstadoCola.Predeterminado | src/BusRabbitMQ.Shared/Models/EstadoColaDetalle.cs:5-8 | a default detail has an empty name, no sample and no messages by either reading |
| EstadoCola.TieneMensajes | src/BusRabbitMQ.Shared/Models/EstadoColaDetalle.cs:10 | the intended `TieneMensajes`: true exactly when the two counts add up, without wrap-around, to more than zero |
| EstadoCola.TieneMensajesEscrito | src/BusRabbitMQ.Shared/Models/EstadoColaDetalle.cs:10 | `TieneMensajes` as written, on the 32-bit sum: it never reports messages that are not there |
| EstadoCola.TieneMensajesSinDesbordamiento | src/BusRabbitMQ.Shared/Models/EstadoColaDetalle.cs:10 | below 2^32 the code as written means "either count is positive" |
| EstadoCola.TieneMensajesDesborda | src/BusRabbitMQ.Shared/Models/EstadoColaDetalle.cs:10 | 2^32-1 ready messages and one consumer: the code as written reports no messages |
| Registro.AdministradorLog.RegistrarEventoAsync | src/BusRabbitMQ.Shared/Interfaces/IAdministradorLog.cs:1-14 | appends exactly one event and nothing else |
| Broker.Informe | src/BusRabbitMQ.API/Servicios/ServicioColaRabbit.cs:152-153 | a declaration reports the queue's name and, below 2^32, its exact message and consumer counts |
| Broker.Broker.CreateConnection | src/BusRabbitMQ.API/Servicios/ServicioColaRabbit.cs:233-258 | opening a connection either faults or succeeds, changing no queue |
| Broker.Broker.CreateModel | src/BusRabbitMQ.API/Servicios/ServicioColaRabbit.cs:46 | a new channel is open unless the call faults |
| Broker.Broker.BasicQos | src/BusRabbitMQ.API/Servicios/ServicioColaRabbit.cs:264 | setting the prefetch window changes no queue |
| Broker.Broker.QueueDeclarePassive | src/BusRabbitMQ.API/Servicios/ServicioColaRabbit.cs:273-275 | an existing queue's counts, a 404 that closes the channel, or another fault |
| Broker.Broker.QueueDeclare | src/BusRabbitMQ.API/Servicios/ServicioColaRabbit.cs:278-283 | creates a missing queue empty; an existing one is reported, or refused if its durability differs |
| Broker.Broker.BasicPublish | src/BusRabbitMQ.API/Servicios/ServicioColaRabbit.cs:60-65 | through the default exchange the body joins the named queue |
| Broker.Broker.BasicGet | src/BusRabbitMQ.API/Servicios/ServicioColaRabbit.cs:67-71 | takes some ready message under a fresh tag and keeps it pending; `null` on an empty queue |
| Broker.Broker.BasicNack | src/BusRabbitMQ.API/Servicios/ServicioColaRabbit.cs:74 | settles a pending delivery, putting the body back on requeue |
| Broker.ObtenerYReencolar | src/BusRabbitMQ.API/Servicios/ServicioColaRabbit.cs:67-74 | fetching a message and requeueing it leaves the queues as they were |
| Broker.EntregarYSaldar | src/BusRabbitMQ.API/Servicios/ServicioColaRabbit.cs:67-74 | a fresh tag handed out and then settled leaves the pending deliveries as they were |
| Contexto.ErroresDeConfiguracion | src/BusRabbitMQ.API/Servicios/ContextoConexionRabbit.cs:59-63 | an invalid configuration's failure carries exactly its `Validar` errors |
| Contexto.FalloPorInvalida | src/BusRabbitMQ.API/Servicios/ContextoConexionRabbit.cs:59-63 | the failure for an invalid configuration: its errors and "La configuración recibida es inválida." |
| Contexto.FalloPorAusente | src/BusRabbitMQ.API/Servicios/ContextoConexionRabbit.cs:53-57 | the failure for a missing configuration: its one error and the default message |
| Contexto.Normalizar | src/BusRabbitMQ.API/Servicios/ContextoConexionRabbit.cs:143-146 | a present configuration is kept as it is; a missing one becomes the default-constructed one, which is not valid |
| Contexto.ContextoConexionRabbit.constructor | src/BusRabbitMQ.API/Servicios/ContextoConexionRabbit.cs:20-32 | both slots start at the source value, normalised, and the context is live |
| Contexto.ContextoConexionRabbit.ObtenerConfiguracionActual | src/BusRabbitMQ.API/Servicios/ContextoConexionRabbit.cs:34-45 | returns the current slot and changes nothing; a disposed lock throws |
| Contexto.ContextoConexionRabbit.ActualizarConfiguracionAsync | src/BusRabbitMQ.API/Servicios/ContextoConexionRabbit.cs:47-79 | null or invalid input is refused, with nothing changed or logged; valid input becomes current, is logged once and returned; the default never changes |
| Contexto.ContextoConexionRabbit.RestablecerConfiguracionPredeterminadaAsync | src/BusRabbitMQ.API/Servicios/ContextoConexionRabbit.cs:81-102 | the default becomes current, is logged once and returned; the default slot is unchanged |
| Contexto.ContextoConexionRabbit.NotificarCambio | src/BusRabbitMQ.API/Servicios/ContextoConexionRabbit.cs:31 | a change replaces only the default slot, with the normalised value |
| Contexto.ContextoConexionRabbit.Dispose | src/BusRabbitMQ.API/Servicios/ContextoConexionRabbit.cs:148-159 | afterwards the context is disposed and both slots are unchanged, so a second call does nothing more |
| Contexto.ActualizarYRestablecer | src/BusRabbitMQ.APITest/Servicios/Contexto/ContextoConexionRabbitTests.cs:55-68 | any number of updates, accepted or refused, followed by a reset is back at the initial default and reports it; the default slot never changes; one event per accepted update and one for the reset |
| Servicio.ValidarSolicitudOperacion | src/BusRabbitMQ.API/Servicios/ServicioColaRabbit.cs:194-202 | a null request gets its own single error; otherwise the request's `Validar`; no error exactly when the request exists and breaks no rule |
| Servicio.ValidarSolicitudEstado | src/BusRabbitMQ.API/Servicios/ServicioColaRabbit.cs:204-212 | a null request gets its own single error; otherwise the request's `Validar`; no error exactly when the name fits and 1 <= maximum <= 500 |
| Servicio.ResolverNombreCola | src/BusRabbitMQ.API/Servicios/ServicioColaRabbit.cs:221-231 | a non-blank requested name wins, trimmed; otherwise the default queue untrimmed; both blank raises |
| Servicio.ConfiguracionLeida | src/BusRabbitMQ.API/Servicios/ServicioColaRabbit.cs:214-219 | what `ObtenerConfiguracionEfectiva` reads: the context's current configuration, or the disposed lock's exception exactly when the context is disposed |
| Servicio.Cabeceras | src/BusRabbitMQ.API/Servicios/ServicioColaRabbit.cs:311-313 | the headers are the metadata with blank keys dropped and a null value sent as "" |
| Servicio.CodificarContenido | src/BusRabbitMQ.API/Servicios/ServicioColaRabbit.cs:287-291 | the body is the raw JSON text in UTF-8: one to four bytes per character (decoded back by `ContenidoIdaYVuelta`) |
| Servicio.DecodificarMensaje | src/BusRabbitMQ.API/Servicios/ServicioColaRabbit.cs:293-296 | a body read as UTF-8 text has at most one character per byte |
| Servicio.CrearPropiedadesMensaje | src/BusRabbitMQ.API/Servicios/ServicioColaRabbit.cs:298-317 | JSON content type, delivery mode 2 exactly when persisting, the given id and time, headers exactly when there is metadata |
| Servicio.ColasDeclaradas | src/BusRabbitMQ.API/Servicios/ServicioColaRabbit.cs:268-285 | after the declaration the queue exists |
| Servicio.Muestreo | src/BusRabbitMQ.API/Servicios/ServicioColaRabbit.cs:159-171 | two calls per sampled message |
| Servicio.FinTrasRonda | src/BusRabbitMQ.API/Servicios/ServicioColaRabbit.cs:159-171 | a round that does not requeue a delivery ends the loop: with the sample so far on an empty get, as a fault otherwise |
| Servicio.MuestreoConformeDe | src/BusRabbitMQ.API/Servicios/ServicioColaRabbit.cs:159-171 | full rounds followed by a way out of the loop make a complete sampling run |
| Servicio.Resumen | src/BusRabbitMQ.API/Servicios/ServicioColaRabbit.cs:169 | the sample is each fetched body decoded, in order |
| Servicio.Limite | src/BusRabbitMQ.API/Servicios/ServicioColaRabbit.cs:156-158 | at most the ready count and the requested maximum; zero exactly when content is not wanted or there is none |
| Servicio.Detalle | src/BusRabbitMQ.API/Servicios/ServicioColaRabbit.cs:174-182 | a success with the fixed message, the resolved name and the sample; by the intended `TieneMensajes` it has messages exactly when the declaration reported ready messages or consumers; the as-written `TieneMensajesEscrito` agrees only while their sum is below 2^32 |
| Servicio.PublicacionIntentoDe | src/BusRabbitMQ.API/Servicios/ServicioColaRabbit.cs:98-119 | the preamble followed by one publish is a publication attempt |
| Servicio.EnvioIntentoDe | src/BusRabbitMQ.API/Servicios/ServicioColaRabbit.cs:40-77 | the preamble followed by the send steps is a send attempt |
| Servicio.SuscripcionIntentoDe | src/BusRabbitMQ.API/Servicios/ServicioColaRabbit.cs:142-183 | the preamble followed by the sample is a subscription attempt |
| Servicio.PublicadoEnDe | src/BusRabbitMQ.API/Servicios/ServicioColaRabbit.cs:48-65 | declaring then publishing leaves the declared queue holding the content once more |
| Servicio.ConsultadoEnDe | src/BusRabbitMQ.API/Servicios/ServicioColaRabbit.cs:150-171 | declaring then sampling leaves the declared queue as declared |
| Servicio.Capturar | src/BusRabbitMQ.API/Servicios/ServicioColaRabbit.cs:78-85 | an exception becomes a failure carrying only the fixed error and the default message |
| Servicio.FalloInesperado | src/BusRabbitMQ.API/Servicios/ServicioColaRabbit.cs:83-84 | the catch block's failure: not a success, no value, the default message, and for a clean error text exactly what `CrearFallo(new[] { error })` builds |
| Servicio.ErroresLimpios | src/BusRabbitMQ.API/Servicios/ServicioColaRabbit.cs:53-84 | the fixed error texts are trimmed and not blank |
| Servicio.CrearFalloExacto | src/BusRabbitMQ.API/Servicios/ServicioColaRabbit.cs:37 | a failure built from clean errors carries exactly them |
| Servicio.ConfigurarCalidadServicio | src/BusRabbitMQ.API/Servicios/ServicioColaRabbit.cs:260-266 | one `BasicQos(0, Prefetch, false)` when the prefetch is positive, none otherwise |
| Servicio.DeclararColaComoEscrita | src/BusRabbitMQ.API/Servicios/ServicioColaRabbit.cs:268-285 | as written, a missing queue is never created: the active declaration runs on the closed channel |
| Servicio.DeclararCola | src/BusRabbitMQ.API/Servicios/ServicioColaRabbit.cs:268-285 | passive first; only a 404 leads to an active durable-as-configured declaration; other faults propagate; a missing queue is created empty |
| Servicio.ColaNuevaComoEscrita | src/BusRabbitMQ.API/Servicios/ServicioColaRabbit.cs:273-283 | on a fresh broker without the queue the declaration as written fails |
| Servicio.ColaNuevaCorregida | src/BusRabbitMQ.API/Servicios/ServicioColaRabbit.cs:273-283 | on the same broker the corrected declaration reports the new queue empty |
| Servicio.ServicioColaRabbit.constructor | src/BusRabbitMQ.API/Servicios/ServicioColaRabbit.cs:20-28 | keeps the context and the log sink; the extra broker argument stands for the `ConnectionFactory` that `CrearConexion` builds per call |
| Servicio.ServicioColaRabbit.RegistrarErrorAsync | src/BusRabbitMQ.API/Servicios/ServicioColaRabbit.cs:319-324 | one `Error` event naming the class and the method, then the fixed failure |
| Servicio.ServicioColaRabbit.AbrirYDeclarar | src/BusRabbitMQ.API/Servicios/ServicioColaRabbit.cs:45-48 | connection, channel, prefetch window and declaration, in that order; the queue exists on an open channel |
| Servicio.ServicioColaRabbit.ObtenerYDevolver | src/BusRabbitMQ.API/Servicios/ServicioColaRabbit.cs:163-170 | one get without ack and, on a delivery, one nack with requeue; both done leave the broker as it was, on a broker with no other client |
| Servicio.ServicioColaRabbit.PublicarYLeer | src/BusRabbitMQ.API/Servicios/ServicioColaRabbit.cs:57-76 | one mandatory publish, one get, a nack of what it yields; success leaves the content on the queue, on a broker with no other client |
| Servicio.ServicioColaRabbit.EnviarTrasDeclarar | src/BusRabbitMQ.API/Servicios/ServicioColaRabbit.cs:50-76 | no consumers and no leave to publish: refused with no call; otherwise publish, get, nack |
| Servicio.ServicioColaRabbit.Muestrear | src/BusRabbitMQ.API/Servicios/ServicioColaRabbit.cs:159-171 | at most `limite` get/nack rounds, stopping at the first empty get; the sample is the decoded bodies in order |
| Servicio.ServicioColaRabbit.PublicarTrasDeclarar | src/BusRabbitMQ.API/Servicios/ServicioColaRabbit.cs:108-118 | one mandatory publish; success(true) unless it faults |
| Servicio.ServicioColaRabbit.ConsultarTrasDeclarar | src/BusRabbitMQ.API/Servicios/ServicioColaRabbit.cs:152-182 | the sample, reported with the resolved name and the declaration's counts |
| Servicio.ServicioColaRabbit.EnviarDeclarada | src/BusRabbitMQ.API/Servicios/ServicioColaRabbit.cs:50-77 | the preamble's calls followed by the send's make a send attempt; success leaves the content once more on the declared queue and nothing pending, on a broker with no other client |
| Servicio.ServicioColaRabbit.PublicarDeclarada | src/BusRabbitMQ.API/Servicios/ServicioColaRabbit.cs:108-119 | the preamble's calls followed by the publish make a publish attempt; success leaves the content on the declared queue |
| Servicio.ServicioColaRabbit.ConsultarDeclarada | src/BusRabbitMQ.API/Servicios/ServicioColaRabbit.cs:152-183 | the preamble's calls followed by the sample make a subscription attempt; success leaves the queues as declared, on a broker with no other client |
| Servicio.ServicioColaRabbit.PrepararCola | src/BusRabbitMQ.API/Servicios/ServicioColaRabbit.cs:42-48 | no call without a configuration or a name; otherwise the preamble on the resolved queue |
| Servicio.ServicioColaRabbit.IntentarEnvio | src/BusRabbitMQ.API/Servicios/ServicioColaRabbit.cs:40-77 | the `try` block of a send: its exact calls and result; success leaves the content on the declared queue, on a broker with no other client |
| Servicio.ServicioColaRabbit.IntentarPublicacion | src/BusRabbitMQ.API/Servicios/ServicioColaRabbit.cs:98-119 | the `try` block of a publish: its exact calls and result |
| Servicio.ServicioColaRabbit.IntentarSuscripcion | src/BusRabbitMQ.API/Servicios/ServicioColaRabbit.cs:142-183 | the `try` block of a subscription: its exact calls and result; the queues are left as declared |
| Servicio.ServicioColaRabbit.EjecutarEnvio | src/BusRabbitMQ.API/Servicios/ServicioColaRabbit.cs:40-85 | the `try` block and its `catch`: an exception is logged once and becomes the fixed failure |
| Servicio.ServicioColaRabbit.EjecutarPublicacion | src/BusRabbitMQ.API/Servicios/ServicioColaRabbit.cs:98-127 | the `try` block and its `catch`: an exception is logged once and becomes the fixed failure |
| Servicio.ServicioColaRabbit.EjecutarSuscripcion | src/BusRabbitMQ.API/Servicios/ServicioColaRabbit.cs:142-191 | the `try` block and its `catch`: an exception is logged once and becomes the fixed failure |
| Servicio.ServicioColaRabbit.EnviarAsync | src/BusRabbitMQ.API/Servicios/ServicioColaRabbit.cs:30-86 | an invalid request is refused with its errors before any call or log; otherwise the attempt, caught |
| Servicio.ServicioColaRabbit.PublicarAsync | src/BusRabbitMQ.API/Servicios/ServicioColaRabbit.cs:88-128 | an invalid request is refused with its errors before any call or log; otherwise the attempt, caught |
| Servicio.ServicioColaRabbit.SuscribirAsync | src/BusRabbitMQ.API/Servicios/ServicioColaRabbit.cs:130-192 | an invalid request is refused with its errors before any call or log; otherwise the attempt, caught |
| PropiedadesServicio.Cuenta | src/BusRabbitMQ.API/Servicios/ServicioColaRabbit.cs:60-74 | a run makes no more calls of a kind than calls in all |
| PropiedadesServicio.CuentaConcatenada | src/BusRabbitMQ.API/Servicios/ServicioColaRabbit.cs:60-74 | counts add up over consecutive parts of a run |
| PropiedadesServicio.CuentaNula | src/BusRabbitMQ.API/Servicios/ServicioColaRabbit.cs:60-74 | a run with no call of a kind counts zero of it |
| PropiedadesServicio.CuentaUna | src/BusRabbitMQ.API/Servicios/ServicioColaRabbit.cs:60-74 | one call counts one exactly for its own kind |
| PropiedadesServicio.PreambuloSinMensajes | src/BusRabbitMQ.API/Servicios/ServicioColaRabbit.cs:45-48 | connecting and declaring publish, fetch and settle nothing |
| PropiedadesServicio.PreambuloDeApertura | src/BusRabbitMQ.API/Servicios/ServicioColaRabbit.cs:42-48 | every call up to the declaration connects, opens a channel, sets the prefetch window or declares the queue |
| PropiedadesServicio.CalidadServicioSegunPrefetch | src/BusRabbitMQ.API/Servicios/ServicioColaRabbit.cs:260-266 | once declared, the prefetch window was set once exactly when the prefetch is positive |
| PropiedadesServicio.HastaDeclararSinMensajes | src/BusRabbitMQ.API/Servicios/ServicioColaRabbit.cs:42-48 | up to the declaration nothing is published, fetched or settled; a declaration implies a configuration and a name |
| PropiedadesServicio.EnvioExitosoUnaVez | src/BusRabbitMQ.API/Servicios/ServicioColaRabbit.cs:57-76 | a send that succeeds published once, fetched once and requeued once |
| PropiedadesServicio.EnvioExitosoTrasDeclarar | src/BusRabbitMQ.API/Servicios/ServicioColaRabbit.cs:57-76 | after the declaration, a successful send made exactly one publish, one get and one nack |
| PropiedadesServicio.EnvioSinSuscriptoresNoPublica | src/BusRabbitMQ.API/Servicios/ServicioColaRabbit.cs:50-55 | the no-subscriber failure publishes and fetches nothing, and only when publishing was not allowed |
| PropiedadesServicio.EnvioFalloInesperadoSoloPorExcepcion | src/BusRabbitMQ.API/Servicios/ServicioColaRabbit.cs:78-85 | a send returns the fixed failure exactly when it raised |
| PropiedadesServicio.ValidacionNoEsFalloInesperado | src/BusRabbitMQ.API/Servicios/ServicioColaRabbit.cs:34-38 | an invalid request's failure is never the fixed one |
| PropiedadesServicio.PublicacionUnaVez | src/BusRabbitMQ.API/Servicios/ServicioColaRabbit.cs:98-119 | a publish publishes at most once and fetches nothing; if it does not raise, it published once and returned success(true) |
| PropiedadesServicio.CuentaMuestreo | src/BusRabbitMQ.API/Servicios/ServicioColaRabbit.cs:159-171 | a sample of k messages makes k gets and k nacks and no publish |
| PropiedadesServicio.MuestreoAcotado | src/BusRabbitMQ.API/Servicios/ServicioColaRabbit.cs:156-171 | the loop fetches at most `limite` and publishes nothing; the sample has one entry per nack |
| PropiedadesServicio.SuscripcionAcotada | src/BusRabbitMQ.API/Servicios/ServicioColaRabbit.cs:142-182 | no more gets than requested or than the queue reported, none unless content is wanted; no publish; sample length equals nacks |
| PropiedadesServicio.ContenidoIdaYVuelta | src/BusRabbitMQ.API/Servicios/ServicioColaRabbit.cs:287-296 | a content encoded and decoded is its raw JSON text again |
| PropiedadesServicio.NombreSolicitadoEstable | src/BusRabbitMQ.API/Servicios/ServicioColaRabbit.cs:221-231 | a resolved requested name resolves to itself again |
| PropiedadesServicio.ResolverFallaSinNombre | src/BusRabbitMQ.API/Servicios/ServicioColaRabbit.cs:221-231 | resolution raises exactly when neither side names a queue, never for a valid configuration |
| PropiedadesServicio.NombrePredeterminadoSinRecortar | src/BusRabbitMQ.API/Servicios/ServicioColaRabbit.cs:223 | the default queue is used untrimmed, a requested name trimmed |

## Left out

- Other clients of the broker: consumers are only a count and never take a message, and no other client publishes, fetches or deletes between the engine's calls. So a `BasicGet` right after a successful `BasicPublish` on the same queue never comes back empty, although `EnvioPublicado` keeps that branch, as the repository's send test expects it. The broker states promised by `Servicio.ServicioColaRabbit.ObtenerYDevolver`, `PublicarYLeer`, `EnviarTrasDeclarar`, `EnviarDeclarada`, `IntentarEnvio` and `ConsultarDeclarada` are the engine's own effect on an otherwise idle broker.
- Broker state after a failure: `Servicio.ServicioColaRabbit.EnviarAsync`, `PublicarAsync` and `SuscribirAsync` (and the methods they call) state the queues and pending deliveries only for a refused request and for a success. After a fault past the declaration, the broker is left as the calls made so far left it: for example, a published message stays queued after a faulting get, a delivery stays pending after a failed nack, and a declared queue stays after the no-subscriber refusal. Those states are not stated.
- Cancellation: `ThrowIfCancellationRequested` before validation and at the top of each sampling round (line 161 of `ServicioColaRabbit.cs`). A cancelled round would end in the same result and the same `Error` event as a round whose `BasicGet` faults, but its trace would hold no get call, while an injected fault always records one: the model has no trace for a cancelled round.
- The `ReaderWriterLockSlim` in `ContextoConexionRabbit`: the context is modelled as a sequential object. A disposed context throwing on the next lock use is modelled as an exception (`None`).
- `ILogger` output, and the message text and exception object passed to `IAdministradorLog`: the model keeps only the level, class and method of each event.
- `Guid.NewGuid` and `DateTimeOffset.UtcNow`: they are parameters (`idMensaje`, `marcaTiempo`) of the operations.
- `ConnectionFactory` settings (host, port, credentials, virtual host, recovery, timeout, SSL): a connection is a call that succeeds or faults. `CrearConexion` builds a new factory on each call; the model stands for it with the broker passed to the engine's constructor, as the repository's tests inject a factory. `FabricaConexionRabbit` is not part of this model.
- Disposal of the connection and the channel at the end of each `using` block: disposal is not modelled.
- Metadata keys compare case-insensitively (`OrdinalIgnoreCase`), and `ToDictionary` would throw on keys equal up to case: the model's keys are exact strings.
- `BasicNack` with `multiple: true` and `basic.return` of an unroutable mandatory message: the engine never uses the first and never listens for the second.
- The `?? new ConfiguracionConexionRabbit()` fallback of `ObtenerConfiguracionEfectiva`: the context never holds a null configuration, so it is unreachable.
- `GetRawText` on an undefined `JsonElement` (which throws): validation refuses such content for send and publish before it is encoded.
- The `TipoOperacionCola` enumeration file is not part of this model: its three members are taken to be `Enviar`, `Publicar` and `Suscribir`.
- `ArgumentNullException` for null constructor arguments: Dafny references in the model are never null.
- Null strings inside the configuration record: its string properties are modelled as non-null.
- Servicio.DeclararCola: the engine uses the corrected declaration (see Findings). The model therefore captures the evidently intended behaviour on a missing queue, not the channel-closed failure of the code as written.

## Findings

| source | as written | input that shows it | evidently intended | confidence | as-written member | corrected member |
|---|---|---|---|---|---|---|
| src/BusRabbitMQ.Shared/Models/EstadoColaDetalle.cs:10 | `TotalMensajesListos + TotalMensajesEnProcesamiento > 0` is computed as an unchecked `uint` sum | 4294967295 ready messages and 1 consumer: the sum wraps to 0 and `TieneMensajes` is false | true when either count is positive | not executed | EstadoCola.TieneMensajesDesborda | EstadoCola.TieneMensajesSinDesbordamiento |
| src/BusRabbitMQ.API/Servicios/ServicioColaRabbit.cs:268-285 | a 404 from `QueueDeclarePassive` closes the channel (AMQP 0-9-1, channel exceptions), and `QueueDeclare` is then sent on that same closed channel | a broker without the queue "pedidos": the active declaration fails, so the queue is never created and the operation ends in the generic failure | a missing queue is created with the configured durability | not executed | Servicio.ColaNuevaComoEscrita | Servicio.ColaNuevaCorregida |
