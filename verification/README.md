# Invoice reminder sweep — a Dafny model

This project models the reminder sweep of `mongoDB/base.cs` and proves what it
does. `RecordatorioService.ProcesarRecordatorios` takes the invoices
(`Factura`) in state `"primerrecordatorio"`. For each one, in the order the
store returns them, it sends a reminder email and then writes
`"segundorecordatorio"`. After that it queries the invoices in
`"segundorecordatorio"`. For each one it sends a deactivation notice and then
writes `"desactivado"`.

The project has four modules:

- `Facturas` (`facturas.dfy`) models the invoice document and the store.
  - `MongoDbService` is a class over an in-memory collection `facturas: seq<Factura>`, kept in natural order.
  - The query `ObtenerFacturasPorEstado` is a function of that collection (`Filtrar`).
  - `ActualizarEstadoFactura` is a method. It replaces the collection with `Actualizada(old, id, estado)`, the effect of `UpdateOne` filtered on `Id` alone: the first document with that `_id` gets the new state.
- `Correos` (`correos.dfy`) models `EmailService` as an append-only log of sent messages.
  - A send to an address in `rechazados` throws and is not logged.
  - With `rechazados` empty it behaves like the stub in the source, which never throws.
- `Recordatorios` (`recordatorios.dfy`) holds the sweep.
  - A table row `Paso` gives each loop its source state, subject, body and target state: `RECORDATORIO` and `DESACTIVACION`, with the source's strings.
  - `ProcesarLote` is the value-level meaning of one `foreach` and `Barrido` of the whole sweep. Both return the collection afterwards, the ordered list of sends and writes (`Evento`), and whether the sweep ran to the end.
  - `RecordatorioService` is a class holding the two services and a ghost log `bitacora` of the interleaved sends and writes.
  - Its methods `Atender` (one loop body), `Recorrer` (one `foreach`) and `ProcesarRecordatorios` are proved to have exactly the effect of those functions: on the store, on the mail log and on `bitacora`.
- `Propiedades` (`propiedades.dfy`) proves what a sweep does. It covers each loop, each invoice and the whole sweep, with and without a send that throws.

The model follows the code as written:

- The second query runs on the collection the first loop left behind. An invoice that starts in `"primerrecordatorio"` therefore gets both emails and ends the same sweep in `"desactivado"` (`DosFacturas`, `EventosPorFactura`, `BarridoSinFallos`). A design that takes both queries as snapshots before acting would leave it in `"segundorecordatorio"`; the code does not do that.
- Nothing is caught. The first send that throws ends the whole sweep, and the writes made before it stay (`TrazaDeLote`, `EstadoTrasLote`, `AbortoEnPrimerLote`, `CompletaSiiSinRechazos`, `TodoRechazado`). There is no per-invoice error isolation and no failure report: the method's only outcome besides its effects is whether it ran to the end (`completa`).
- The update is unconditional. It filters on `Id` only and does not check that the invoice is still in the expected state.
- States are free-form strings, not a closed enumeration. Invoices in any other state are never touched (`Intactas`).

The properties about a whole collection assume that `_id`s are unique (`IdsUnicos`), as MongoDB guarantees for a collection. Without that assumption, `ActualizadaEfecto` still states what happens when two documents share an `_id`: the first one changes and the later ones do not.

## Model

| member | source | states |
|---|---|---|
| `Facturas.Filtrar` | mongoDB/base.cs:30 | the query result holds exactly the documents of the collection whose `Estado` equals the requested state; it keeps `_id`s unique |
| `Facturas.FiltrarConserva` | mongoDB/base.cs:28-31 | the query neither drops nor duplicates a document: each matching document occurs in the result as often as in the collection, and every other document occurs zero times |
| `Facturas.IndiceDe` | mongoDB/base.cs:35-38 | the document `UpdateOne` touches is the first whose `_id` matches; the result is none exactly when no document has that `_id` |
| `Facturas.Actualizada` | mongoDB/base.cs:33-39 | an update keeps the collection's size (its full effect is `ActualizadaEfecto`) |
| `Facturas.ActualizadaEfecto` | mongoDB/base.cs:33-39 | only the `Estado` field can change; documents with another `_id` are untouched; with no matching `_id` the collection is unchanged; the first matching document gets the new state and later duplicates do not; the set of `_id`s is unchanged |
| `Facturas.ActualizadaUnica` | mongoDB/base.cs:33-39 | with unique `_id`s, exactly the document with that `_id` gets the new state, every other document is unchanged, and `_id`s stay unique |
| `Facturas.MongoDbService.constructor` | mongoDB/base.cs:20-26 | the service starts over the given collection (standing in for the MongoDB connection) |
| `Facturas.MongoDbService.ObtenerFacturasPorEstado` | mongoDB/base.cs:28-31 | returns every stored invoice in the given state and no other, each with its multiplicity |
| `Facturas.MongoDbService.ActualizarEstadoFactura` | mongoDB/base.cs:33-39 | the collection becomes the `UpdateOne` result; with unique `_id`s, the invoice with that `_id` gets the new state and nothing else changes |
| `Correos.EmailService.EnviarCorreo` | mongoDB/base.cs:54-57 | the send throws exactly when the address is refused; a send that goes through appends the message (recipient, subject, body) to the log, and one that throws leaves the log unchanged |
| `Recordatorios.RECORDATORIO` | mongoDB/base.cs:79-80 | the first loop's table row, a constant with no contract: source state `"primerrecordatorio"`, subject "Recordatorio de Factura", body "Su factura ha pasado a segundo recordatorio.", target state `"segundorecordatorio"`; `EventosDeUnPaso` and `CorreosDeLote` show that every message and write of the loop uses it |
| `Recordatorios.DESACTIVACION` | mongoDB/base.cs:86-87 | the second loop's table row, a constant with no contract: source state `"segundorecordatorio"`, subject "Desactivación de Factura", body "Su factura será desactivada.", target state `"desactivado"`; characterised by the same lemmas |
| `Recordatorios.ProcesarLote` | mongoDB/base.cs:77-81 | the value-level meaning of one `foreach` (lines 77-81 and 84-88), a definition with no contract of its own; `TrazaDeLote`, `CorreosDeLote`, `EstadoTrasLote` and `EventosPropios` characterise its events, messages and resulting collection, and `Recorrer` is proved equal to it |
| `Recordatorios.Barrido` | mongoDB/base.cs:74-89 | the value-level meaning of the whole sweep, a definition with no contract of its own: the second query runs on the collection the first loop left; `BarridoSinFallos`, `EventosPorFactura`, `CompletaSiiSinRechazos` and `AbortoEnPrimerLote` characterise it, and `ProcesarRecordatorios` is proved equal to it |
| `Recordatorios.RecordatorioService.constructor` | mongoDB/base.cs:68-72 | the service keeps the two collaborators it is given, and its event log starts empty |
| `Recordatorios.RecordatorioService.Atender` | mongoDB/base.cs:79-80 | one loop body: if the send throws, nothing changes; otherwise the message is logged and then the invoice's state is written, in that order |
| `Recordatorios.RecordatorioService.Recorrer` | mongoDB/base.cs:77-81 | one `foreach` (lines 77-81 and 84-88 differ only in their table row): the store, the mail log, the event log and the outcome are exactly those of `ProcesarLote` |
| `Recordatorios.RecordatorioService.ProcesarRecordatorios` | mongoDB/base.cs:74-89 | the sweep's store, mail log, event log and outcome are exactly those of `Barrido`, whose properties are the lemmas below |
| `Recordatorios.EnviadosConcat` | mongoDB/base.cs:76-88 | the messages of two consecutive stretches of a sweep are those of the first followed by those of the second |
| `Propiedades.PrimerRechazo` | mongoDB/base.cs:77-79 | the number of fetched invoices a loop gets through: all before it have accepted addresses, and the one at that position (if any) is refused |
| `Propiedades.TrazaDeLote` | mongoDB/base.cs:77-81 | a loop's events are, for each invoice it gets through and in fetch order, its message and then its write, and nothing after the send that throws; the loop completes exactly when no send throws |
| `Propiedades.CorreosDeLote` | mongoDB/base.cs:77-79 | a loop sends one message per invoice it gets through, to that invoice's address with the loop's subject and body, in fetch order |
| `Propiedades.EstadoTrasLote` | mongoDB/base.cs:77-81 | after a loop, exactly the invoices it got through carry the target state; every other invoice is unchanged, and `_id`s stay unique |
| `Propiedades.EventosAjenos` | mongoDB/base.cs:77-81 | a loop neither mails nor writes an invoice it did not fetch |
| `Propiedades.EventosPropios` | mongoDB/base.cs:77-81 | a fetched invoice gets its send and then its write if the loop reaches it and no send before it throws, and nothing otherwise (no write after a failed send) |
| `Propiedades.EventosFueraDeLote` | mongoDB/base.cs:77-81 | an invoice whose `_id` was not fetched gets no event |
| `Propiedades.LoteFiltrado` | mongoDB/base.cs:76-81 | a loop over its own query, with no refused address in the source state: it completes, every invoice in the source state moves to the target state with its send before its write, and every other invoice is unchanged and gets no event |
| `Propiedades.PrimeraCompleta` | mongoDB/base.cs:76-81 | with no refused address, the first loop completes and moves exactly the `"primerrecordatorio"` invoices to `"segundorecordatorio"` |
| `Propiedades.BarridoSinFallos` | mongoDB/base.cs:76-88 | with no refused address, the sweep completes; every invoice that started in either reminder state ends in `"desactivado"`, and every other invoice ends as it started |
| `Propiedades.EventosPorFactura` | mongoDB/base.cs:76-88 | with no refused address, an invoice in `"primerrecordatorio"` gets the reminder, `"segundorecordatorio"`, the deactivation notice and `"desactivado"`, in that order; one in `"segundorecordatorio"` gets the notice and then `"desactivado"`; any other invoice gets nothing |
| `Propiedades.CuentaDeCorreos` | mongoDB/base.cs:76-88 | with no refused address, the sweep sends twice as many messages as there were `"primerrecordatorio"` invoices, plus one per `"segundorecordatorio"` invoice |
| `Propiedades.CuentaTrasPrimera` | mongoDB/base.cs:83 | after a first loop that completes, the second query returns one invoice per invoice that started in either reminder state |
| `Propiedades.Intactas` | mongoDB/base.cs:76 | whatever is refused, an invoice in neither queried state is not mailed, not written and ends the sweep unchanged |
| `Propiedades.RechazoEnSegundo` | mongoDB/base.cs:83-88 | a refused address on a `"segundorecordatorio"` invoice stops the sweep |
| `Propiedades.CompletaSiiSinRechazos` | mongoDB/base.cs:76-88 | the sweep runs to the end if and only if no invoice in either reminder state has a refused address |
| `Propiedades.TodoRechazado` | mongoDB/base.cs:77-88 | when every queried invoice's address is refused, nothing is mailed or written, and the sweep completes only if there was no such invoice |
| `Propiedades.EventosDeUnPaso` | mongoDB/base.cs:79-80 | every message a loop sends carries that loop's subject, and every state it writes is that loop's target |
| `Propiedades.AbortoEnPrimerLote` | mongoDB/base.cs:77-83 | when a send of the first loop throws, the sweep stops before the second query: only reminders were sent, only `"segundorecordatorio"` was written, and the set of `"desactivado"` invoices is unchanged |
| `Propiedades.DosFacturas` | mongoDB/base.cs:74-89 | one `"primerrecordatorio"` and one `"segundorecordatorio"` invoice with nothing refused: both end in `"desactivado"`, and three messages go out |
| `Propiedades.CorreosDeLoteCompleto` | mongoDB/base.cs:77-79 | a loop that no send interrupts sends exactly one message per fetched invoice, in fetch order |
| `Propiedades.OrdenDeCorreos` | mongoDB/base.cs:76-88 | with no refused address, every reminder goes out before any deactivation notice: first the reminders in the first query's order, then the notices in the second query's order |

## Left out

- MongoDB wiring: the client, database and collection set-up in the `MongoDbService` constructor (mongoDB/base.cs:20-26) and the BSON attributes (mongoDB/base.cs:4-5). An in-memory collection replaces them.
- `MongoDbSettings` (mongoDB/base.cs:43-47). It is configuration only.
- The SMTP transport behind `EnviarCorreo` (mongoDB/base.cs:56). It is a stub in the source, so it is modelled as a logged send that throws for the addresses in `rechazados`.
- `RecordatorioController` (mongoDB/base.cs:95-112). It is an HTTP endpoint that runs the sweep and returns `Ok()`.
- The placeholder test (mongoDB/base.cs:117-123). It has no assertions.
- Correos.EmailService.EnviarCorreo: whether a send throws depends only on the recipient address, and the set of refused addresses is fixed for the whole sweep. A send to an address therefore fails in both loops or in neither. The model does not capture a transient failure: for example, a reminder that goes through in the first loop, followed by a deactivation notice to the same address that throws in the second loop, which would leave that invoice in `"segundorecordatorio"` with one message sent. `CompletaSiiSinRechazos`, `RechazoEnSegundo` and `TodoRechazado` are stated under this address-keyed failure rule.
- `async`/`await`/`Task`. Every call is awaited in turn, so the model is sequential.
- Failures of the store itself are not modelled: a query or an update that throws (connection loss, timeout). Only sends can fail.
- `FechaEmision` is an integer tick count. No date arithmetic is involved.
- The two `foreach` loops (mongoDB/base.cs:77-81 and 84-88) are one method, `Recorrer`, called with each loop's table row. Their loop body is the method `Atender`.
- Recordatorios.RecordatorioService.ProcesarRecordatorios: its contract ties the result to `Barrido`. The properties about whole collections (`BarridoSinFallos`, `EventosPorFactura`, `CuentaDeCorreos`, `Intactas`, `CompletaSiiSinRechazos`, `AbortoEnPrimerLote`, `OrdenDeCorreos`) additionally require unique `_id`s, as MongoDB enforces.
