/**
 * `RecordatorioService.ProcesarRecordatorios`: the reminder sweep. It queries
 * the invoices in "primerrecordatorio", and for each one sends a reminder and
 * then writes "segundorecordatorio"; only then does it query the invoices in
 * "segundorecordatorio" (which now include the ones just moved there), and for
 * each one sends a deactivation notice and then writes "desactivado". A send
 * that throws ends the sweep at once.
 *
 * `Barrido` is the value-level specification of one sweep; the class method
 * is proved to have exactly its effect.
 */
module Recordatorios {
  import opened Facturas
  import opened Correos

  const PRIMER_RECORDATORIO: string := "primerrecordatorio"
  const SEGUNDO_RECORDATORIO: string := "segundorecordatorio"
  const DESACTIVADO: string := "desactivado"

  /** One of the two loops of the sweep: the state it queries, the message it
      sends and the state it writes. */
  datatype Paso = Paso(origen: string, asunto: string, cuerpo: string, destino: string)

  const RECORDATORIO: Paso :=
    Paso(PRIMER_RECORDATORIO, "Recordatorio de Factura",
         "Su factura ha pasado a segundo recordatorio.", SEGUNDO_RECORDATORIO)

  const DESACTIVACION: Paso :=
    Paso(SEGUNDO_RECORDATORIO, "Desactivación de Factura",
         "Su factura será desactivada.", DESACTIVADO)

  /** What the sweep does to the outside world, in order: a message that went
      out for invoice `id`, or a state written to invoice `id`. */
  datatype Evento =
    | Enviado(id: string, correo: Correo)
    | Actualizado(id: string, estado: string)

  /** The outcome of (part of) a sweep: the collection afterwards, the events
      in the order they happened, and whether it ran to the end without a
      send throwing. */
  datatype Corrida = Corrida(facturas: seq<Factura>, eventos: seq<Evento>, completa: bool)

  /** The message sent for invoice `f` by loop `paso`. */
  function Aviso(f: Factura, paso: Paso): Correo
  {
    Correo(f.emailCliente, paso.asunto, paso.cuerpo)
  }

  /** The two events of one loop iteration for invoice `f`: send, then write. */
  function Pasos(f: Factura, paso: Paso): seq<Evento>
  {
    [Enviado(f.id, Aviso(f, paso)), Actualizado(f.id, paso.destino)]
  }

  /** One `foreach` over the invoices `lote` fetched by a query, starting from
      the collection `fs`; `rechazados` are the addresses whose send throws. */
  function ProcesarLote(fs: seq<Factura>, lote: seq<Factura>, paso: Paso,
                        rechazados: set<string>): Corrida
    decreases |lote|
  {
    if lote == [] then Corrida(fs, [], true)
    else if lote[0].emailCliente in rechazados then Corrida(fs, [], false)
    else
      var resto := ProcesarLote(Actualizada(fs, lote[0].id, paso.destino), lote[1..],
                                paso, rechazados);
      Corrida(resto.facturas, Pasos(lote[0], paso) + resto.eventos, resto.completa)
  }

  /** One whole sweep from the collection `fs`. The second query runs on the
      collection the first loop left behind. */
  function Barrido(fs: seq<Factura>, rechazados: set<string>): Corrida
  {
    var primera := ProcesarLote(fs, Filtrar(fs, RECORDATORIO.origen), RECORDATORIO, rechazados);
    if !primera.completa then primera
    else
      var segunda := ProcesarLote(primera.facturas, Filtrar(primera.facturas, DESACTIVACION.origen),
                                  DESACTIVACION, rechazados);
      Corrida(segunda.facturas, primera.eventos + segunda.eventos, segunda.completa)
  }

  /** The messages among a list of events, in order. */
  function Enviados(eventos: seq<Evento>): seq<Correo>
  {
    if eventos == [] then []
    else (if eventos[0].Enviado? then [eventos[0].correo] else []) + Enviados(eventos[1..])
  }

  /** The events that concern invoice `id`, in order. */
  function DeFactura(eventos: seq<Evento>, id: string): seq<Evento>
  {
    if eventos == [] then []
    else (if eventos[0].id == id then [eventos[0]] else []) + DeFactura(eventos[1..], id)
  }

  lemma {:induction false} EnviadosConcat(a: seq<Evento>, b: seq<Evento>)
    ensures Enviados(a + b) == Enviados(a) + Enviados(b)
  {
    if a != [] {
      EnviadosConcat(a[1..], b);
      assert (a + b)[1..] == a[1..] + b;
    } else {
      assert a + b == b;
    }
  }

  /** One iteration of a loop, as seen from position `i` of the fetched list. */
  lemma ProcesarLoteDesde(fs: seq<Factura>, lote: seq<Factura>, i: nat, paso: Paso,
                          rechazados: set<string>)
    requires i < |lote|
    ensures lote[i].emailCliente in rechazados ==>
              ProcesarLote(fs, lote[i..], paso, rechazados) == Corrida(fs, [], false)
    ensures lote[i].emailCliente !in rechazados ==>
              var resto := ProcesarLote(Actualizada(fs, lote[i].id, paso.destino), lote[i + 1..],
                                        paso, rechazados);
              ProcesarLote(fs, lote[i..], paso, rechazados)
                == Corrida(resto.facturas, Pasos(lote[i], paso) + resto.eventos, resto.completa)
  {
    assert lote[i..][0] == lote[i];
    assert lote[i..][1..] == lote[i + 1..];
  }

  /** The loop invariant of `Recorrer` carried over one iteration in which
      the send to `lote[i]` goes through. */
  lemma AvanzarLote(fs: seq<Factura>, lote: seq<Factura>, i: nat, paso: Paso,
                    rechazados: set<string>, hechos: seq<Evento>, total: Corrida)
    requires i < |lote| && lote[i].emailCliente !in rechazados
    requires var resto := ProcesarLote(fs, lote[i..], paso, rechazados);
             && resto.facturas == total.facturas
             && resto.completa == total.completa
             && total.eventos == hechos + resto.eventos
    ensures var resto := ProcesarLote(Actualizada(fs, lote[i].id, paso.destino), lote[i + 1..],
                                      paso, rechazados);
            && resto.facturas == total.facturas
            && resto.completa == total.completa
            && total.eventos == hechos + Pasos(lote[i], paso) + resto.eventos
    ensures Enviados(hechos + Pasos(lote[i], paso)) == Enviados(hechos) + [Aviso(lote[i], paso)]
  {
    ProcesarLoteDesde(fs, lote, i, paso, rechazados);
    EnviadosPasos(lote[i], paso);
    EnviadosConcat(hechos, Pasos(lote[i], paso));
    Asociar(hechos, Pasos(lote[i], paso),
            ProcesarLote(Actualizada(fs, lote[i].id, paso.destino), lote[i + 1..], paso, rechazados).eventos);
  }

  /** The loop invariant of `Recorrer` at an iteration whose send throws: the
      whole loop's outcome is what has happened so far. */
  lemma CortarLote(fs: seq<Factura>, lote: seq<Factura>, i: nat, paso: Paso,
                   rechazados: set<string>, hechos: seq<Evento>, total: Corrida)
    requires i < |lote| && lote[i].emailCliente in rechazados
    requires var resto := ProcesarLote(fs, lote[i..], paso, rechazados);
             && resto.facturas == total.facturas
             && resto.completa == total.completa
             && total.eventos == hechos + resto.eventos
    ensures total == Corrida(fs, hechos, false)
  {
    ProcesarLoteDesde(fs, lote, i, paso, rechazados);
    assert hechos + [] == hechos;
  }

  lemma Asociar<T>(a: seq<T>, b: seq<T>, c: seq<T>)
    ensures a + b + c == a + (b + c)
  {
  }

  /** Logging the send and then the write is logging `Pasos`. */
  lemma AnotarPasos(bitacora: seq<Evento>, f: Factura, paso: Paso)
    ensures bitacora + [Enviado(f.id, Aviso(f, paso))] + [Actualizado(f.id, paso.destino)]
            == bitacora + Pasos(f, paso)
  {
  }

  lemma EnviadosPasos(f: Factura, paso: Paso)
    ensures Enviados(Pasos(f, paso)) == [Aviso(f, paso)]
  {
    var evs := Pasos(f, paso);
    assert evs[1..][1..] == [];
    assert Enviados(evs[1..]) == [];
  }

  class RecordatorioService {
    const mongoDbService: MongoDbService
    const emailService: EmailService
    /** The interleaving of sends and writes performed by this service so far. */
    ghost var bitacora: seq<Evento>

    constructor (mongoDbService: MongoDbService, emailService: EmailService)
      ensures this.mongoDbService == mongoDbService && this.emailService == emailService
      ensures bitacora == []
    {
      this.mongoDbService := mongoDbService;
      this.emailService := emailService;
      bitacora := [];
    }

    /** The body of a `foreach` of `ProcesarRecordatorios`: send the message
        of `paso` for `factura`; if the send does not throw, write
        `paso.destino` to it. `ok` is false when the send throws. */
    method Atender(factura: Factura, paso: Paso) returns (ok: bool)
      modifies this`bitacora, mongoDbService, emailService`enviados
      ensures ok <==> factura.emailCliente !in emailService.rechazados
      ensures ok ==> mongoDbService.facturas
                       == Actualizada(old(mongoDbService.facturas), factura.id, paso.destino)
      ensures ok ==> emailService.enviados == old(emailService.enviados) + [Aviso(factura, paso)]
      ensures ok ==> bitacora == old(bitacora) + Pasos(factura, paso)
      ensures !ok ==> mongoDbService.facturas == old(mongoDbService.facturas)
                      && emailService.enviados == old(emailService.enviados)
                      && bitacora == old(bitacora)
    {
      ok := emailService.EnviarCorreo(factura.emailCliente, paso.asunto, paso.cuerpo);
      if !ok {
        return;
      }
      bitacora := bitacora + [Enviado(factura.id, Aviso(factura, paso))];
      mongoDbService.ActualizarEstadoFactura(factura.id, paso.destino);
      bitacora := bitacora + [Actualizado(factura.id, paso.destino)];
      AnotarPasos(old(bitacora), factura, paso);
    }

    /** One `foreach` of `ProcesarRecordatorios` over the fetched invoices
        `lote`: for each one, send the message of `paso`, then write
        `paso.destino`; a send that throws ends the loop. */
    method Recorrer(lote: seq<Factura>, paso: Paso) returns (completa: bool)
      modifies this`bitacora, mongoDbService, emailService`enviados
      ensures var r := ProcesarLote(old(mongoDbService.facturas), lote, paso, emailService.rechazados);
              && mongoDbService.facturas == r.facturas
              && emailService.enviados == old(emailService.enviados) + Enviados(r.eventos)
              && bitacora == old(bitacora) + r.eventos
              && completa == r.completa
    {
      ghost var rechazados := emailService.rechazados;
      ghost var total := ProcesarLote(mongoDbService.facturas, lote, paso, rechazados);
      ghost var hechos: seq<Evento> := [];
      for i := 0 to |lote|
        invariant bitacora == old(bitacora) + hechos
        invariant emailService.enviados == old(emailService.enviados) + Enviados(hechos)
        invariant var resto := ProcesarLote(mongoDbService.facturas, lote[i..], paso, rechazados);
                  && resto.facturas == total.facturas
                  && resto.completa == total.completa
                  && total.eventos == hechos + resto.eventos
      {
        ghost var antes := mongoDbService.facturas;
        var atendida := Atender(lote[i], paso);
        if !atendida {
          CortarLote(antes, lote, i, paso, rechazados, hechos, total);
          return false;
        }
        AvanzarLote(antes, lote, i, paso, rechazados, hechos, total);
        Asociar(old(emailService.enviados), Enviados(hechos), [Aviso(lote[i], paso)]);
        Asociar(old(bitacora), hechos, Pasos(lote[i], paso));
        hechos := hechos + Pasos(lote[i], paso);
      }
      assert lote[|lote|..] == [];
      assert hechos + [] == hechos;
      completa := true;
    }

    /** `ProcesarRecordatorios`: `completa` is false when a send threw, which
        ends the sweep; the writes made before it stay. */
    method ProcesarRecordatorios() returns (completa: bool)
      modifies this`bitacora, mongoDbService, emailService`enviados
      ensures var r := Barrido(old(mongoDbService.facturas), emailService.rechazados);
              && mongoDbService.facturas == r.facturas
              && emailService.enviados == old(emailService.enviados) + Enviados(r.eventos)
              && bitacora == old(bitacora) + r.eventos
              && completa == r.completa
    {
      var facturasPrimerRecordatorio := mongoDbService.ObtenerFacturasPorEstado(PRIMER_RECORDATORIO);
      completa := Recorrer(facturasPrimerRecordatorio, RECORDATORIO);
      if !completa {
        return;
      }
      var facturasSegundoRecordatorio := mongoDbService.ObtenerFacturasPorEstado(SEGUNDO_RECORDATORIO);
      completa := Recorrer(facturasSegundoRecordatorio, DESACTIVACION);
      ghost var p := ProcesarLote(old(mongoDbService.facturas), facturasPrimerRecordatorio,
                                  RECORDATORIO, emailService.rechazados);
      ghost var q := ProcesarLote(p.facturas, facturasSegundoRecordatorio,
                                  DESACTIVACION, emailService.rechazados);
      EnviadosConcat(p.eventos, q.eventos);
      Asociar(old(emailService.enviados), Enviados(p.eventos), Enviados(q.eventos));
      Asociar(old(bitacora), p.eventos, q.eventos);
    }
  }
}
