/**
 * What one reminder sweep does, stated on its value-level specification
 * `Barrido` (which `RecordatorioService.ProcesarRecordatorios` is proved to
 * implement): per loop, per invoice, and for the whole sweep, with and
 * without a send that throws.
 */
module Propiedades {
  import opened Facturas
  import opened Correos
  import opened Recordatorios

  /** An invoice the sweep queries: in one of the two reminder states. */
  predicate Activa(f: Factura)
  {
    f.estado == PRIMER_RECORDATORIO || f.estado == SEGUNDO_RECORDATORIO
  }

  /** No invoice the sweep queries has an address the transport refuses. */
  predicate SinRechazos(fs: seq<Factura>, rechazados: set<string>)
  {
    forall f :: f in fs && Activa(f) ==> f.emailCliente !in rechazados
  }

  /** How many invoices of `lote` a loop gets through before a send throws. */
  function PrimerRechazo(lote: seq<Factura>, rechazados: set<string>): (m: nat)
    ensures m <= |lote|
    ensures forall k :: 0 <= k < m ==> lote[k].emailCliente !in rechazados
    ensures m < |lote| ==> lote[m].emailCliente in rechazados
  {
    if lote == [] || lote[0].emailCliente in rechazados then 0
    else 1 + PrimerRechazo(lote[1..], rechazados)
  }

  // ---------------------------------------------------------------------------
  // Helpers on identifiers and event lists

  lemma IdsCons(f: Factura, s: seq<Factura>)
    ensures Ids([f] + s) == {f.id} + Ids(s)
  {
    var l := [f] + s;
    forall x | x in Ids(l) ensures x in {f.id} + Ids(s) {
      var g :| g in l && g.id == x;
      if g != f { assert g in s; }
    }
    forall x | x in {f.id} + Ids(s) ensures x in Ids(l) {
      if x != f.id {
        var g :| g in s && g.id == x;
        assert g in l;
      } else {
        assert f in l;
      }
    }
  }

  /** An invoice's identifier is among those a query returns exactly when the
      invoice is in the queried state. */
  lemma IdsDeFiltrar(fs: seq<Factura>, estado: string)
    requires IdsUnicos(fs)
    ensures forall j :: 0 <= j < |fs| ==>
              (fs[j].id in Ids(Filtrar(fs, estado)) <==> fs[j].estado == estado)
  {
    var r := Filtrar(fs, estado);
    forall j | 0 <= j < |fs|
      ensures fs[j].id in Ids(r) <==> fs[j].estado == estado
    {
      if fs[j].id in Ids(r) {
        var g :| g in r && g.id == fs[j].id;
        var i :| 0 <= i < |fs| && fs[i] == g;
        assert i == j;
      }
      if fs[j].estado == estado {
        assert fs[j] in r;
      }
    }
  }

  lemma IdsPrefijo(lote: seq<Factura>, m: nat)
    requires m <= |lote|
    ensures Ids(lote[..m]) <= Ids(lote)
  {
    forall x | x in Ids(lote[..m]) ensures x in Ids(lote) {
      var g :| g in lote[..m] && g.id == x;
      assert g in lote;
    }
  }

  lemma FiltrarCons(f: Factura, s: seq<Factura>, estado: string)
    ensures Filtrar([f] + s, estado) ==
              if f.estado == estado then [f] + Filtrar(s, estado) else Filtrar(s, estado)
  {
    assert ([f] + s)[1..] == s;
  }

  lemma {:induction false} DeFacturaConcat(a: seq<Evento>, b: seq<Evento>, id: string)
    ensures DeFactura(a + b, id) == DeFactura(a, id) + DeFactura(b, id)
  {
    if a == [] {
      assert a + b == b;
    } else {
      assert (a + b)[0] == a[0];
      assert (a + b)[1..] == a[1..] + b;
      DeFacturaConcat(a[1..], b, id);
    }
  }

  lemma DeFacturaPasos(f: Factura, paso: Paso, id: string)
    ensures DeFactura(Pasos(f, paso), id) == if f.id == id then Pasos(f, paso) else []
  {
    var evs := Pasos(f, paso);
    assert evs[1..][1..] == [];
    assert DeFactura(evs[1..][1..], id) == [];
  }

  // ---------------------------------------------------------------------------
  // One loop

  /** A loop's events: for each invoice it gets through, in the order fetched,
      the message for it and then the write of the new state; nothing for the
      invoice whose send throws nor for any after it. The loop completes
      exactly when no send throws. */
  lemma {:induction false} TrazaDeLote(fs: seq<Factura>, lote: seq<Factura>, paso: Paso,
                                       rechazados: set<string>)
    ensures var r := ProcesarLote(fs, lote, paso, rechazados);
            var m := PrimerRechazo(lote, rechazados);
            && r.completa == (m == |lote|)
            && |r.eventos| == 2 * m
            && forall k :: 0 <= k < m ==>
                 && r.eventos[2 * k] == Enviado(lote[k].id, Aviso(lote[k], paso))
                 && r.eventos[2 * k + 1] == Actualizado(lote[k].id, paso.destino)
    decreases |lote|
  {
    if lote != [] && lote[0].emailCliente !in rechazados {
      var fs' := Actualizada(fs, lote[0].id, paso.destino);
      var resto := ProcesarLote(fs', lote[1..], paso, rechazados);
      var r := ProcesarLote(fs, lote, paso, rechazados);
      var m := PrimerRechazo(lote, rechazados);
      assert r.eventos == Pasos(lote[0], paso) + resto.eventos && r.completa == resto.completa;
      assert m == 1 + PrimerRechazo(lote[1..], rechazados);
      TrazaDeLote(fs', lote[1..], paso, rechazados);
      forall k | 0 <= k < m
        ensures r.eventos[2 * k] == Enviado(lote[k].id, Aviso(lote[k], paso))
        ensures r.eventos[2 * k + 1] == Actualizado(lote[k].id, paso.destino)
      {
        if k == 0 {
          assert r.eventos[0] == Pasos(lote[0], paso)[0];
          assert r.eventos[1] == Pasos(lote[0], paso)[1];
        } else {
          var i := 2 * (k - 1);
          assert 2 * k == i + 2 && 2 * k + 1 == i + 3;
          assert lote[1..][k - 1] == lote[k];
          assert r.eventos[i + 2] == resto.eventos[i];
          assert r.eventos[i + 3] == resto.eventos[i + 1];
        }
      }
    }
  }

  /** The messages a loop sends: one per invoice it gets through, to that
      invoice's address, in the order fetched. */
  lemma {:induction false} CorreosDeLote(fs: seq<Factura>, lote: seq<Factura>, paso: Paso,
                                         rechazados: set<string>)
    ensures var e := Enviados(ProcesarLote(fs, lote, paso, rechazados).eventos);
            var m := PrimerRechazo(lote, rechazados);
            && |e| == m
            && forall k :: 0 <= k < m ==> e[k] == Aviso(lote[k], paso)
    decreases |lote|
  {
    if lote != [] && lote[0].emailCliente !in rechazados {
      var fs' := Actualizada(fs, lote[0].id, paso.destino);
      CorreosDeLote(fs', lote[1..], paso, rechazados);
      var resto := ProcesarLote(fs', lote[1..], paso, rechazados);
      EnviadosConcat(Pasos(lote[0], paso), resto.eventos);
      EnviadosPasos(lote[0], paso);
      var m := PrimerRechazo(lote, rechazados);
      forall k | 1 <= k < m ensures lote[1..][k - 1] == lote[k] { }
    }
  }

  /** A loop's effect on the collection: the invoices it gets through, and only
      those, now carry the loop's target state; nothing else changes. */
  lemma {:induction false} EstadoTrasLote(fs: seq<Factura>, lote: seq<Factura>, paso: Paso,
                                          rechazados: set<string>)
    requires IdsUnicos(fs)
    ensures var r := ProcesarLote(fs, lote, paso, rechazados);
            var m := PrimerRechazo(lote, rechazados);
            && |r.facturas| == |fs| && IdsUnicos(r.facturas)
            && forall j :: 0 <= j < |fs| ==>
                 r.facturas[j] == if fs[j].id in Ids(lote[..m]) then fs[j].(estado := paso.destino)
                                  else fs[j]
    decreases |lote|
  {
    var m := PrimerRechazo(lote, rechazados);
    if lote == [] || lote[0].emailCliente in rechazados {
      assert lote[..m] == [];
    } else {
      var fs' := Actualizada(fs, lote[0].id, paso.destino);
      var resto := ProcesarLote(fs', lote[1..], paso, rechazados);
      var m' := PrimerRechazo(lote[1..], rechazados);
      assert ProcesarLote(fs, lote, paso, rechazados).facturas == resto.facturas;
      assert m == m' + 1;
      var ids := Ids(lote[1..][..m']);
      assert Ids(lote[..m]) == {lote[0].id} + ids by {
        assert lote[..m] == [lote[0]] + lote[1..][..m'];
        IdsCons(lote[0], lote[1..][..m']);
      }
      ActualizadaUnica(fs, lote[0].id, paso.destino);
      EstadoTrasLote(fs', lote[1..], paso, rechazados);
      forall j | 0 <= j < |fs|
        ensures resto.facturas[j] == if fs[j].id in Ids(lote[..m]) then fs[j].(estado := paso.destino)
                                     else fs[j]
      {
        assert fs'[j] == if fs[j].id == lote[0].id then fs[j].(estado := paso.destino) else fs[j];
        assert resto.facturas[j] == if fs[j].id in ids then fs'[j].(estado := paso.destino) else fs'[j];
      }
    }
  }

  /** A loop neither mails nor writes an invoice it did not fetch. */
  lemma {:induction false} EventosAjenos(fs: seq<Factura>, lote: seq<Factura>, paso: Paso,
                                         rechazados: set<string>, id: string)
    requires forall k :: 0 <= k < |lote| ==> lote[k].id != id
    ensures DeFactura(ProcesarLote(fs, lote, paso, rechazados).eventos, id) == []
    decreases |lote|
  {
    if lote != [] && lote[0].emailCliente !in rechazados {
      var fs' := Actualizada(fs, lote[0].id, paso.destino);
      var resto := ProcesarLote(fs', lote[1..], paso, rechazados);
      EventosAjenos(fs', lote[1..], paso, rechazados, id);
      DeFacturaConcat(Pasos(lote[0], paso), resto.eventos, id);
      DeFacturaPasos(lote[0], paso, id);
    }
  }

  /** Per fetched invoice, a loop does the send and then the write when it
      gets that far, and nothing at all for the invoice whose send throws or
      for any invoice after it. */
  lemma {:induction false} EventosPropios(fs: seq<Factura>, lote: seq<Factura>, paso: Paso,
                                          rechazados: set<string>, k: nat)
    requires IdsUnicos(lote)
    requires k < |lote|
    ensures DeFactura(ProcesarLote(fs, lote, paso, rechazados).eventos, lote[k].id) ==
              if k < PrimerRechazo(lote, rechazados) then Pasos(lote[k], paso) else []
    decreases |lote|
  {
    var id := lote[k].id;
    if lote[0].emailCliente !in rechazados {
      var fs' := Actualizada(fs, lote[0].id, paso.destino);
      var resto := ProcesarLote(fs', lote[1..], paso, rechazados);
      var r := DeFactura(resto.eventos, id);
      assert DeFactura(ProcesarLote(fs, lote, paso, rechazados).eventos, id)
               == DeFactura(Pasos(lote[0], paso), id) + r by {
        DeFacturaConcat(Pasos(lote[0], paso), resto.eventos, id);
      }
      if k == 0 {
        assert r == [] by {
          EventosAjenos(fs', lote[1..], paso, rechazados, id);
        }
        DeFacturaPasos(lote[0], paso, id);
      } else {
        assert lote[1..][k - 1] == lote[k];
        assert r == if k - 1 < PrimerRechazo(lote[1..], rechazados) then Pasos(lote[k], paso) else [] by {
          EventosPropios(fs', lote[1..], paso, rechazados, k - 1);
        }
        assert DeFactura(Pasos(lote[0], paso), id) == [] by {
          DeFacturaPasos(lote[0], paso, id);
        }
      }
    }
  }

  /** An invoice whose identifier is not among those fetched gets no event. */
  lemma EventosFueraDeLote(fs: seq<Factura>, lote: seq<Factura>, paso: Paso,
                           rechazados: set<string>, id: string)
    requires id !in Ids(lote)
    ensures DeFactura(ProcesarLote(fs, lote, paso, rechazados).eventos, id) == []
  {
    forall k | 0 <= k < |lote| ensures lote[k].id != id {
      assert lote[k] in lote;
    }
    EventosAjenos(fs, lote, paso, rechazados, id);
  }

  /** A loop over the result of a query for its source state, when no address
      of an invoice in that state is refused: it completes, every invoice in the
      source state moves to the target state, every other invoice is unchanged,
      and each invoice in the source state gets its send and then its write. */
  lemma LoteFiltrado(fs: seq<Factura>, paso: Paso, rechazados: set<string>)
    requires IdsUnicos(fs)
    requires forall f :: f in fs && f.estado == paso.origen ==> f.emailCliente !in rechazados
    ensures var lote := Filtrar(fs, paso.origen);
            var r := ProcesarLote(fs, lote, paso, rechazados);
            && PrimerRechazo(lote, rechazados) == |lote|
            && r.completa
            && |r.facturas| == |fs| && IdsUnicos(r.facturas)
            && (forall j :: 0 <= j < |fs| ==>
                  r.facturas[j] == if fs[j].estado == paso.origen then fs[j].(estado := paso.destino)
                                   else fs[j])
            && forall j :: 0 <= j < |fs| ==>
                  DeFactura(r.eventos, fs[j].id) == if fs[j].estado == paso.origen then Pasos(fs[j], paso)
                                                    else []
  {
    var lote := Filtrar(fs, paso.origen);
    var m := PrimerRechazo(lote, rechazados);
    assert lote[..m] == lote;
    TrazaDeLote(fs, lote, paso, rechazados);
    EstadoTrasLote(fs, lote, paso, rechazados);
    IdsDeFiltrar(fs, paso.origen);
    forall j | 0 <= j < |fs|
      ensures DeFactura(ProcesarLote(fs, lote, paso, rechazados).eventos, fs[j].id)
              == if fs[j].estado == paso.origen then Pasos(fs[j], paso) else []
    {
      if fs[j].estado == paso.origen {
        assert fs[j] in lote;
        var k :| 0 <= k < |lote| && lote[k] == fs[j];
        EventosPropios(fs, lote, paso, rechazados, k);
      } else {
        EventosFueraDeLote(fs, lote, paso, rechazados, fs[j].id);
      }
    }
  }

  // ---------------------------------------------------------------------------
  // The whole sweep

  /** The state each invoice is left in by the first loop when it completes. */
  lemma PrimeraCompleta(fs: seq<Factura>, rechazados: set<string>)
    requires IdsUnicos(fs)
    requires SinRechazos(fs, rechazados)
    ensures var p := ProcesarLote(fs, Filtrar(fs, PRIMER_RECORDATORIO), RECORDATORIO, rechazados);
            && p.completa && |p.facturas| == |fs| && IdsUnicos(p.facturas)
            && (forall j :: 0 <= j < |fs| ==>
                  p.facturas[j] == if fs[j].estado == PRIMER_RECORDATORIO
                                   then fs[j].(estado := SEGUNDO_RECORDATORIO) else fs[j])
            && SinRechazos(p.facturas, rechazados)
  {
    LoteFiltrado(fs, RECORDATORIO, rechazados);
    var p := ProcesarLote(fs, Filtrar(fs, PRIMER_RECORDATORIO), RECORDATORIO, rechazados);
    forall g | g in p.facturas && Activa(g) ensures g.emailCliente !in rechazados {
      var j :| 0 <= j < |p.facturas| && p.facturas[j] == g;
      assert fs[j] in fs;
    }
  }

  /** With no refused address, the sweep completes and leaves every invoice
      that was in "primerrecordatorio" or "segundorecordatorio" in
      "desactivado" (the second query sees the invoices the first loop has just
      moved), and every other invoice exactly as it was. */
  lemma BarridoSinFallos(fs: seq<Factura>, rechazados: set<string>)
    requires IdsUnicos(fs)
    requires SinRechazos(fs, rechazados)
    ensures var r := Barrido(fs, rechazados);
            && r.completa
            && |r.facturas| == |fs|
            && forall j :: 0 <= j < |fs| ==>
                 r.facturas[j] == if Activa(fs[j]) then fs[j].(estado := DESACTIVADO) else fs[j]
  {
    PrimeraCompleta(fs, rechazados);
    var p := ProcesarLote(fs, Filtrar(fs, PRIMER_RECORDATORIO), RECORDATORIO, rechazados);
    LoteFiltrado(p.facturas, DESACTIVACION, rechazados);
  }

  /** With no refused address, the sweep's events for one invoice: one that
      starts in "primerrecordatorio" gets the reminder, is written
      "segundorecordatorio", gets the deactivation notice and is written
      "desactivado", in that order; one in "segundorecordatorio" gets the
      notice and then the write; any other invoice is neither mailed nor
      written. */
  lemma EventosPorFactura(fs: seq<Factura>, rechazados: set<string>, j: nat)
    requires IdsUnicos(fs)
    requires SinRechazos(fs, rechazados)
    requires j < |fs|
    ensures DeFactura(Barrido(fs, rechazados).eventos, fs[j].id) ==
              if fs[j].estado == PRIMER_RECORDATORIO then
                Pasos(fs[j], RECORDATORIO) + Pasos(fs[j], DESACTIVACION)
              else if fs[j].estado == SEGUNDO_RECORDATORIO then Pasos(fs[j], DESACTIVACION)
              else []
  {
    PrimeraCompleta(fs, rechazados);
    LoteFiltrado(fs, RECORDATORIO, rechazados);
    var p := ProcesarLote(fs, Filtrar(fs, PRIMER_RECORDATORIO), RECORDATORIO, rechazados);
    LoteFiltrado(p.facturas, DESACTIVACION, rechazados);
    var q := ProcesarLote(p.facturas, Filtrar(p.facturas, SEGUNDO_RECORDATORIO), DESACTIVACION, rechazados);
    DeFacturaConcat(p.eventos, q.eventos, fs[j].id);
    assert Pasos(p.facturas[j], DESACTIVACION) == Pasos(fs[j], DESACTIVACION);
    if fs[j].estado != PRIMER_RECORDATORIO && fs[j].estado != SEGUNDO_RECORDATORIO {
      assert DeFactura(p.eventos, fs[j].id) == [];
      assert DeFactura(q.eventos, fs[j].id) == [];
    }
  }

  /** After a first loop that completes, the second query returns one invoice
      for each invoice that started in either reminder state. */
  lemma {:induction false} CuentaTrasPrimera(fs: seq<Factura>, gs: seq<Factura>)
    requires |gs| == |fs|
    requires forall j :: 0 <= j < |fs| ==>
               gs[j] == if fs[j].estado == PRIMER_RECORDATORIO
                        then fs[j].(estado := SEGUNDO_RECORDATORIO) else fs[j]
    ensures |Filtrar(gs, SEGUNDO_RECORDATORIO)| ==
              |Filtrar(fs, PRIMER_RECORDATORIO)| + |Filtrar(fs, SEGUNDO_RECORDATORIO)|
  {
    if fs != [] {
      assert forall j :: 0 <= j < |fs| - 1 ==> fs[1..][j] == fs[j + 1] && gs[1..][j] == gs[j + 1];
      CuentaTrasPrimera(fs[1..], gs[1..]);
    }
  }

  /** With no refused address, a sweep sends twice as many messages as there
      were invoices in "primerrecordatorio", plus one per invoice in
      "segundorecordatorio". */
  lemma CuentaDeCorreos(fs: seq<Factura>, rechazados: set<string>)
    requires IdsUnicos(fs)
    requires SinRechazos(fs, rechazados)
    ensures |Enviados(Barrido(fs, rechazados).eventos)| ==
              2 * |Filtrar(fs, PRIMER_RECORDATORIO)| + |Filtrar(fs, SEGUNDO_RECORDATORIO)|
  {
    PrimeraCompleta(fs, rechazados);
    LoteFiltrado(fs, RECORDATORIO, rechazados);
    var lote1 := Filtrar(fs, PRIMER_RECORDATORIO);
    var p := ProcesarLote(fs, lote1, RECORDATORIO, rechazados);
    LoteFiltrado(p.facturas, DESACTIVACION, rechazados);
    var lote2 := Filtrar(p.facturas, SEGUNDO_RECORDATORIO);
    var q := ProcesarLote(p.facturas, lote2, DESACTIVACION, rechazados);
    CorreosDeLote(fs, lote1, RECORDATORIO, rechazados);
    CorreosDeLote(p.facturas, lote2, DESACTIVACION, rechazados);
    EnviadosConcat(p.eventos, q.eventos);
    CuentaTrasPrimera(fs, p.facturas);
  }

  /** Whatever the transport refuses, an invoice in neither reminder state is
      not mailed and not written, and ends the sweep as it started. */
  lemma Intactas(fs: seq<Factura>, rechazados: set<string>, j: nat)
    requires IdsUnicos(fs)
    requires j < |fs| && !Activa(fs[j])
    ensures var r := Barrido(fs, rechazados);
            && |r.facturas| == |fs|
            && r.facturas[j] == fs[j]
            && DeFactura(r.eventos, fs[j].id) == []
  {
    var lote1 := Filtrar(fs, PRIMER_RECORDATORIO);
    var p := ProcesarLote(fs, lote1, RECORDATORIO, rechazados);
    var m1 := PrimerRechazo(lote1, rechazados);
    EstadoTrasLote(fs, lote1, RECORDATORIO, rechazados);
    IdsDeFiltrar(fs, PRIMER_RECORDATORIO);
    IdsPrefijo(lote1, m1);
    EventosFueraDeLote(fs, lote1, RECORDATORIO, rechazados, fs[j].id);
    if p.completa {
      var lote2 := Filtrar(p.facturas, SEGUNDO_RECORDATORIO);
      var q := ProcesarLote(p.facturas, lote2, DESACTIVACION, rechazados);
      var m2 := PrimerRechazo(lote2, rechazados);
      EstadoTrasLote(p.facturas, lote2, DESACTIVACION, rechazados);
      IdsDeFiltrar(p.facturas, SEGUNDO_RECORDATORIO);
      IdsPrefijo(lote2, m2);
      EventosFueraDeLote(p.facturas, lote2, DESACTIVACION, rechazados, fs[j].id);
      DeFacturaConcat(p.eventos, q.eventos, fs[j].id);
    }
  }

  /** A refused address on an invoice in "segundorecordatorio" stops the
      sweep, in the first loop or else in the second. */
  lemma RechazoEnSegundo(fs: seq<Factura>, rechazados: set<string>, j: nat)
    requires IdsUnicos(fs)
    requires j < |fs| && fs[j].estado == SEGUNDO_RECORDATORIO && fs[j].emailCliente in rechazados
    ensures !Barrido(fs, rechazados).completa
  {
    var lote1 := Filtrar(fs, PRIMER_RECORDATORIO);
    var p := ProcesarLote(fs, lote1, RECORDATORIO, rechazados);
    if p.completa {
      assert p.facturas[j] == fs[j] by {
        TrazaDeLote(fs, lote1, RECORDATORIO, rechazados);
        EstadoTrasLote(fs, lote1, RECORDATORIO, rechazados);
        IdsDeFiltrar(fs, PRIMER_RECORDATORIO);
        assert lote1[..|lote1|] == lote1;
      }
      var lote2 := Filtrar(p.facturas, SEGUNDO_RECORDATORIO);
      assert p.facturas[j] in lote2;
      TrazaDeLote(p.facturas, lote2, DESACTIVACION, rechazados);
    }
  }

  /** The sweep runs to the end exactly when no invoice it queries has an
      address the transport refuses. */
  lemma CompletaSiiSinRechazos(fs: seq<Factura>, rechazados: set<string>)
    requires IdsUnicos(fs)
    ensures Barrido(fs, rechazados).completa <==> SinRechazos(fs, rechazados)
  {
    if SinRechazos(fs, rechazados) {
      BarridoSinFallos(fs, rechazados);
    } else {
      var f :| f in fs && Activa(f) && f.emailCliente in rechazados;
      var j :| 0 <= j < |fs| && fs[j] == f;
      if f.estado == PRIMER_RECORDATORIO {
        AbortoEnPrimerLote(fs, rechazados);
      } else {
        RechazoEnSegundo(fs, rechazados, j);
      }
    }
  }

  /** When the transport refuses the address of every invoice the sweep
      queries, nothing is mailed and nothing is written; the sweep runs to the
      end only when there was no such invoice at all. */
  lemma TodoRechazado(fs: seq<Factura>, rechazados: set<string>)
    requires forall f :: f in fs && Activa(f) ==> f.emailCliente in rechazados
    ensures var r := Barrido(fs, rechazados);
            && r.facturas == fs
            && r.eventos == []
            && (r.completa <==> forall f :: f in fs ==> !Activa(f))
  {
    var lote1 := Filtrar(fs, PRIMER_RECORDATORIO);
    var p := ProcesarLote(fs, lote1, RECORDATORIO, rechazados);
    if lote1 != [] {
      assert lote1[0] in lote1;
    } else {
      var lote2 := Filtrar(fs, SEGUNDO_RECORDATORIO);
      assert p == Corrida(fs, [], true);
      if lote2 != [] {
        assert lote2[0] in lote2;
      }
    }
  }

  /** Every message a loop sends carries its subject, and every state it
      writes is its target state. */
  lemma {:induction false} EventosDeUnPaso(fs: seq<Factura>, lote: seq<Factura>, paso: Paso,
                                           rechazados: set<string>)
    decreases |lote|
    ensures var r := ProcesarLote(fs, lote, paso, rechazados);
            && (forall e :: e in r.eventos && e.Enviado? ==> e.correo.asunto == paso.asunto)
            && (forall e :: e in r.eventos && e.Actualizado? ==> e.estado == paso.destino)
  {
    if lote != [] && lote[0].emailCliente !in rechazados {
      EventosDeUnPaso(Actualizada(fs, lote[0].id, paso.destino), lote[1..], paso, rechazados);
    }
  }

  /** When a send of the first loop throws, the second query never runs:
      every message the sweep sent is a first reminder, every state it wrote
      is "segundorecordatorio", and no invoice is left in "desactivado" that
      was not there before. */
  lemma AbortoEnPrimerLote(fs: seq<Factura>, rechazados: set<string>)
    requires IdsUnicos(fs)
    requires exists f :: f in fs && f.estado == PRIMER_RECORDATORIO && f.emailCliente in rechazados
    ensures var r := Barrido(fs, rechazados);
            && !r.completa
            && (forall e :: e in r.eventos && e.Enviado? ==> e.correo.asunto == RECORDATORIO.asunto)
            && (forall e :: e in r.eventos && e.Actualizado? ==> e.estado == SEGUNDO_RECORDATORIO)
            && |r.facturas| == |fs|
            && forall j :: 0 <= j < |fs| ==>
                 (r.facturas[j].estado == DESACTIVADO <==> fs[j].estado == DESACTIVADO)
  {
    var f :| f in fs && f.estado == PRIMER_RECORDATORIO && f.emailCliente in rechazados;
    var lote1 := Filtrar(fs, PRIMER_RECORDATORIO);
    var p := ProcesarLote(fs, lote1, RECORDATORIO, rechazados);
    assert f in lote1;
    var k :| 0 <= k < |lote1| && lote1[k] == f;
    TrazaDeLote(fs, lote1, RECORDATORIO, rechazados);
    assert !p.completa;
    assert Barrido(fs, rechazados) == p;
    EventosDeUnPaso(fs, lote1, RECORDATORIO, rechazados);
    EstadoTrasLote(fs, lote1, RECORDATORIO, rechazados);
    IdsDeFiltrar(fs, PRIMER_RECORDATORIO);
    var m := PrimerRechazo(lote1, rechazados);
    IdsPrefijo(lote1, m);
    forall j | 0 <= j < |fs|
      ensures p.facturas[j].estado == DESACTIVADO <==> fs[j].estado == DESACTIVADO
    {
      if fs[j].id in Ids(lote1[..m]) {
        assert fs[j].estado == PRIMER_RECORDATORIO;
      }
    }
  }

  /** An invoice in "primerrecordatorio" and one in "segundorecordatorio",
      nothing refused: both end in "desactivado", and three messages go out
      (the first invoice gets both). */
  lemma DosFacturas(a: Factura, b: Factura)
    requires a.estado == PRIMER_RECORDATORIO && b.estado == SEGUNDO_RECORDATORIO
    requires a.id != b.id
    ensures var r := Barrido([a, b], {});
            && r.completa
            && r.facturas == [a.(estado := DESACTIVADO), b.(estado := DESACTIVADO)]
            && |Enviados(r.eventos)| == 3
  {
    var fs := [a, b];
    assert fs == [a] + [b] && [b] == [b] + [];
    assert |Filtrar(fs, PRIMER_RECORDATORIO)| == 1 by {
      FiltrarCons(a, [b], PRIMER_RECORDATORIO);
      FiltrarCons(b, [], PRIMER_RECORDATORIO);
    }
    assert |Filtrar(fs, SEGUNDO_RECORDATORIO)| == 1 by {
      FiltrarCons(a, [b], SEGUNDO_RECORDATORIO);
      FiltrarCons(b, [], SEGUNDO_RECORDATORIO);
    }
    BarridoSinFallos(fs, {});
    CuentaDeCorreos(fs, {});
  }

  /** The messages of loop `paso` for each invoice of `lote`, in order. */
  function Avisos(lote: seq<Factura>, paso: Paso): seq<Correo>
  {
    seq(|lote|, k requires 0 <= k < |lote| => Aviso(lote[k], paso))
  }

  /** A loop that no send interrupts sends exactly `Avisos(lote, paso)`. */
  lemma CorreosDeLoteCompleto(fs: seq<Factura>, lote: seq<Factura>, paso: Paso,
                              rechazados: set<string>)
    requires PrimerRechazo(lote, rechazados) == |lote|
    ensures Enviados(ProcesarLote(fs, lote, paso, rechazados).eventos) == Avisos(lote, paso)
  {
    CorreosDeLote(fs, lote, paso, rechazados);
  }

  /** With no refused address, every reminder of the sweep goes out before any
      deactivation notice: first one reminder per invoice of the first query,
      in its order, then one notice per invoice of the second query, in its
      order. */
  lemma OrdenDeCorreos(fs: seq<Factura>, rechazados: set<string>)
    requires IdsUnicos(fs)
    requires SinRechazos(fs, rechazados)
    ensures var lote1 := Filtrar(fs, PRIMER_RECORDATORIO);
            var p := ProcesarLote(fs, lote1, RECORDATORIO, rechazados);
            var lote2 := Filtrar(p.facturas, SEGUNDO_RECORDATORIO);
            Enviados(Barrido(fs, rechazados).eventos)
              == Avisos(lote1, RECORDATORIO) + Avisos(lote2, DESACTIVACION)
  {
    var lote1 := Filtrar(fs, PRIMER_RECORDATORIO);
    var p := ProcesarLote(fs, lote1, RECORDATORIO, rechazados);
    var lote2 := Filtrar(p.facturas, SEGUNDO_RECORDATORIO);
    var q := ProcesarLote(p.facturas, lote2, DESACTIVACION, rechazados);
    assert p.completa && Enviados(p.eventos) == Avisos(lote1, RECORDATORIO) by {
      LoteFiltrado(fs, RECORDATORIO, rechazados);
      CorreosDeLoteCompleto(fs, lote1, RECORDATORIO, rechazados);
    }
    assert Enviados(q.eventos) == Avisos(lote2, DESACTIVACION) by {
      PrimeraCompleta(fs, rechazados);
      LoteFiltrado(p.facturas, DESACTIVACION, rechazados);
      CorreosDeLoteCompleto(p.facturas, lote2, DESACTIVACION, rechazados);
    }
    EnviadosConcat(p.eventos, q.eventos);
  }
}
