/**
 * The invoice store: the `Factura` document and the two operations of
 * `MongoDbService` that the reminder sweep uses, over an in-memory
 * collection kept in insertion (natural) order.
 */
module Facturas {

  datatype Option<+T> = None | Some(value: T)

  /** An invoice document of the "Facturas" collection. `fechaEmision` is the
      issue date as a tick count. */
  datatype Factura = Factura(
    id: string,
    idCliente: string,
    numeroFactura: string,
    fechaEmision: int,
    estado: string,
    emailCliente: string)

  /** `id` is the document's `_id`, which MongoDB keeps unique in a collection. */
  predicate IdsUnicos(fs: seq<Factura>)
  {
    forall i, j :: 0 <= i < j < |fs| ==> fs[i].id != fs[j].id
  }

  /** The identifiers of a list of invoices. */
  function Ids(fs: seq<Factura>): set<string>
  {
    set f | f in fs :: f.id
  }

  /** The documents of `fs` whose `estado` equals `estado`, in collection order:
      the filter `factura.Estado == estado` of the store's query. */
  function Filtrar(fs: seq<Factura>, estado: string): (r: seq<Factura>)
    ensures forall f :: f in r <==> f in fs && f.estado == estado
    ensures IdsUnicos(fs) ==> IdsUnicos(r)
  {
    if fs == [] then []
    else
      var resto := Filtrar(fs[1..], estado);
      assert fs == [fs[0]] + fs[1..];
      if fs[0].estado == estado then
        assert IdsUnicos(fs) ==> forall f :: f in resto ==> f.id != fs[0].id by {
          if IdsUnicos(fs) {
            forall f | f in resto ensures f.id != fs[0].id {
              var k :| 0 <= k < |fs[1..]| && fs[1..][k] == f;
              assert fs[k + 1] == f;
            }
          }
        }
        [fs[0]] + resto
      else
        resto
  }

  /** The query omits no copy and adds none: each document appears in the
      result exactly as often as in the collection when its state matches. */
  lemma {:induction false} FiltrarConserva(fs: seq<Factura>, estado: string)
    ensures forall f :: multiset(Filtrar(fs, estado))[f] ==
                        if f.estado == estado then multiset(fs)[f] else 0
  {
    if fs != [] {
      FiltrarConserva(fs[1..], estado);
      assert fs == [fs[0]] + fs[1..];
    }
  }

  /** The position of the first document whose `_id` is `id`, if any: the
      document an `UpdateOne` with filter `Id == id` touches. */
  function IndiceDe(fs: seq<Factura>, id: string): (r: Option<nat>)
    ensures r.None? <==> forall k :: 0 <= k < |fs| ==> fs[k].id != id
    ensures r.Some? ==> r.value < |fs| && fs[r.value].id == id
    ensures r.Some? ==> forall k :: 0 <= k < r.value ==> fs[k].id != id
  {
    if fs == [] then None
    else if fs[0].id == id then Some(0)
    else match IndiceDe(fs[1..], id)
      case None => None
      case Some(k) => Some(k + 1)
  }

  /** The collection after `UpdateOne(Id == id, Set(Estado, estado))`. */
  function Actualizada(fs: seq<Factura>, id: string, estado: string): (r: seq<Factura>)
    ensures |r| == |fs|
  {
    match IndiceDe(fs, id)
    case None => fs
    case Some(i) => fs[i := fs[i].(estado := estado)]
  }

  /** What `UpdateOne` by `_id` does to the collection: it sets the state of
      the first document with that identifier, and changes nothing else. */
  lemma ActualizadaEfecto(fs: seq<Factura>, id: string, estado: string)
    ensures var r := Actualizada(fs, id, estado);
            // only the state field of a document can change
            && (forall k :: 0 <= k < |fs| ==> r[k] == fs[k].(estado := r[k].estado))
            // documents with another identifier are untouched
            && (forall k :: 0 <= k < |fs| && fs[k].id != id ==> r[k] == fs[k])
            // when no document has that identifier the collection is unchanged
            && ((forall k :: 0 <= k < |fs| ==> fs[k].id != id) ==> r == fs)
            // the first document with that identifier gets the new state, later ones do not
            && (forall k :: 0 <= k < |fs| && fs[k].id == id ==>
                  (forall j :: 0 <= j < k ==> fs[j].id != id) ==> r[k].estado == estado)
            && (forall j, k :: 0 <= j < k < |fs| && fs[j].id == id ==> r[k] == fs[k])
            && Ids(r) == Ids(fs)
  {
    var r := Actualizada(fs, id, estado);
    match IndiceDe(fs, id)
    case None =>
    case Some(i) =>
      assert forall k :: 0 <= k < |fs| ==> r[k].id == fs[k].id;
      forall x | x in Ids(r) ensures x in Ids(fs) {
        var k :| 0 <= k < |r| && r[k].id == x;
        assert fs[k] in fs;
      }
      forall x | x in Ids(fs) ensures x in Ids(r) {
        var k :| 0 <= k < |fs| && fs[k].id == x;
        assert r[k] in r;
      }
  }

  /** Under unique identifiers, an `UpdateOne` by `_id` sets the state of the
      one document with that identifier and of no other, and identifiers stay
      unique. */
  lemma ActualizadaUnica(fs: seq<Factura>, id: string, estado: string)
    requires IdsUnicos(fs)
    ensures var r := Actualizada(fs, id, estado);
            && IdsUnicos(r)
            && forall k :: 0 <= k < |fs| ==>
                 r[k] == if fs[k].id == id then fs[k].(estado := estado) else fs[k]
  {
    ActualizadaEfecto(fs, id, estado);
    var r := Actualizada(fs, id, estado);
    forall k | 0 <= k < |fs| && fs[k].id == id
      ensures r[k] == fs[k].(estado := estado)
    {
      assert forall j :: 0 <= j < k ==> fs[j].id != id;
    }
    assert forall k :: 0 <= k < |fs| ==> r[k].id == fs[k].id;
  }

  /** The in-memory stand-in for `MongoDbService` and its "Facturas" collection. */
  class MongoDbService {
    var facturas: seq<Factura>

    constructor (iniciales: seq<Factura>)
      ensures facturas == iniciales
    {
      facturas := iniciales;
    }

    /** `ObtenerFacturasPorEstado`: every stored invoice in state `estado`, and
        only those, with their multiplicity, in collection order. */
    function ObtenerFacturasPorEstado(estado: string): (r: seq<Factura>)
      reads this
      ensures forall f :: f in r <==> f in facturas && f.estado == estado
      ensures forall f :: multiset(r)[f] == if f.estado == estado then multiset(facturas)[f] else 0
    {
      FiltrarConserva(facturas, estado);
      Filtrar(facturas, estado)
    }

    /** `ActualizarEstadoFactura`: sets `Estado` on the invoice with `_id == id`. */
    method ActualizarEstadoFactura(id: string, nuevoEstado: string)
      modifies this
      ensures facturas == Actualizada(old(facturas), id, nuevoEstado)
      ensures IdsUnicos(old(facturas)) ==>
                && IdsUnicos(facturas)
                && forall k :: 0 <= k < |facturas| ==>
                     facturas[k] == if old(facturas)[k].id == id
                                    then old(facturas)[k].(estado := nuevoEstado)
                                    else old(facturas)[k]
    {
      if IdsUnicos(facturas) {
        ActualizadaUnica(facturas, id, nuevoEstado);
      }
      facturas := Actualizada(facturas, id, nuevoEstado);
    }
  }
}
