/** The MongoDB side of the API server: the collections as maps from id to record,
    bson ids, query equality, `serialize_doc` (backend/app/database.py) and the
    newest-first order the history endpoints sort by. */
module Database {
  import opened Values
  import opened Text
  import opened Schemas

  // ---------------------------------------------------------------- ids

  predicate IsOidText(s: string)
  {
    |s| == 24 && forall k :: 0 <= k < |s| ==> IsHexDigit(s[k])
  }

  /** bson's `ObjectId(s)` on a string: 24 hexadecimal digits, kept in the
      lower-case form `str(oid)` writes; any other string raises. */
  function ParseOid(s: string): (r: Option<string>)
    ensures r.Some? <==> IsOidText(s)
    ensures r.Some? ==> |r.value| == 24 && r.value == Lower(s)
  {
    if IsOidText(s) then Some(Lower(s)) else None
  }

  /** `ObjectId(str(oid))` is `oid`: the text of a parsed id parses to itself, and
      ids that differ only in letter case denote the same id. */
  lemma ParseOidCanonical(s: string)
    requires ParseOid(s).Some?
    ensures ParseOid(ParseOid(s).value) == ParseOid(s)
  {
    var t := Lower(s);
    assert IsOidText(t) by {
      forall k | 0 <= k < |t| ensures IsHexDigit(t[k]) {
        assert t[k] == LowerChar(s[k]);
      }
    }
    assert Lower(t) == t;
  }

  /** Query equality `{k: v}`: the field holds `v`, or is an array holding `v`. */
  predicate FieldMatches(doc: Dict, k: string, v: Value)
  {
    k in doc && (doc[k] == v || (doc[k].Arr? && v in doc[k].elems))
  }

  // ---------------------------------------------------------------- serialize_doc

  /** `serialize_doc(doc)`, with None for Python's None. */
  function SerializedDoc(doc: Option<Dict>): (r: Option<Dict>)
    ensures doc.None? || doc.value == map[] ==> r == doc
    ensures doc.Some? ==> r.Some? && r.value.Keys == doc.value.Keys
    ensures doc.Some? && "_id" in doc.value && doc.value["_id"].ObjectId? ==>
      r.value["_id"] == Str(doc.value["_id"].hex)
    ensures doc.Some? ==> forall k :: k in doc.value && !(k == "_id" && doc.value[k].ObjectId?) ==>
      r.value[k] == doc.value[k]
  {
    match doc
    case None => None
    case Some(d) =>
      if "_id" in d && d["_id"].ObjectId? then Some(d["_id" := Str(d["_id"].hex)]) else doc
  }

  /** `serialize_doc`: a falsy document comes back as it is; otherwise a copy whose
      ObjectId `_id` is replaced by its text. The caller's value is never changed. */
  method SerializeDoc(doc: Option<Dict>) returns (r: Option<Dict>)
    ensures r == SerializedDoc(doc)
  {
    if doc.None? || doc.value == map[] {
      return doc;
    }
    var d := doc.value;
    if "_id" in d && d["_id"].ObjectId? {
      d := d["_id" := Str(d["_id"].hex)];
    }
    r := Some(d);
  }

  /** A serialized document has no ObjectId `_id` left, so serializing it again
      changes nothing. */
  lemma SerializeDocIdempotent(doc: Option<Dict>)
    ensures SerializedDoc(SerializedDoc(doc)) == SerializedDoc(doc)
  {
  }

  // ---------------------------------------------------------------- orders

  /** One line of a stored order: the product id, its name and price at the time,
      the quantity and the line subtotal. Lines written by `/api/orders` also keep
      the image (`imagenUrl` is Some); those written by `/api/pedidos` do not. */
  datatype OrderLine = OrderLine(
    productoId: string, nombre: Value, precio: real, qty: int, subtotal: real,
    imagenUrl: Option<Value>)

  /** The delivery data as the client sent it. */
  datatype Delivery = Delivery(
    nombre: string, telefono: Option<string>, direccion: Option<string>, notas: Option<string>)

  /** The `pedidos` collection holds two shapes of record: an `Order` written by
      `/api/orders` (owner `userId`, `status`, `createdAt`) and a `Pedido` written by
      `/api/pedidos` (owner `usuario_id`, `estado`, `creadoAt`, and a `status` only
      once an admin has set one). Timestamps are whole numbers of clock ticks. */
  datatype StoredOrder =
    | Order(code: string, userId: string, items: seq<OrderLine>, total: real,
            status: OrderStatus, delivery: Delivery, createdAt: int)
    | Pedido(usuarioId: Value, items: seq<OrderLine>, total: real, estado: string,
             delivery: Delivery, creadoAt: int, adminStatus: Option<OrderStatus>)

  /** The timestamp a history sorts by. */
  function Stamp(o: StoredOrder): int
  {
    match o
    case Order(_, _, _, _, _, _, at) => at
    case Pedido(_, _, _, _, _, at, _) => at
  }

  /** The database: products (without their `_id`, which is the key), the shared
      orders collection, and the customers. */
  class Db {
    var productos: map<string, Dict>
    var pedidos: map<string, StoredOrder>
    var clientes: map<string, Dict>

    constructor (productos: map<string, Dict>, pedidos: map<string, StoredOrder>, clientes: map<string, Dict>)
      ensures this.productos == productos && this.pedidos == pedidos && this.clientes == clientes
    {
      this.productos := productos;
      this.pedidos := pedidos;
      this.clientes := clientes;
    }
  }

  // ---------------------------------------------------------------- newest first

  /** Some record of a non-empty selection is at least as recent as all the others. */
  lemma {:induction false} NewestExists(table: map<string, StoredOrder>, rest: set<string>)
    requires rest != {} && rest <= table.Keys
    ensures exists n :: n in rest && forall id :: id in rest ==> Stamp(table[id]) <= Stamp(table[n])
  {
    var a :| a in rest;
    if rest != {a} {
      NewestExists(table, rest - {a});
      var b :| b in rest - {a} && forall id :: id in rest - {a} ==> Stamp(table[id]) <= Stamp(table[b]);
      if Stamp(table[a]) > Stamp(table[b]) {
        assert forall id :: id in rest ==> Stamp(table[id]) <= Stamp(table[a]);
      } else {
        assert forall id :: id in rest ==> Stamp(table[id]) <= Stamp(table[b]);
      }
    }
  }

  /** A cursor's `.sort(stamp, -1)` over the selected records: each selected id
      exactly once, most recent first (records with equal stamps in any order). */
  method NewestFirst(table: map<string, StoredOrder>, selected: set<string>) returns (ids: seq<string>)
    requires selected <= table.Keys
    ensures forall k :: 0 <= k < |ids| ==> ids[k] in selected
    ensures forall id :: id in selected ==> id in ids
    ensures forall i, j :: 0 <= i < j < |ids| ==> ids[i] != ids[j]
    ensures forall i, j :: 0 <= i < j < |ids| ==> Stamp(table[ids[i]]) >= Stamp(table[ids[j]])
  {
    ids := [];
    var rest := selected;
    while rest != {}
      invariant rest <= selected
      invariant forall k :: 0 <= k < |ids| ==> ids[k] in selected && ids[k] !in rest
      invariant forall id :: id in selected ==> id in rest || id in ids
      invariant forall i, j :: 0 <= i < j < |ids| ==> ids[i] != ids[j]
      invariant forall i, j :: 0 <= i < j < |ids| ==> Stamp(table[ids[i]]) >= Stamp(table[ids[j]])
      invariant forall k, id :: 0 <= k < |ids| && id in rest ==> Stamp(table[ids[k]]) >= Stamp(table[id])
      decreases rest
    {
      NewestExists(table, rest);
      var n :| n in rest && forall id :: id in rest ==> Stamp(table[id]) <= Stamp(table[n]);
      ids := ids + [n];
      rest := rest - {n};
    }
  }
}
