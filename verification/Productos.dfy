/** The products router (backend/app/routers/productos.py): the payload
    normalisation, the listing queries of the public and the admin endpoints, and
    the admin create, update and delete with their 400/403/404 rules. */
module Productos {
  import opened Values
  import opened Text
  import opened Schemas
  import opened Database
  import Orders

  // ---------------------------------------------------------------- _normalize_payload

  /** The keys whose string values are stripped, in the order they are visited. */
  const StrippedKeys: seq<string> := ["nombre", "descripcion", "categoria", "imagenUrl"]

  predicate IsStrippedKey(k: string)
  {
    k in StrippedKeys
  }

  /** The visiting order lists each stripped key once. */
  lemma StrippedKeysListed()
    ensures forall i, j :: 0 <= i < j < |StrippedKeys| ==> StrippedKeys[i] != StrippedKeys[j]
  {
    assert StrippedKeys[2][0] == 'c' && StrippedKeys[3][0] == 'i';
  }

  /** The value stored under `k` once normalised: text of the four text fields is
      stripped, anything else is kept. */
  function Stripped(k: string, v: Value): (r: Value)
    ensures r.Str? == v.Str?
    ensures r.Str? ==> |r.s| <= |v.s|
    ensures IsStrippedKey(k) && v.Str? ==> r == Str(Trim(Py, v.s))
    ensures !(IsStrippedKey(k) && v.Str?) ==> r == v
  {
    if IsStrippedKey(k) && v.Str? then Str(Trim(Py, v.s)) else v
  }

  /** What `_normalize_payload(payload)` returns: `activo` added as
      `bool(disponible)` when only `disponible` is given, then the strings of the
      four text fields stripped. */
  function Normalized(payload: Dict): (r: Dict)
    ensures r.Keys == if "disponible" in payload then payload.Keys + {"activo"} else payload.Keys
    ensures "activo" in payload ==> r["activo"] == payload["activo"]
    ensures "disponible" in payload && "activo" !in payload ==>
      r["activo"] == Bool(PyTruthy(payload["disponible"]))
    ensures forall k :: k in payload ==> r[k] == Stripped(k, payload[k])
  {
    var w := WithActivo(payload);
    map k | k in w :: Stripped(k, w[k])
  }

  /** The payload after the loop of `_normalize_payload` has visited `keys`. */
  function StripKeys(w: Dict, keys: seq<string>): Dict
  {
    if keys == [] then w
    else
      var prev := StripKeys(w, keys[..|keys| - 1]);
      var key := keys[|keys| - 1];
      if key in prev && prev[key].Str? then prev[key := Str(Trim(Py, prev[key].s))] else prev
  }

  /** Visiting distinct keys strips the text under exactly those keys. */
  lemma {:induction false} StripKeysSpec(w: Dict, keys: seq<string>)
    requires forall i, j :: 0 <= i < j < |keys| ==> keys[i] != keys[j]
    ensures StripKeys(w, keys).Keys == w.Keys
    ensures forall k :: k in w ==>
      StripKeys(w, keys)[k] == if k in keys && w[k].Str? then Str(Trim(Py, w[k].s)) else w[k]
  {
    if keys != [] {
      var n := |keys| - 1;
      var before := keys[..n];
      StripKeysSpec(w, before);
      assert keys == before + [keys[n]];
      assert keys[n] !in before by {
        forall j | 0 <= j < |before|
          ensures before[j] != keys[n]
        {
          assert before[j] == keys[j];
        }
      }
    }
  }

  /** Visiting all four keys gives the normalised payload. */
  lemma StripAllKeys(payload: Dict)
    ensures StripKeys(WithActivo(payload), StrippedKeys) == Normalized(payload)
  {
    StrippedKeysListed();
    StripKeysSpec(WithActivo(payload), StrippedKeys);
  }

  /** `_normalize_payload`: works on a copy, so the caller's dict is not changed
      (the method may not modify it). */
  method NormalizePayload(payload: PyDict) returns (out: Dict)
    ensures out == Normalized(payload.items)
  {
    out := payload.items;
    if "disponible" in out && "activo" !in out {
      out := out["activo" := Bool(PyTruthy(PyGet(out, "disponible", Null)))];
    }
    ghost var w := WithActivo(payload.items);
    var i := 0;
    while i < |StrippedKeys|
      invariant 0 <= i <= |StrippedKeys|
      invariant out == StripKeys(w, StrippedKeys[..i])
    {
      var key := StrippedKeys[i];
      ghost var visited := StrippedKeys[..i + 1];
      assert visited[..i] == StrippedKeys[..i] && visited[i] == key && visited != [];
      if key in out && out[key].Str? {
        out := out[key := Str(Trim(Py, out[key].s))];
      }
      i := i + 1;
    }
    assert StrippedKeys[..i] == StrippedKeys;
    StripAllKeys(payload.items);
  }

  /** Normalising a normalised payload changes nothing: `activo` is present after
      the first pass and stripped text has nothing left to strip. */
  lemma NormalizedIdempotent(payload: Dict)
    ensures Normalized(Normalized(payload)) == Normalized(payload)
  {
    var once := Normalized(payload);
    forall k | k in once && IsStrippedKey(k) && once[k].Str?
      ensures Normalized(once)[k] == once[k]
    {
      var v := if k in payload then payload[k] else Null;
      if v.Str? {
        TrimIdempotent(Py, v.s);
      }
    }
  }

  // ---------------------------------------------------------------- listing

  /** A MongoDB filter: field names to required values. */
  type Query = map<string, Value>

  /** `find(query)` selects a record when every field of the filter matches. */
  predicate Selects(q: Query, doc: Dict)
  {
    forall k :: k in q ==> FieldMatches(doc, k, q[k])
  }

  /** The filter `listar_productos` sends: the category when one is given and not
      empty; `activo` unless `all == 1`, taken from `activo`, else from
      `disponible`, else True. */
  function PublicQuery(categoria: Option<string>, activo: Option<bool>, all: Option<int>, disponible: Option<bool>)
    : (q: Query)
    ensures q.Keys <= {"categoria", "activo"}
    ensures "categoria" in q <==> categoria.Some? && categoria.value != ""
    ensures "categoria" in q ==> q["categoria"] == Str(categoria.value)
    ensures "activo" in q <==> all != Some(1)
    ensures "activo" in q ==> q["activo"] == Bool(
      match (activo, disponible)
      case (Some(a), _) => a
      case (None, Some(d)) => d
      case (None, None) => true)
  {
    var withCategory: Query := if categoria.Some? && categoria.value != "" then map["categoria" := Str(categoria.value)] else map[];
    if all == Some(1) then withCategory
    else withCategory["activo" := Bool(
      match (activo, disponible)
      case (Some(a), _) => a
      case (None, Some(d)) => d
      case (None, None) => true)]
  }

  /** `listar_productos`: the filter built step by step, reassigning `activo`. */
  method ListarProductos(categoria: Option<string>, activo: Option<bool>, all: Option<int>, disponible: Option<bool>)
    returns (q: Query)
    ensures q == PublicQuery(categoria, activo, all, disponible)
  {
    q := map[];
    if categoria.Some? && categoria.value != "" {
      q := q["categoria" := Str(categoria.value)];
    }
    var act := activo;
    if disponible.Some? && act.None? {
      act := Some(disponible.value);
    }
    if all != Some(1) {
      if act.None? {
        act := Some(true);
      }
      q := q["activo" := Bool(act.value)];
    }
  }

  /** With no parameters the public listing shows exactly the active products. */
  lemma DefaultListingShowsActive(doc: Dict)
    ensures Selects(PublicQuery(None, None, None, None), doc) <==> FieldMatches(doc, "activo", Bool(true))
  {
    var q := PublicQuery(None, None, None, None);
    assert q == map["activo" := Bool(true)];
  }

  /** With `all=1` the public listing drops the `activo` filter: within the
      category (if any), every product is shown, active or not. */
  lemma AllListsEveryProduct(categoria: Option<string>, activo: Option<bool>, disponible: Option<bool>, doc: Dict)
    ensures Selects(PublicQuery(categoria, activo, Some(1), disponible), doc) <==>
      (categoria.Some? && categoria.value != "" ==> FieldMatches(doc, "categoria", Str(categoria.value)))
  {
    var q := PublicQuery(categoria, activo, Some(1), disponible);
    if categoria.Some? && categoria.value != "" {
      assert q == map["categoria" := Str(categoria.value)];
    } else {
      assert q == map[];
    }
  }

  /** A listing asked for by category shows only products of that category. */
  lemma CategoryListingMatches(c: string, activo: Option<bool>, all: Option<int>, disponible: Option<bool>, doc: Dict)
    requires c != ""
    requires Selects(PublicQuery(Some(c), activo, all, disponible), doc)
    ensures FieldMatches(doc, "categoria", Str(c))
  {
    assert "categoria" in PublicQuery(Some(c), activo, all, disponible);
  }

  /** `disponible` only stands in for a missing `activo`. */
  lemma DisponibleStandsInForActivo(categoria: Option<string>, activo: Option<bool>, all: Option<int>, d: bool)
    ensures PublicQuery(categoria, activo, all, Some(d))
         == PublicQuery(categoria, if activo.Some? then activo else Some(d), all, None)
  {
  }

  /** The filter `admin_list_products` sends, where `all` defaults to 1: no
      `activo` filter unless `all != 1`, and then `activo` defaults to True. */
  function AdminQuery(categoria: Option<string>, activo: Option<bool>, all: int): (q: Query)
    ensures q.Keys <= {"categoria", "activo"}
    ensures "categoria" in q <==> categoria.Some? && categoria.value != ""
    ensures "categoria" in q ==> q["categoria"] == Str(categoria.value)
    ensures "activo" in q <==> all != 1
    ensures "activo" in q ==> q["activo"] == Bool(activo != Some(false))
  {
    var withCategory: Query := if categoria.Some? && categoria.value != "" then map["categoria" := Str(categoria.value)] else map[];
    if all == 1 then withCategory
    else withCategory["activo" := Bool(if activo.Some? then activo.value else true)]
  }

  /** The admin filter is the public filter with `all` given and no `disponible`. */
  lemma AdminQueryIsPublicQuery(categoria: Option<string>, activo: Option<bool>, all: int)
    ensures AdminQuery(categoria, activo, all) == PublicQuery(categoria, activo, Some(all), None)
  {
    var a := AdminQuery(categoria, activo, all);
    var p := PublicQuery(categoria, activo, Some(all), None);
    assert a.Keys == p.Keys;
  }

  /** `admin_list_products`: 403 for a caller who is not an admin, otherwise the
      filter built step by step. */
  method AdminListProducts(user: Dict, categoria: Option<string>, activo: Option<bool>, all: int)
    returns (r: Result<Query, HttpError>)
    ensures Orders.RequireAdmin(user).Err? <==> r.Err?
    ensures r.Err? ==> r.error == Orders.AdminOnly
    ensures r.Ok? ==> r.value == AdminQuery(categoria, activo, all)
  {
    var admin := Orders.RequireAdmin(user);
    if admin.Err? {
      return Err(admin.error);
    }
    var q: Query := map[];
    if categoria.Some? && categoria.value != "" {
      q := q["categoria" := Str(categoria.value)];
    }
    if all != 1 {
      var act := activo;
      if act.None? {
        act := Some(true);
      }
      q := q["activo" := Bool(act.value)];
    }
    r := Ok(q);
  }

  // ---------------------------------------------------------------- validation order

  /** The body as the code handles it: validated as `ProductoIn` (after the
      before-validator), dumped, and only then normalised, so stripping can undo
      what validation checked. */
  function ValidatedAsWritten(raw: Dict): (r: Result<Dict, HttpError>)
    ensures r.Ok? <==> ValidateProductoIn(WithActivo(raw)).Ok?
    ensures r.Ok? ==> r.value == Normalized(ValidateProductoIn(WithActivo(raw)).value)
    ensures r.Err? ==> r.error == ValidateProductoIn(WithActivo(raw)).error
  {
    match ValidateProductoIn(WithActivo(raw))
    case Ok(d) => Ok(Normalized(d))
    case Err(e) => Err(e)
  }

  /** Stripping text keeps every field but the name acceptable. */
  lemma StripKeepsFieldOk(k: string, v: Value)
    requires k != "nombre" && ProductoFieldOk(k, v)
    ensures ProductoFieldOk(k, Stripped(k, v))
  {
  }

  /** Normalising a dump of acceptable declared fields keeps its keys and every
      field but the name acceptable. */
  lemma NormalizedDumpFields(dump: Dict)
    requires dump.Keys <= ProductoFields
    requires forall k :: k in dump ==> ProductoFieldOk(k, dump[k])
    ensures Normalized(dump).Keys == dump.Keys
    ensures forall k :: k in dump && k != "nombre" ==> ProductoFieldOk(k, Normalized(dump)[k])
  {
    var d := Normalized(dump);
    UndeclaredFields();
    forall k | k in dump && k != "nombre"
      ensures ProductoFieldOk(k, d[k])
    {
      StripKeepsFieldOk(k, dump[k]);
    }
  }

  /** What the code as written stores: the declared fields, required ones
      present, each acceptable except possibly the stripped name. */
  lemma AsWrittenFields(raw: Dict)
    requires ValidatedAsWritten(raw).Ok?
    ensures var d := ValidatedAsWritten(raw).value;
      && d.Keys <= ProductoFields && RequiredProductoFields <= d.Keys
      && forall k :: k in d && k != "nombre" ==> ProductoFieldOk(k, d[k])
  {
    var dump := ValidateProductoIn(WithActivo(raw)).value;
    NormalizedDumpFields(dump);
  }

  /** The body handled as written, with the name checked again once stripped,
      so that what is stored is what was checked: 422 naming `nombre` when the
      stripped name is too short. */
  function ValidatedPayload(raw: Dict): (r: Result<Dict, HttpError>)
    ensures r.Ok? <==>
      ValidatedAsWritten(raw).Ok? && ProductoFieldOk("nombre", ValidatedAsWritten(raw).value["nombre"])
    ensures r.Ok? ==> r == ValidatedAsWritten(raw)
    ensures r.Ok? ==> r.value.Keys <= ProductoFields && RequiredProductoFields <= r.value.Keys
    ensures r.Ok? ==> forall k :: k in r.value ==> ProductoFieldOk(k, r.value[k])
    ensures r.Err? ==> r.error.status == 422
    ensures ValidatedAsWritten(raw).Ok? && r.Err? ==> r.error == HttpError(422, Invalid({"nombre"}))
  {
    match ValidatedAsWritten(raw)
    case Err(e) => Err(e)
    case Ok(d) =>
      AsWrittenFields(raw);
      if ProductoFieldOk("nombre", d["nombre"]) then Ok(d) else Err(HttpError(422, Invalid({"nombre"})))
  }

  // ---------------------------------------------------------------- create

  /** `data.setdefault("activo", True)` and `data.setdefault("stock", 0)`. */
  function WithDefaults(d: Dict): (r: Dict)
    ensures r.Keys == d.Keys + {"activo", "stock"}
    ensures forall k :: k in d ==> r[k] == d[k]
    ensures "activo" !in d ==> r["activo"] == Bool(true)
    ensures "stock" !in d ==> r["stock"] == Num(0.0)
  {
    var a := if "activo" in d then d else d["activo" := Bool(true)];
    if "stock" in a then a else a["stock" := Num(0.0)]
  }

  /** A stored product as `find_one` and `serialize_doc` give it back. */
  function Served(record: Dict, id: string): (doc: Dict)
    ensures doc.Keys == record.Keys + {"_id"} && doc["_id"] == Str(id)
    ensures forall k :: k in record && k != "_id" ==> doc[k] == record[k]
  {
    record["_id" := Str(id)]
  }

  /** As written, a name that is two characters long only with its surrounding
      space passes validation, is stored stripped, and the response model then
      rejects the stored product: the create answers 500 after inserting. */
  lemma CreateAsWrittenCanStoreUnservable(id: string)
    ensures var raw := map["nombre" := Str(" a"), "precio" := Num(1.0)];
      && ValidatedAsWritten(raw).Ok?
      && ProductoOutOf(Served(WithDefaults(ValidatedAsWritten(raw).value), id)).Err?
  {
    var raw := map["nombre" := Str(" a"), "precio" := Num(1.0)];
    SampleValidatesAsWritten(raw);
    var d := ValidatedAsWritten(raw).value;
    var doc := Served(WithDefaults(d), id);
    assert doc["nombre"] == Str("a");
    assert "nombre" in ProductoErrors(WithActivo(doc));
  }

  /** The sample body passes the as-written validation and is stored with the
      one-character name. */
  lemma SampleValidatesAsWritten(raw: Dict)
    requires raw == map["nombre" := Str(" a"), "precio" := Num(1.0)]
    ensures ValidatedAsWritten(raw).Ok? && ValidatedAsWritten(raw).value["nombre"] == Str("a")
  {
    assert WithActivo(raw) == raw;
    assert ProductoErrors(raw) == {};
    StripSample();
  }

  /** Python's `" a".strip()` is `"a"`. */
  lemma StripSample()
    ensures Trim(Py, " a") == "a"
  {
    assert IsSpace(Py, ' ') && !IsSpace(Py, 'a');
    assert SpanFrom(Py, " a", 1) == 1;
    assert SpanFrom(Py, " a", 0) == 1;
    assert SpanBack(Py, " a", 2) == 2;
  }

  /** A record of valid declared fields, with the create defaults, is one the
      response model accepts. */
  lemma ValidRecordIsServable(d: Dict, id: string)
    requires d.Keys <= ProductoFields && RequiredProductoFields <= d.Keys
    requires forall k :: k in d ==> ProductoFieldOk(k, d[k])
    ensures ProductoOutOf(Served(WithDefaults(d), id)).Ok?
  {
    var rec := WithDefaults(d);
    var doc := Served(rec, id);
    UndeclaredFields();
    assert WithActivo(doc) == doc;
    assert forall k :: k in rec ==> ProductoFieldOk(k, rec[k]);
    assert ValidateProductoIn(doc).Ok?;
  }

  /** With the normalised validation, every product the create stores is one the
      response model accepts. */
  lemma CreatedIsServable(raw: Dict, id: string)
    requires ValidatedPayload(raw).Ok?
    ensures ProductoOutOf(Served(WithDefaults(ValidatedPayload(raw).value), id)).Ok?
  {
    ValidRecordIsServable(ValidatedPayload(raw).value, id);
  }

  /** `admin_create_product` for a new record id: 403 for a caller who is not an
      admin, 422 for a body that does not validate (both change nothing);
      otherwise the normalised payload with `activo` and `stock` defaulted is
      inserted and served back. */
  method AdminCreateProduct(db: Db, user: Dict, raw: Dict, newId: string) returns (r: Result<ProductoOut, HttpError>)
    requires newId !in db.productos
    modifies db`productos
    ensures Orders.RequireAdmin(user).Err? ==> r == Err(Orders.AdminOnly)
    ensures Orders.RequireAdmin(user).Ok? && ValidatedPayload(raw).Err? ==> r == Err(ValidatedPayload(raw).error)
    ensures r.Err? ==> db.productos == old(db.productos)
    ensures r.Ok? <==> Orders.RequireAdmin(user).Ok? && ValidatedPayload(raw).Ok?
    ensures r.Ok? ==>
      && db.productos == old(db.productos)[newId := WithDefaults(ValidatedPayload(raw).value)]
      && r == ProductoOutOf(Served(db.productos[newId], newId))
  {
    var admin := Orders.RequireAdmin(user);
    if admin.Err? {
      return Err(admin.error);
    }
    var checked := ValidatedPayload(raw);
    if checked.Err? {
      return Err(checked.error);
    }
    var data := checked.value;
    if "activo" !in data {
      data := data["activo" := Bool(true)];
    }
    if "stock" !in data {
      data := data["stock" := Num(0.0)];
    }
    assert data == WithDefaults(checked.value);
    db.productos := db.productos[newId := data];
    CreatedIsServable(raw, newId);
    r := ProductoOutOf(Served(data, newId));
  }

  // ---------------------------------------------------------------- update and delete

  const ProductNotFound := HttpError(404, Msg("Not Found"))

  /** `_oid(s)` of this router: a bson id, or 400 "ObjectId inválido". */
  function ProductOid(s: string): (r: Result<string, HttpError>)
    ensures r.Ok? <==> ParseOid(s).Some?
    ensures r.Ok? ==> r.value == ParseOid(s).value
    ensures r.Err? ==> r.error == HttpError(400, Msg("ObjectId inválido"))
  {
    match ParseOid(s)
    case Some(id) => Ok(id)
    case None => Err(HttpError(400, Msg("ObjectId inválido")))
  }

  /** `$set`: the record with the given fields overwritten or added. */
  function SetFields(record: Dict, data: Dict): (r: Dict)
    ensures r.Keys == record.Keys + data.Keys
    ensures forall k :: k in data ==> r[k] == data[k]
    ensures forall k :: k in record && k !in data ==> r[k] == record[k]
  {
    map k | k in record.Keys + data.Keys :: if k in data then data[k] else record[k]
  }

  /** `admin_update_product`: 403, then 422 for the body, then 400 for a
      malformed id, then 404 when no product has that id; otherwise the
      normalised payload is `$set` on that product alone and it is served back. */
  method AdminUpdateProduct(db: Db, user: Dict, productId: string, raw: Dict) returns (r: Result<ProductoOut, HttpError>)
    modifies db`productos
    ensures Orders.RequireAdmin(user).Err? ==> r == Err(Orders.AdminOnly)
    ensures Orders.RequireAdmin(user).Ok? && ValidatedPayload(raw).Err? ==> r == Err(ValidatedPayload(raw).error)
    ensures (Orders.RequireAdmin(user).Ok? && ValidatedPayload(raw).Ok? && ParseOid(productId).None?) ==>
      r == Err(ProductOid(productId).error)
    ensures (Orders.RequireAdmin(user).Ok? && ValidatedPayload(raw).Ok? && ParseOid(productId).Some?
             && ParseOid(productId).value !in old(db.productos)) ==> r == Err(ProductNotFound)
    ensures (Orders.RequireAdmin(user).Ok? && ValidatedPayload(raw).Ok? && ParseOid(productId).Some?
             && ParseOid(productId).value in old(db.productos)) ==>
      var id := ParseOid(productId).value;
      && db.productos == old(db.productos)[id := SetFields(old(db.productos)[id], ValidatedPayload(raw).value)]
      && r == ProductoOutOf(Served(db.productos[id], id))
    ensures r.Err? && r.error.status != 500 ==> db.productos == old(db.productos)
  {
    var admin := Orders.RequireAdmin(user);
    if admin.Err? {
      return Err(admin.error);
    }
    var checked := ValidatedPayload(raw);
    if checked.Err? {
      return Err(checked.error);
    }
    var id := ProductOid(productId);
    if id.Err? {
      return Err(id.error);
    }
    if id.value !in db.productos {
      return Err(ProductNotFound);
    }
    var updated := SetFields(db.productos[id.value], checked.value);
    db.productos := db.productos[id.value := updated];
    r := ProductoOutOf(Served(updated, id.value));
  }

  /** `admin_delete_product`: 403, then 400 for a malformed id, then 404 when no
      product has that id; otherwise that product alone is removed (204). */
  method AdminDeleteProduct(db: Db, user: Dict, productId: string) returns (r: Result<(), HttpError>)
    modifies db`productos
    ensures Orders.RequireAdmin(user).Err? ==> r == Err(Orders.AdminOnly)
    ensures Orders.RequireAdmin(user).Ok? && ParseOid(productId).None? ==> r == Err(ProductOid(productId).error)
    ensures (Orders.RequireAdmin(user).Ok? && ParseOid(productId).Some?
             && ParseOid(productId).value !in old(db.productos)) ==> r == Err(ProductNotFound)
    ensures r.Err? ==> db.productos == old(db.productos)
    ensures r.Ok? <==>
      Orders.RequireAdmin(user).Ok? && ParseOid(productId).Some? && ParseOid(productId).value in old(db.productos)
    ensures r.Ok? ==> db.productos == old(db.productos) - {ParseOid(productId).value}
  {
    var admin := Orders.RequireAdmin(user);
    if admin.Err? {
      return Err(admin.error);
    }
    var id := ProductOid(productId);
    if id.Err? {
      return Err(id.error);
    }
    if id.value !in db.productos {
      return Err(ProductNotFound);
    }
    db.productos := db.productos - {id.value};
    r := Ok(());
  }
}
