/** The orders router (backend/app/routers/orders.py): the checks of
    `create_order`, the per-line price snapshot and its total, the insert with status
    CREATED, the caller's history and detail, and the admin status patch. */
module Orders {
  import opened Values
  import opened Text
  import opened Schemas
  import opened Database

  /** `_oid(s)`: a bson id, or 400 naming the text that is not one. */
  function Oid(s: string): (r: Result<string, HttpError>)
    ensures r.Ok? <==> ParseOid(s).Some?
    ensures r.Ok? ==> r.value == ParseOid(s).value
    ensures r.Err? ==> r.error == HttpError(400, About("ObjectId inválido: ", Str(s), ""))
  {
    match ParseOid(s)
    case Some(id) => Ok(id)
    case None => Err(HttpError(400, About("ObjectId inválido: ", Str(s), "")))
  }

  // ---------------------------------------------------------------- checks

  const EmptyCart := HttpError(400, Msg("Carrito vacío"))
  const NameRequired := HttpError(422, Msg("Nombre de entrega requerido"))
  const BadPhone := HttpError(422, Msg("Teléfono inválido"))
  const ShortAddress := HttpError(422, Msg("Dirección muy corta"))

  /** The delivery rules the server applies: a name that is not blank, a stripped
      phone matching the pattern, a stripped address of at least 5 characters. */
  predicate DeliveryOk(p: OrderCreate)
  {
    && Trim(Py, p.nombre) != []
    && PhoneOk(Py, Trim(Py, p.telefono))
    && |Trim(Py, p.direccion)| >= 5
  }

  /** The checks at the top of `create_order`, in their order: an empty cart is a
      400 before anything else, then a blank name, a bad phone and a short address
      are each a 422. */
  function CheckOrder(p: OrderCreate): (r: Option<HttpError>)
    ensures r.None? <==> p.items != [] && DeliveryOk(p)
    ensures p.items == [] ==> r == Some(EmptyCart)
    ensures p.items != [] && Trim(Py, p.nombre) == [] ==> r == Some(NameRequired)
    ensures p.items != [] && Trim(Py, p.nombre) != [] && !PhoneOk(Py, Trim(Py, p.telefono)) ==>
      r == Some(BadPhone)
    ensures (p.items != [] && Trim(Py, p.nombre) != [] && PhoneOk(Py, Trim(Py, p.telefono))
             && |Trim(Py, p.direccion)| < 5) ==> r == Some(ShortAddress)
    ensures r.Some? ==> (r.value.status == 400 <==> p.items == [])
  {
    if p.items == [] then Some(EmptyCart)
    else if p.nombre == "" || Trim(Py, p.nombre) == [] then Some(NameRequired)
    else if !PhoneOk(Py, Trim(Py, p.telefono)) then Some(BadPhone)
    else if p.direccion == "" || |Trim(Py, p.direccion)| < 5 then Some(ShortAddress)
    else None
  }

  // ---------------------------------------------------------------- snapshot

  /** `find_one({"_id": _oid(id), "activo": True})`: the product's key and record,
      or 400 when the id is malformed, the product is missing or it is not active. */
  function ActiveProduct(productos: map<string, Dict>, id: string): (r: Result<(string, Dict), HttpError>)
    ensures r.Ok? <==>
      ParseOid(id).Some? && ParseOid(id).value in productos
      && FieldMatches(productos[ParseOid(id).value], "activo", Bool(true))
    ensures r.Ok? ==> r.value == (ParseOid(id).value, productos[ParseOid(id).value])
    ensures ParseOid(id).None? ==> r == Err(Oid(id).error)
    ensures ParseOid(id).Some? && r.Err? ==>
      r == Err(HttpError(400, About("Producto no disponible: ", Str(id), "")))
  {
    match Oid(id)
    case Err(e) => Err(e)
    case Ok(key) =>
      if key in productos && FieldMatches(productos[key], "activo", Bool(true))
      then Ok((key, productos[key]))
      else Err(HttpError(400, About("Producto no disponible: ", Str(id), "")))
  }

  /** The snapshot line for one requested item: the product's price (0 when it has
      none) and name as stored now, the requested quantity, and the subtotal rounded
      to cents; a price `float()` rejects is a 500 error. */
  function SnapLine(productos: map<string, Dict>, it: Item): (r: Result<OrderLine, HttpError>)
    ensures ActiveProduct(productos, it.productoId).Err? ==>
      r == Err(ActiveProduct(productos, it.productoId).error)
    ensures r.Ok? <==>
      ActiveProduct(productos, it.productoId).Ok?
      && PyFloat(PyGet(ActiveProduct(productos, it.productoId).value.1, "precio", Num(0.0))).Some?
    ensures ActiveProduct(productos, it.productoId).Ok? && r.Err? ==>
      r == Err(HttpError(500, Msg("Internal Server Error")))
    ensures r.Ok? ==>
      && r.value.productoId == ParseOid(it.productoId).value
      && r.value.qty == it.qty
      && r.value.subtotal == PyRound2(LineAmount(r.value))
      && Some(r.value.precio) == PyFloat(PyGet(productos[r.value.productoId], "precio", Num(0.0)))
      && r.value.nombre == PyGet(productos[r.value.productoId], "nombre", Null)
      && r.value.imagenUrl == Some(PyGet(productos[r.value.productoId], "imagenUrl", Null))
  {
    match ActiveProduct(productos, it.productoId)
    case Err(e) => Err(e)
    case Ok((key, doc)) =>
      match PyFloat(PyGet(doc, "precio", Num(0.0)))
      case None => Err(HttpError(500, Msg("Internal Server Error")))
      case Some(precio) => Ok(SnapEntry(key, doc, precio, it.qty))
  }

  /** The snapshot entry `{producto_id, nombre, precio, qty, subtotal, imagenUrl}`
      for a product: the subtotal is the line amount rounded to cents. */
  function SnapEntry(key: string, prod: Dict, precio: real, qty: int): (l: OrderLine)
    ensures l.productoId == key && l.precio == precio && l.qty == qty
    ensures l.nombre == PyGet(prod, "nombre", Null) && l.imagenUrl == Some(PyGet(prod, "imagenUrl", Null))
    ensures l.subtotal == PyRound2(LineAmount(l))
  {
    var l := OrderLine(key, PyGet(prod, "nombre", Null), precio, qty, PyRound2(precio * qty as real),
                       Some(PyGet(prod, "imagenUrl", Null)));
    assert LineAmount(l) == precio * qty as real;
    l
  }

  /** The unrounded `precio * qty` of a line. */
  function LineAmount(l: OrderLine): real
  {
    l.precio * l.qty as real
  }

  /** The sum of the unrounded line amounts. */
  function RawTotal(lines: seq<OrderLine>): real
  {
    if lines == [] then 0.0 else RawTotal(lines[..|lines| - 1]) + LineAmount(lines[|lines| - 1])
  }

  /** The loop's outcome over the per-item results in order: the running
      (unrounded) total and the lines, or the error of the first item that fails. */
  function Collect(results: seq<Result<OrderLine, HttpError>>): (r: Result<(real, seq<OrderLine>), HttpError>)
    ensures r.Ok? ==> |r.value.1| == |results|
  {
    if results == [] then Ok((0.0, []))
    else
      var n := |results| - 1;
      match Collect(results[..n])
      case Err(e) => Err(e)
      case Ok((t, ls)) =>
        match results[n]
        case Err(e) => Err(e)
        case Ok(l) => Ok((t + LineAmount(l), ls + [l]))
  }

  /** The result of each requested item on its own. */
  function SnapLines(productos: map<string, Dict>, items: seq<Item>): (rs: seq<Result<OrderLine, HttpError>>)
    ensures |rs| == |items|
    ensures forall k :: 0 <= k < |items| ==> rs[k] == SnapLine(productos, items[k])
  {
    seq(|items|, k requires 0 <= k < |items| => SnapLine(productos, items[k]))
  }

  /** What `_calc_total_snapshot_and_reserve` computes before rounding: the lines of
      the requested items in order and the sum of their amounts, or the error of the
      first item that fails. */
  function SnapshotOf(productos: map<string, Dict>, items: seq<Item>): (r: Result<(real, seq<OrderLine>), HttpError>)
    ensures r.Ok? ==> |r.value.1| == |items|
  {
    Collect(SnapLines(productos, items))
  }

  /** Once an item has failed, the later items do not matter. */
  lemma {:induction false} CollectErrorSticks(results: seq<Result<OrderLine, HttpError>>, m: nat)
    requires m <= |results| && Collect(results[..m]).Err?
    ensures Collect(results) == Collect(results[..m])
    decreases |results|
  {
    if m == |results| {
      assert results[..m] == results;
    } else {
      var n := |results| - 1;
      assert results[..n][..m] == results[..m];
      CollectErrorSticks(results[..n], m);
    }
  }

  /** A successful outcome holds, at each position, the line of that result. */
  lemma {:induction false} CollectLineAt(results: seq<Result<OrderLine, HttpError>>, k: nat)
    requires Collect(results).Ok? && k < |results|
    ensures results[k] == Ok(Collect(results).value.1[k])
  {
    var n := |results| - 1;
    var before := results[..n];
    assert Collect(before).Ok? && results[n].Ok?;
    assert Collect(results).value.1 == Collect(before).value.1 + [results[n].value];
    if k < n {
      CollectLineAt(before, k);
      assert before[k] == results[k];
    }
  }

  /** The total of a successful outcome is the sum of its lines' amounts. */
  lemma {:induction false} CollectTotal(results: seq<Result<OrderLine, HttpError>>)
    requires Collect(results).Ok?
    ensures Collect(results).value.0 == RawTotal(Collect(results).value.1)
  {
    if results != [] {
      var n := |results| - 1;
      var before := results[..n];
      var prev := Collect(before);
      assert prev.Ok? && results[n].Ok?;
      CollectTotal(before);
      var l := results[n].value;
      var out := prev.value.1 + [l];
      assert Collect(results).value == (prev.value.0 + LineAmount(l), out);
      assert |out| - 1 == n && out[..n] == prev.value.1 && out[n] == l;
    }
  }

  /** Result `k` fails with `e` and every result before it succeeds. */
  predicate FirstFailure(results: seq<Result<OrderLine, HttpError>>, k: nat, e: HttpError)
    requires k < |results|
  {
    results[k] == Err(e) && forall j :: 0 <= j < k ==> results[j].Ok?
  }

  /** A failed outcome carries the error of the first failing result. */
  lemma {:induction false} CollectFirstError(results: seq<Result<OrderLine, HttpError>>)
    requires Collect(results).Err?
    ensures exists k :: 0 <= k < |results| && FirstFailure(results, k, Collect(results).error)
  {
    var n := |results| - 1;
    var before := results[..n];
    if Collect(before).Err? {
      CollectFirstError(before);
      var k :| 0 <= k < n && FirstFailure(before, k, Collect(before).error);
      assert forall j :: 0 <= j <= k ==> results[j] == before[j];
      assert FirstFailure(results, k, Collect(results).error);
    } else {
      forall j | 0 <= j < n
        ensures results[j].Ok?
      {
        CollectLineAt(before, j);
        assert results[j] == before[j];
      }
      assert FirstFailure(results, n, Collect(results).error);
    }
  }

  /** A successful result extends the outcome of the results before it. */
  lemma CollectAppend(results: seq<Result<OrderLine, HttpError>>, k: nat, total: real, lines: seq<OrderLine>)
    requires k < |results| && Collect(results[..k]) == Ok((total, lines)) && results[k].Ok?
    ensures Collect(results[..k + 1]) == Ok((total + LineAmount(results[k].value), lines + [results[k].value]))
  {
    var next := results[..k + 1];
    assert |next| - 1 == k && next[..k] == results[..k] && next[k] == results[k];
  }

  /** A failing result is the failure the whole outcome ends with. */
  lemma CollectStops(results: seq<Result<OrderLine, HttpError>>, k: nat)
    requires k < |results| && Collect(results[..k]).Ok? && results[k].Err?
    ensures Collect(results) == Err(results[k].error)
  {
    var next := results[..k + 1];
    assert |next| - 1 == k && next[..k] == results[..k] && next[k] == results[k];
    CollectErrorSticks(results, k + 1);
  }

  /** One step of the snapshot loop: a failing item is the outcome, a line is
      added to the running total and appended. */
  lemma SnapStep(productos: map<string, Dict>, items: seq<Item>, k: nat, total: real, lines: seq<OrderLine>,
                 res: Result<OrderLine, HttpError>)
    requires k < |items| && Collect(SnapLines(productos, items)[..k]) == Ok((total, lines))
    requires res == SnapLine(productos, items[k])
    ensures res.Err? ==> SnapshotOf(productos, items) == Err(res.error)
    ensures res.Ok? ==>
      Collect(SnapLines(productos, items)[..k + 1]) == Ok((total + LineAmount(res.value), lines + [res.value]))
  {
    var rs := SnapLines(productos, items);
    assert res == rs[k];
    if res.Err? {
      CollectStops(rs, k);
    } else {
      CollectAppend(rs, k, total, lines);
    }
  }

  /** A snapshot that succeeds has, for each requested item in order, the line
      that item gives, and its total is the sum of the unrounded line amounts. */
  lemma SnapshotLines(productos: map<string, Dict>, items: seq<Item>)
    requires SnapshotOf(productos, items).Ok?
    ensures var ls := SnapshotOf(productos, items).value.1;
      forall k :: 0 <= k < |items| ==> SnapLine(productos, items[k]) == Ok(ls[k])
    ensures SnapshotOf(productos, items).value.0 == RawTotal(SnapshotOf(productos, items).value.1)
  {
    var rs := SnapLines(productos, items);
    forall k | 0 <= k < |items|
      ensures SnapLine(productos, items[k]) == Ok(Collect(rs).value.1[k])
    {
      CollectLineAt(rs, k);
    }
    CollectTotal(rs);
  }

  /** A snapshot that fails carries the error of the first item that fails, and
      every item before that one succeeds; no order is written then. */
  lemma SnapshotFirstError(productos: map<string, Dict>, items: seq<Item>)
    requires SnapshotOf(productos, items).Err?
    ensures exists k :: 0 <= k < |items| && FirstFailure(SnapLines(productos, items), k, SnapshotOf(productos, items).error)
  {
    CollectFirstError(SnapLines(productos, items));
  }

  /** A snapshot fails exactly when some item fails. */
  lemma SnapshotFailsIff(productos: map<string, Dict>, items: seq<Item>)
    ensures SnapshotOf(productos, items).Err? <==>
      exists k :: 0 <= k < |items| && SnapLine(productos, items[k]).Err?
  {
    var rs := SnapLines(productos, items);
    if Collect(rs).Err? {
      CollectFirstError(rs);
      var k :| 0 <= k < |rs| && FirstFailure(rs, k, Collect(rs).error);
      assert SnapLine(productos, items[k]).Err?;
    } else {
      SnapshotLines(productos, items);
    }
  }

  /** The body of the loop of `_calc_total_snapshot_and_reserve` for one item: look
      up the active product and take its price for the snapshot line. */
  method SnapshotItem(productos: map<string, Dict>, it: Item) returns (r: Result<OrderLine, HttpError>)
    ensures r == SnapLine(productos, it)
  {
    var found := ActiveProduct(productos, it.productoId);
    if found.Err? {
      return Err(found.error);
    }
    var key := found.value.0;
    var prod := found.value.1;
    var precio := PyFloat(PyGet(prod, "precio", Num(0.0)));
    if precio.None? {
      return Err(HttpError(500, Msg("Internal Server Error")));
    }
    r := Ok(SnapEntry(key, prod, precio.value, it.qty));
  }

  /** The loop of `_calc_total_snapshot_and_reserve`: for each item look up the
      active product, take its price, add `precio * qty` to the running total and
      append the snapshot line; the first item that fails ends it. */
  method SnapshotLoop(productos: map<string, Dict>, items: seq<Item>)
    returns (r: Result<(real, seq<OrderLine>), HttpError>)
    ensures r == SnapshotOf(productos, items)
  {
    var total := 0.0;
    var snapshot: seq<OrderLine> := [];
    var k := 0;
    while k < |items|
      invariant 0 <= k <= |items|
      invariant Collect(SnapLines(productos, items)[..k]) == Ok((total, snapshot))
    {
      var res := SnapshotItem(productos, items[k]);
      SnapStep(productos, items, k, total, snapshot, res);
      if res.Err? {
        return Err(res.error);
      }
      total := total + LineAmount(res.value);
      snapshot := snapshot + [res.value];
      k := k + 1;
    }
    assert SnapLines(productos, items)[..k] == SnapLines(productos, items);
    r := Ok((total, snapshot));
  }

  /** `_calc_total_snapshot_and_reserve`: the loop, then the total rounded to cents. */
  method CalcTotalSnapshot(productos: map<string, Dict>, items: seq<Item>)
    returns (r: Result<(real, seq<OrderLine>), HttpError>)
    ensures SnapshotOf(productos, items).Err? ==> r == Err(SnapshotOf(productos, items).error)
    ensures SnapshotOf(productos, items).Ok? ==>
      r == Ok((PyRound2(SnapshotOf(productos, items).value.0), SnapshotOf(productos, items).value.1))
  {
    var raw := SnapshotLoop(productos, items);
    if raw.Err? {
      return raw;
    }
    r := Ok((PyRound2(raw.value.0), raw.value.1));
  }

  // ---------------------------------------------------------------- create

  /** The response of `create_order` and each entry of `my_orders`. */
  datatype OrderOut = OrderOut(id: string, code: string, total: real, status: OrderStatus, creadoAt: int)

  function DeliveryOf(p: OrderCreate): Delivery
  {
    Delivery(p.nombre, Some(p.telefono), Some(p.direccion), p.notas)
  }

  /** `create_order` for the caller `userId`. The new record's id, its code and the
      clock reading are given. The order is written only when every check passes,
      the snapshot succeeds and the caller's id parses; it then has status CREATED,
      the snapshot lines and the total rounded to cents. */
  method CreateOrder(db: Db, p: OrderCreate, userId: string, newId: string, code: string, now: int)
    returns (r: Result<OrderOut, HttpError>)
    requires newId !in db.pedidos
    modifies db`pedidos
    ensures r.Ok? <==>
      CheckOrder(p).None? && SnapshotOf(old(db.productos), p.items).Ok? && ParseOid(userId).Some?
    ensures r.Err? ==> db.pedidos == old(db.pedidos)
    ensures CheckOrder(p).Some? ==> r == Err(CheckOrder(p).value)
    ensures CheckOrder(p).None? && SnapshotOf(old(db.productos), p.items).Err? ==>
      r == Err(SnapshotOf(old(db.productos), p.items).error)
    ensures CheckOrder(p).None? && SnapshotOf(old(db.productos), p.items).Ok? && ParseOid(userId).None? ==>
      r == Err(Oid(userId).error)
    ensures r.Ok? ==>
      var snap := SnapshotOf(old(db.productos), p.items).value;
      && db.pedidos == old(db.pedidos)[newId := Order(code, ParseOid(userId).value, snap.1,
                                                      PyRound2(snap.0), Created, DeliveryOf(p), now)]
      && r.value == OrderOut(newId, code, PyRound2(snap.0), Created, now)
  {
    var bad := CheckOrder(p);
    if bad.Some? {
      return Err(bad.value);
    }
    var computed := CalcTotalSnapshot(db.productos, p.items);
    if computed.Err? {
      return Err(computed.error);
    }
    var (total, lines) := computed.value;
    var owner := Oid(userId);
    if owner.Err? {
      return Err(owner.error);
    }
    db.pedidos := db.pedidos[newId := Order(code, owner.value, lines, total, Created, DeliveryOf(p), now)];
    r := Ok(OrderOut(newId, code, total, Created, now));
  }

  // ---------------------------------------------------------------- history

  /** The ids of the orders (`/api/orders` records) owned by `owner`. */
  function Owned(pedidos: map<string, StoredOrder>, owner: string): (ids: set<string>)
    ensures ids <= pedidos.Keys
    ensures forall id :: id in ids <==> id in pedidos && pedidos[id].Order? && pedidos[id].userId == owner
  {
    set id | id in pedidos && pedidos[id].Order? && pedidos[id].userId == owner
  }

  function Summary(id: string, o: StoredOrder): OrderOut
    requires o.Order?
  {
    OrderOut(id, o.code, o.total, o.status, o.createdAt)
  }

  /** `my_orders`: a summary of each of the caller's orders and of no other record,
      each once, newest first; 400 when the caller's id does not parse. */
  method MyOrders(pedidos: map<string, StoredOrder>, userId: string) returns (r: Result<seq<OrderOut>, HttpError>)
    ensures ParseOid(userId).None? ==> r == Err(Oid(userId).error)
    ensures ParseOid(userId).Some? ==> r.Ok?
    ensures r.Ok? ==> forall k :: 0 <= k < |r.value| ==>
      r.value[k].id in Owned(pedidos, ParseOid(userId).value)
      && r.value[k] == Summary(r.value[k].id, pedidos[r.value[k].id])
    ensures r.Ok? ==> forall id :: id in Owned(pedidos, ParseOid(userId).value) ==>
      exists k :: 0 <= k < |r.value| && r.value[k].id == id
    ensures r.Ok? ==> forall i, j :: 0 <= i < j < |r.value| ==>
      r.value[i].id != r.value[j].id && r.value[i].creadoAt >= r.value[j].creadoAt
  {
    var owner := Oid(userId);
    if owner.Err? {
      return Err(owner.error);
    }
    var mine := Owned(pedidos, owner.value);
    var ids := NewestFirst(pedidos, mine);
    var out: seq<OrderOut> := [];
    var k := 0;
    while k < |ids|
      invariant 0 <= k <= |ids|
      invariant |out| == k
      invariant forall j :: 0 <= j < k ==> out[j] == Summary(ids[j], pedidos[ids[j]])
    {
      out := out + [Summary(ids[k], pedidos[ids[k]])];
      k := k + 1;
    }
    forall id | id in mine
      ensures exists j :: 0 <= j < |out| && out[j].id == id
    {
      var j :| 0 <= j < |ids| && ids[j] == id;
      assert out[j].id == id;
    }
    r := Ok(out);
  }

  const OrderNotFound := HttpError(404, Msg("Pedido no encontrado"))

  /** `order_detail`: the record when it is an order of the caller's; 404 for a
      record that is missing or belongs to someone else, 400 for a malformed id. */
  function OrderDetail(pedidos: map<string, StoredOrder>, orderId: string, userId: string)
    : (r: Result<StoredOrder, HttpError>)
    ensures ParseOid(orderId).None? ==> r == Err(Oid(orderId).error)
    ensures ParseOid(orderId).Some? && ParseOid(userId).None? ==> r == Err(Oid(userId).error)
    ensures ParseOid(orderId).Some? && ParseOid(userId).Some? ==>
      if ParseOid(orderId).value in Owned(pedidos, ParseOid(userId).value)
      then r == Ok(pedidos[ParseOid(orderId).value])
      else r == Err(OrderNotFound)
  {
    match (Oid(orderId), Oid(userId))
    case (Err(e), _) => Err(e)
    case (Ok(_), Err(e)) => Err(e)
    case (Ok(id), Ok(owner)) =>
      if id in pedidos && pedidos[id].Order? && pedidos[id].userId == owner
      then Ok(pedidos[id]) else Err(OrderNotFound)
  }

  // ---------------------------------------------------------------- admin

  const AdminOnly := HttpError(403, Msg("Solo admin"))

  /** `_require_admin` (and `require_admin` of productos.py): the caller passes
      only when its record's `rol` is the string "admin". */
  function RequireAdmin(user: Dict): (r: Result<Dict, HttpError>)
    ensures r.Ok? <==> "rol" in user && user["rol"] == Str("admin")
    ensures r.Ok? ==> r.value == user
    ensures r.Err? ==> r.error == AdminOnly
  {
    if PyGet(user, "rol", Null) != Str("admin") then Err(AdminOnly) else Ok(user)
  }

  /** A record with the status an admin set. */
  function WithStatus(o: StoredOrder, s: OrderStatus): (r: StoredOrder)
    ensures r.Order? == o.Order? && r.items == o.items && r.total == o.total && Stamp(r) == Stamp(o)
    ensures r.Order? ==> r.status == s
    ensures r.Pedido? ==> r.adminStatus == Some(s) && r.estado == o.estado
  {
    match o
    case Order(_, _, _, _, _, _, _) => o.(status := s)
    case Pedido(_, _, _, _, _, _, _) => o.(adminStatus := Some(s))
  }

  /** `admin_update_status`: 403 for a caller who is not an admin, 422 for a
      status outside the four, 400 for a malformed id, 404 when no record has that
      id; otherwise only that record's status changes. */
  method AdminUpdateStatus(db: Db, user: Dict, orderId: string, status: string)
    returns (r: Result<(), HttpError>)
    modifies db`pedidos
    ensures RequireAdmin(user).Err? ==> r == Err(AdminOnly)
    ensures RequireAdmin(user).Ok? && ParseStatus(status).None? ==> r.Err? && r.error.status == 422
    ensures RequireAdmin(user).Ok? && ParseStatus(status).Some? && ParseOid(orderId).None? ==>
      r == Err(Oid(orderId).error)
    ensures (RequireAdmin(user).Ok? && ParseStatus(status).Some? && ParseOid(orderId).Some?
             && ParseOid(orderId).value !in old(db.pedidos)) ==> r == Err(OrderNotFound)
    ensures r.Err? ==> db.pedidos == old(db.pedidos)
    ensures r.Ok? ==>
      && ParseStatus(status).Some? && ParseOid(orderId).Some? && ParseOid(orderId).value in old(db.pedidos)
      && var id := ParseOid(orderId).value;
         db.pedidos == old(db.pedidos)[id := WithStatus(old(db.pedidos)[id], ParseStatus(status).value)]
  {
    var admin := RequireAdmin(user);
    if admin.Err? {
      return Err(admin.error);
    }
    var s := ParseStatus(status);
    if s.None? {
      return Err(HttpError(422, Invalid({"status"})));
    }
    var id := Oid(orderId);
    if id.Err? {
      return Err(id.error);
    }
    if id.value !in db.pedidos {
      return Err(OrderNotFound);
    }
    db.pedidos := db.pedidos[id.value := WithStatus(db.pedidos[id.value], s.value)];
    r := Ok(());
  }
}
