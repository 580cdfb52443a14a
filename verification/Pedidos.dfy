/** The older orders router (backend/app/routers/pedidos.py): `crear_pedido`
    checks and decrements the stock of each requested product in turn, then writes
    the order with estado "creado"; `mis_pedidos` lists the caller's records. */
module Pedidos {
  import opened Values
  import opened Schemas
  import opened Database
  import Orders

  const NoItems := HttpError(400, Msg("El pedido debe tener items"))
  const ServerError := HttpError(500, Msg("Internal Server Error"))

  /** `find_one({"_id": to_object_id(id), "activo": True})`. The helper
      `to_object_id` is taken to parse the id as bson does, so a malformed id finds
      nothing. */
  function FindActive(productos: map<string, Dict>, id: string): (r: Option<string>)
    ensures r.Some? <==>
      ParseOid(id).Some? && ParseOid(id).value in productos
      && FieldMatches(productos[ParseOid(id).value], "activo", Bool(true))
    ensures r.Some? ==> r.value == ParseOid(id).value
  {
    match ParseOid(id)
    case None => None
    case Some(key) =>
      if key in productos && FieldMatches(productos[key], "activo", Bool(true)) then Some(key) else None
  }

  /** `prod["nombre"]`, None where Python raises KeyError. */
  function NameOf(doc: Dict): Option<Value>
  {
    if "nombre" in doc then Some(doc["nombre"]) else None
  }

  /** A 409 naming the product, or a 500 when the product has no name to name. */
  function Conflict(prefix: string, doc: Dict): (e: HttpError)
    ensures e.status == (if "nombre" in doc then 409 else 500)
  {
    match NameOf(doc)
    case Some(n) => HttpError(409, About(prefix, n, ""))
    case None => ServerError
  }

  /** What one line does: its result and the product table after it. */
  datatype Step = Step(result: Result<OrderLine, HttpError>, productos: map<string, Dict>)

  /** `after` is `before` with `qty` taken from the numeric stock of product
      `key`, which held at least `qty`; nothing else differs. */
  predicate Took(before: map<string, Dict>, after: map<string, Dict>, key: string, qty: int)
  {
    && key in before && HasStock(before[key])
    && before[key]["stock"].n >= qty as real
    && after == before[key := Decremented(before[key], qty)]
  }

  /** The record has a numeric `stock`, the only kind `$inc` updates. */
  predicate HasStock(doc: Dict)
  {
    "stock" in doc && doc["stock"].Num?
  }

  /** `$inc: {stock: -amount}` on a record with a numeric stock. */
  function Decremented(doc: Dict, amount: int): (r: Dict)
    requires HasStock(doc)
    ensures HasStock(r) && r.Keys == doc.Keys
    ensures r["stock"].n == doc["stock"].n - amount as real
  {
    doc["stock" := Num(doc["stock"].n - amount as real)]
  }

  /** Two decrements add up. */
  lemma DecrementTwice(doc: Dict, a: int, b: int)
    requires HasStock(doc)
    ensures Decremented(Decremented(doc, a), b) == Decremented(doc, a + b)
  {
    var once := Decremented(doc, a);
    assert once["stock"].n - b as real == doc["stock"].n - (a + b) as real;
    UpdateTwice(doc, "stock", Num(doc["stock"].n - a as real), Num(doc["stock"].n - (a + b) as real));
  }

  /** The line `crear_pedido` records: the product's name and price at the time,
      the quantity, and the price times the quantity. */
  function LineFor(key: string, nombre: Value, precio: real, qty: int): (l: OrderLine)
    ensures l.productoId == key && l.nombre == nombre && l.precio == precio && l.qty == qty
    ensures l.subtotal == Orders.LineAmount(l) && l.imagenUrl.None?
  {
    OrderLine(key, nombre, precio, qty, precio * qty as real, None)
  }

  /** One pass of the loop of `crear_pedido`:
      - 404 when the product is missing, inactive or its id is malformed;
      - `prod.get("stock", 0) < qty` is a 409 "Sin stock para"; a stock Python
        cannot compare is a 500;
      - the guarded update `{stock: {$gte: qty}}` with `$inc: -qty` matches only a
        numeric stock, so a boolean stock that passed the comparison is a 409
        "Stock cambió para";
      - after the decrement, a missing or unusable price or name is a 500, and the
        decrement stays. */
  function ProcessItem(productos: map<string, Dict>, it: Item): (s: Step)
    ensures FindActive(productos, it.productoId).None? ==>
      s == Step(Err(HttpError(404, About("Producto ", Str(it.productoId), " no encontrado"))), productos)
    ensures s.productos == productos
         || Took(productos, s.productos, FindActive(productos, it.productoId).value, it.qty)
    ensures s.result.Ok? ==>
      var key := FindActive(productos, it.productoId).value;
      && Took(productos, s.productos, key, it.qty)
      && s.result.value.productoId == key && s.result.value.qty == it.qty
      && s.result.value.subtotal == Orders.LineAmount(s.result.value)
      && s.result.value.imagenUrl.None?
  {
    match FindActive(productos, it.productoId)
    case None => Step(Err(HttpError(404, About("Producto ", Str(it.productoId), " no encontrado"))), productos)
    case Some(key) =>
      var doc := productos[key];
      match PyNumber(PyGet(doc, "stock", Num(0.0)))
      case None => Step(Err(ServerError), productos)
      case Some(stock) =>
        if stock < it.qty as real then Step(Err(Conflict("Sin stock para ", doc)), productos)
        else if "stock" !in doc || !doc["stock"].Num? then Step(Err(Conflict("Stock cambió para ", doc)), productos)
        else
          var after := productos[key := Decremented(doc, it.qty)];
          var precio := if "precio" in doc then PyFloat(doc["precio"]) else None;
          match (precio, NameOf(doc))
          case (Some(pr), Some(nombre)) => Step(Ok(LineFor(key, nombre, pr, it.qty)), after)
          case _ => Step(Err(ServerError), after)
  }

  /** The outcome of one line for a product that is found, case by case:
      a stock Python cannot compare is a 500; less stock than requested is the 409
      "Sin stock para", and neither touches the table; enough stock that is not a
      number (so the guarded update matches nothing) is the 409 "Stock cambió para";
      otherwise the stock is taken and the line succeeds exactly when the record has
      a price `float` accepts and a name, which the line then records. */
  lemma ItemOutcome(productos: map<string, Dict>, it: Item)
    requires FindActive(productos, it.productoId).Some?
    ensures var key := FindActive(productos, it.productoId).value;
      var doc := productos[key];
      var stock := PyNumber(PyGet(doc, "stock", Num(0.0)));
      var s := ProcessItem(productos, it);
      && (stock.None? ==> s == Step(Err(ServerError), productos))
      && (stock.Some? && stock.value < it.qty as real ==> s == Step(Err(Conflict("Sin stock para ", doc)), productos))
      && (stock.Some? && stock.value >= it.qty as real && !HasStock(doc) ==>
            s == Step(Err(Conflict("Stock cambió para ", doc)), productos))
      && (stock.Some? && stock.value >= it.qty as real && HasStock(doc) ==>
            && Took(productos, s.productos, key, it.qty)
            && (s.result.Ok? <==> "precio" in doc && PyFloat(doc["precio"]).Some? && "nombre" in doc)
            && (s.result.Err? ==> s.result.error == ServerError)
            && (s.result.Ok? ==> Some(s.result.value.precio) == PyFloat(doc["precio"])
                                 && s.result.value.nombre == doc["nombre"]))
  {
  }

  /** The table and the outcome after a prefix of the lines. */
  datatype Progress = Progress(productos: map<string, Dict>, outcome: Result<(real, seq<OrderLine>), HttpError>)

  /** What the loop of `crear_pedido` has done after the given lines: the lines run
      in order, each on the table the previous ones left, the first failure ends the
      loop, and the unrounded line totals are summed. */
  function RunItems(productos: map<string, Dict>, items: seq<Item>): (p: Progress)
    ensures p.outcome.Ok? ==> |p.outcome.value.1| == |items|
  {
    if items == [] then Progress(productos, Ok((0.0, [])))
    else Advance(RunItems(productos, items[..|items| - 1]), items[|items| - 1])
  }

  /** One pass of the loop after the earlier ones: nothing happens after a failure;
      otherwise the line is processed and its subtotal added. */
  function Advance(prev: Progress, it: Item): (p: Progress)
    ensures p.outcome.Ok? ==> prev.outcome.Ok? && |p.outcome.value.1| == |prev.outcome.value.1| + 1
  {
    if prev.outcome.Err? then prev
    else
      var s := ProcessItem(prev.productos, it);
      match s.result
      case Err(e) => Progress(s.productos, Err(e))
      case Ok(l) => Progress(s.productos, Ok((prev.outcome.value.0 + l.subtotal, prev.outcome.value.1 + [l])))
  }

  /** A line that succeeds appends its line and adds its subtotal to the run of
      the lines before it. */
  lemma RunAppend(start: map<string, Dict>, items: seq<Item>, k: nat, total: real, lines: seq<OrderLine>, before: map<string, Dict>)
    requires k < |items| && RunItems(start, items[..k]) == Progress(before, Ok((total, lines)))
    requires ProcessItem(before, items[k]).result.Ok?
    ensures var s := ProcessItem(before, items[k]);
      RunItems(start, items[..k + 1]) == Progress(s.productos, Ok((total + s.result.value.subtotal, lines + [s.result.value])))
  {
    var next := items[..k + 1];
    assert |next| - 1 == k && next[..k] == items[..k] && next[k] == items[k];
  }

  /** A line that fails is where the whole run ends, with the table as that line
      left it. */
  lemma RunStops(start: map<string, Dict>, items: seq<Item>, k: nat, before: map<string, Dict>)
    requires k < |items| && RunItems(start, items[..k]).productos == before && RunItems(start, items[..k]).outcome.Ok?
    requires ProcessItem(before, items[k]).result.Err?
    ensures var s := ProcessItem(before, items[k]);
      RunItems(start, items) == Progress(s.productos, Err(s.result.error))
  {
    var next := items[..k + 1];
    assert |next| - 1 == k && next[..k] == items[..k] && next[k] == items[k];
    RunErrorSticks(start, items, k + 1);
  }

  /** One step of the loop over the lines: a failing line ends the run with its
      error, a line that succeeds extends it. */
  lemma RunStep(start: map<string, Dict>, items: seq<Item>, k: nat, total: real, lines: seq<OrderLine>,
                before: map<string, Dict>, res: Result<OrderLine, HttpError>, after: map<string, Dict>)
    requires k < |items| && RunItems(start, items[..k]) == Progress(before, Ok((total, lines)))
    requires res == ProcessItem(before, items[k]).result && after == ProcessItem(before, items[k]).productos
    ensures res.Err? ==> RunItems(start, items) == Progress(after, Err(res.error))
    ensures res.Ok? ==> RunItems(start, items[..k + 1]) == Progress(after, Ok((total + res.value.subtotal, lines + [res.value])))
  {
    if res.Err? {
      RunStops(start, items, k, before);
    } else {
      RunAppend(start, items, k, total, lines, before);
    }
  }

  /** The lines change records, never which products exist. */
  lemma {:induction false} RunKeepsKeys(productos: map<string, Dict>, items: seq<Item>)
    ensures RunItems(productos, items).productos.Keys == productos.Keys
  {
    if items != [] {
      RunKeepsKeys(productos, items[..|items| - 1]);
    }
  }

  /** The running total of a request that succeeds is the sum of its lines'
      subtotals, the sum `crear_pedido` rounds to cents. */
  lemma {:induction false} RunTotal(productos: map<string, Dict>, items: seq<Item>)
    requires RunItems(productos, items).outcome.Ok?
    ensures RunItems(productos, items).outcome.value.0 == Orders.RawTotal(RunItems(productos, items).outcome.value.1)
  {
    if items != [] {
      var n := |items| - 1;
      var prev := RunItems(productos, items[..n]);
      RunTotal(productos, items[..n]);
      var lines := RunItems(productos, items).outcome.value.1;
      assert lines[..|lines| - 1] == prev.outcome.value.1;
    }
  }

  /** Line `k` of a request that succeeds is what item `k` gives on the table the
      items before it left. */
  lemma {:induction false} RunLineAt(productos: map<string, Dict>, items: seq<Item>, k: nat)
    requires RunItems(productos, items).outcome.Ok? && k < |items|
    ensures ProcessItem(RunItems(productos, items[..k]).productos, items[k]).result
         == Ok(RunItems(productos, items).outcome.value.1[k])
  {
    var n := |items| - 1;
    var prev := RunItems(productos, items[..n]);
    assert RunItems(productos, items) == Advance(prev, items[n]);
    AdvanceOk(prev, items[n]);
    if k < n {
      RunLineAt(productos, items[..n], k);
      assert items[..n][..k] == items[..k] && items[..n][k] == items[k];
    } else {
      assert items[..k] == items[..n];
    }
  }

  /** A pass that succeeds extends a successful run by the line its item gives. */
  lemma AdvanceOk(prev: Progress, it: Item)
    requires Advance(prev, it).outcome.Ok?
    ensures prev.outcome.Ok? && ProcessItem(prev.productos, it).result.Ok?
    ensures Advance(prev, it).outcome.value.1 == prev.outcome.value.1 + [ProcessItem(prev.productos, it).result.value]
  {
  }

  /** After a failure the remaining lines are not run. */
  lemma {:induction false} RunErrorSticks(productos: map<string, Dict>, items: seq<Item>, m: nat)
    requires m <= |items| && RunItems(productos, items[..m]).outcome.Err?
    ensures RunItems(productos, items) == RunItems(productos, items[..m])
    decreases |items|
  {
    if m == |items| {
      assert items[..m] == items;
    } else {
      var n := |items| - 1;
      assert items[..n][..m] == items[..m];
      RunErrorSticks(productos, items[..n], m);
    }
  }

  /** The product a request line names, if its id parses. */
  function KeyOf(it: Item): Option<string>
  {
    ParseOid(it.productoId)
  }

  /** The total quantity the lines request of the product `key`. */
  function Requested(items: seq<Item>, key: string): (n: int)
  {
    if items == [] then 0
    else Requested(items[..|items| - 1], key)
         + (if KeyOf(items[|items| - 1]) == Some(key) then items[|items| - 1].qty else 0)
  }

  /** Lines request positive quantities, so a product's request is never negative. */
  lemma {:induction false} RequestedNonNegative(items: seq<Item>, key: string)
    requires forall k :: 0 <= k < |items| ==> items[k].qty >= 1
    ensures Requested(items, key) >= 0
  {
    if items != [] {
      RequestedNonNegative(items[..|items| - 1], key);
    }
  }

  /** A product no line names keeps its record, whatever happens to the request. */
  lemma {:induction false} UnnamedUnchanged(productos: map<string, Dict>, items: seq<Item>, key: string)
    requires key in productos
    requires forall k :: 0 <= k < |items| ==> KeyOf(items[k]) != Some(key)
    ensures key in RunItems(productos, items).productos && RunItems(productos, items).productos[key] == productos[key]
  {
    if items != [] {
      var n := |items| - 1;
      UnnamedUnchanged(productos, items[..n], key);
      RunKeepsKeys(productos, items);
      var prev := RunItems(productos, items[..n]);
      if prev.outcome.Ok? {
        assert FindActive(prev.productos, items[n].productoId) != Some(key);
      }
    }
  }

  /** Stock that a line decremented is never below zero afterwards: a run keeps
      every numeric stock non-negative if it was so before. */
  predicate StockNonNegative(productos: map<string, Dict>)
  {
    forall k :: k in productos && "stock" in productos[k] && productos[k]["stock"].Num? ==>
      productos[k]["stock"].n >= 0.0
  }

  lemma {:induction false} RunKeepsStockNonNegative(productos: map<string, Dict>, items: seq<Item>)
    requires StockNonNegative(productos)
    ensures StockNonNegative(RunItems(productos, items).productos)
  {
    if items != [] {
      var n := |items| - 1;
      RunKeepsStockNonNegative(productos, items[..n]);
      var prev := RunItems(productos, items[..n]);
      if prev.outcome.Ok? {
        var s := ProcessItem(prev.productos, items[n]);
        forall k | k in s.productos && "stock" in s.productos[k] && s.productos[k]["stock"].Num?
          ensures s.productos[k]["stock"].n >= 0.0
        {
          if s.productos != prev.productos {
            var key := FindActive(prev.productos, items[n].productoId).value;
            assert Took(prev.productos, s.productos, key, items[n].qty);
            if k != key {
              assert s.productos[k] == prev.productos[k];
            }
          }
        }
      }
    }
  }

  /** A request that succeeds takes from each product's stock exactly the
      quantity its lines request, and changes nothing else in the product. */
  lemma {:induction false} RunDecrementsStock(productos: map<string, Dict>, items: seq<Item>, key: string)
    requires key in productos
    requires forall k :: 0 <= k < |items| ==> items[k].qty >= 1
    requires RunItems(productos, items).outcome.Ok?
    ensures key in RunItems(productos, items).productos
    ensures Requested(items, key) == 0 ==> RunItems(productos, items).productos[key] == productos[key]
    ensures Requested(items, key) > 0 ==>
      HasStock(productos[key]) && RunItems(productos, items).productos[key] == Decremented(productos[key], Requested(items, key))
  {
    RunKeepsKeys(productos, items);
    if items != [] {
      var n := |items| - 1;
      var prev := RunItems(productos, items[..n]);
      RunDecrementsStock(productos, items[..n], key);
      AdvanceStock(prev, items[n], key);
      assert RunItems(productos, items) == Advance(prev, items[n]);
      RequestedNonNegative(items[..n], key);
      var base := productos[key];
      var before := Requested(items[..n], key);
      if KeyOf(items[n]) == Some(key) {
        var qty := items[n].qty;
        assert Requested(items, key) == before + qty;
        var after := Advance(prev, items[n]).productos[key];
        assert after == Decremented(prev.productos[key], qty);
        if before > 0 {
          DecrementTwice(base, before, qty);
          assert prev.productos[key] == Decremented(base, before);
        } else {
          assert prev.productos[key] == base && before + qty == qty;
        }
      } else {
        assert Requested(items, key) == before;
      }
    }
  }

  /** One successful line takes its quantity from the product it names and leaves
      every other product as it was. */
  lemma AdvanceStock(prev: Progress, it: Item, key: string)
    requires key in prev.productos && Advance(prev, it).outcome.Ok?
    ensures prev.outcome.Ok? && key in Advance(prev, it).productos
    ensures KeyOf(it) == Some(key) ==>
      HasStock(prev.productos[key]) && Advance(prev, it).productos[key] == Decremented(prev.productos[key], it.qty)
    ensures KeyOf(it) != Some(key) ==> Advance(prev, it).productos[key] == prev.productos[key]
  {
    var s := ProcessItem(prev.productos, it);
    assert Took(prev.productos, s.productos, FindActive(prev.productos, it.productoId).value, it.qty);
  }

  /** Setting a field twice keeps the second value. */
  lemma UpdateTwice(d: Dict, k: string, a: Value, b: Value)
    ensures d[k := a][k := b] == d[k := b]
  {
  }

  /** The lines before `f` all succeed, line `f` fails, and the run ends as that
      line left it. */
  predicate FailsAt(productos: map<string, Dict>, items: seq<Item>, f: nat)
    requires f < |items|
  {
    var prev := RunItems(productos, items[..f]);
    var s := ProcessItem(prev.productos, items[f]);
    prev.outcome.Ok? && s.result.Err? && RunItems(productos, items) == Progress(s.productos, Err(s.result.error))
  }

  /** A request that fails stops at its first failing line; the decrements of the
      lines before it, and of the failing line itself when it fails after its
      update, stay in the table. */
  lemma {:induction false} FailureKeepsEarlierDecrements(productos: map<string, Dict>, items: seq<Item>)
    requires RunItems(productos, items).outcome.Err?
    ensures exists f :: 0 <= f < |items| && FailsAt(productos, items, f)
  {
    var n := |items| - 1;
    assert items != [];
    var prev := RunItems(productos, items[..n]);
    if prev.outcome.Err? {
      FailureKeepsEarlierDecrements(productos, items[..n]);
      var f :| 0 <= f < n && FailsAt(productos, items[..n], f);
      assert items[..n][..f] == items[..f];
      assert FailsAt(productos, items, f);
    } else {
      assert FailsAt(productos, items, n);
    }
  }

  /** The response of `crear_pedido`. */
  datatype PedidoCreated = PedidoCreated(id: string, total: real, estado: string)

  function DeliveryOf(p: PedidoIn): Delivery
  {
    Delivery(p.nombre, p.telefono, p.direccion, p.notas)
  }

  /** The body of the loop of `crear_pedido` for one line: find the active
      product, compare its stock, decrement it with the guarded update, then read
      the price and name the line records. */
  method TakeLine(db: Db, it: Item) returns (res: Result<OrderLine, HttpError>)
    modifies db`productos
    ensures res == ProcessItem(old(db.productos), it).result
    ensures db.productos == ProcessItem(old(db.productos), it).productos
  {
    var found := FindActive(db.productos, it.productoId);
    if found.None? {
      return Err(HttpError(404, About("Producto ", Str(it.productoId), " no encontrado")));
    }
    var key := found.value;
    var doc := db.productos[key];
    var stock := PyNumber(PyGet(doc, "stock", Num(0.0)));
    if stock.None? {
      return Err(ServerError);
    }
    if stock.value < it.qty as real {
      return Err(Conflict("Sin stock para ", doc));
    }
    if "stock" !in doc || !doc["stock"].Num? {
      return Err(Conflict("Stock cambió para ", doc));
    }
    db.productos := db.productos[key := Decremented(doc, it.qty)];
    var precio := if "precio" in doc then PyFloat(doc["precio"]) else None;
    var nombre := NameOf(doc);
    if precio.None? || nombre.None? {
      return Err(ServerError);
    }
    res := Ok(LineFor(key, nombre.value, precio.value, it.qty));
  }

  /** The loop of `crear_pedido`: each line in turn checks and decrements the
      stock of its product; the first failing line ends the loop with its error,
      and the decrements already made stay. On success the line records and the
      sum of their subtotals come back. */
  method TakeStock(db: Db, items: seq<Item>) returns (r: Result<(real, seq<OrderLine>), HttpError>)
    modifies db`productos
    ensures RunItems(old(db.productos), items) == Progress(db.productos, r)
  {
    ghost var start := db.productos;
    var total := 0.0;
    var itemsDoc: seq<OrderLine> := [];
    var k := 0;
    while k < |items|
      invariant 0 <= k <= |items|
      invariant RunItems(start, items[..k]).productos == db.productos
      invariant RunItems(start, items[..k]).outcome == Ok((total, itemsDoc))
    {
      ghost var before := db.productos;
      var res := TakeLine(db, items[k]);
      RunStep(start, items, k, total, itemsDoc, before, res, db.productos);
      if res.Err? {
        return Err(res.error);
      }
      total := total + res.value.subtotal;
      itemsDoc := itemsDoc + [res.value];
      k := k + 1;
    }
    assert items[..k] == items;
    r := Ok((total, itemsDoc));
  }

  /** `crear_pedido` for the caller record `user` (whose `_id` becomes the owner).
      The new record's id and the clock reading are given. An empty request is a
      400 and changes nothing; otherwise the product table ends as the run of the
      lines leaves it, even when the request fails, and the record is written only
      when every line succeeds: estado "creado", the lines with unrounded subtotals,
      and the total rounded to cents, which the response echoes. */
  method CrearPedido(db: Db, p: PedidoIn, user: Dict, newId: string, now: int)
    returns (r: Result<PedidoCreated, HttpError>)
    requires newId !in db.pedidos
    modifies db`productos, db`pedidos
    ensures p.items == [] ==> r == Err(NoItems) && db.productos == old(db.productos)
    ensures p.items != [] ==> db.productos == RunItems(old(db.productos), p.items).productos
    ensures p.items != [] && RunItems(old(db.productos), p.items).outcome.Err? ==>
      r == Err(RunItems(old(db.productos), p.items).outcome.error)
    ensures (p.items != [] && RunItems(old(db.productos), p.items).outcome.Ok? && "_id" !in user) ==>
      r == Err(ServerError)
    ensures r.Err? ==> db.pedidos == old(db.pedidos)
    ensures r.Ok? <==>
      p.items != [] && RunItems(old(db.productos), p.items).outcome.Ok? && "_id" in user
    ensures r.Ok? ==>
      var run := RunItems(old(db.productos), p.items).outcome.value;
      && db.pedidos == old(db.pedidos)[newId := Pedido(user["_id"], run.1, PyRound2(run.0), "creado",
                                                       DeliveryOf(p), now, None)]
      && r.value == PedidoCreated(newId, PyRound2(run.0), "creado")
  {
    if p.items == [] {
      return Err(NoItems);
    }
    var run := TakeStock(db, p.items);
    if run.Err? {
      return Err(run.error);
    }
    if "_id" !in user {
      return Err(ServerError);
    }
    var rounded := PyRound2(run.value.0);
    db.pedidos := db.pedidos[newId := Pedido(user["_id"], run.value.1, rounded, "creado", DeliveryOf(p), now, None)];
    r := Ok(PedidoCreated(newId, rounded, "creado"));
  }

  // ---------------------------------------------------------------- history

  /** An entry of `mis_pedidos`. */
  datatype PedidoOut = PedidoOut(
    id: string, usuarioId: string, items: seq<OrderLine>, total: real, estado: string, creadoAt: int)

  /** `find({"usuario_id": user_id})`: the records whose owner is the caller's id
      as text (or an array holding it). Records of `/api/orders` have no such field. */
  function OwnedPedidos(pedidos: map<string, StoredOrder>, userId: string): (ids: set<string>)
    ensures ids <= pedidos.Keys
    ensures forall id :: id in ids <==>
      id in pedidos && pedidos[id].Pedido? &&
      (pedidos[id].usuarioId == Str(userId)
       || (pedidos[id].usuarioId.Arr? && Str(userId) in pedidos[id].usuarioId.elems))
  {
    set id | id in pedidos && pedidos[id].Pedido? &&
      (pedidos[id].usuarioId == Str(userId)
       || (pedidos[id].usuarioId.Arr? && Str(userId) in pedidos[id].usuarioId.elems))
  }

  /** `mis_pedidos`: each of the caller's records once, newest first, with the
      owner as text; a selected record whose owner is not text fails the response
      model (500). */
  method MisPedidos(pedidos: map<string, StoredOrder>, userId: string) returns (r: Result<seq<PedidoOut>, HttpError>)
    ensures r.Err? <==> exists id :: id in OwnedPedidos(pedidos, userId) && !pedidos[id].usuarioId.Str?
    ensures r.Err? ==> r.error == ServerError
    ensures r.Ok? ==> forall k :: 0 <= k < |r.value| ==>
      var id := r.value[k].id;
      && id in OwnedPedidos(pedidos, userId)
      && r.value[k] == PedidoOut(id, userId, pedidos[id].items, pedidos[id].total, pedidos[id].estado, pedidos[id].creadoAt)
    ensures r.Ok? ==> forall id :: id in OwnedPedidos(pedidos, userId) ==>
      exists k :: 0 <= k < |r.value| && r.value[k].id == id
    ensures r.Ok? ==> forall i, j :: 0 <= i < j < |r.value| ==>
      r.value[i].id != r.value[j].id && r.value[i].creadoAt >= r.value[j].creadoAt
  {
    var mine := OwnedPedidos(pedidos, userId);
    var ids := NewestFirst(pedidos, mine);
    var out: seq<PedidoOut> := [];
    var k := 0;
    while k < |ids|
      invariant 0 <= k <= |ids|
      invariant |out| == k
      invariant forall j :: 0 <= j < k ==> pedidos[ids[j]].usuarioId.Str?
      invariant forall j :: 0 <= j < k ==> out[j] == PedidoOut(ids[j], userId, pedidos[ids[j]].items,
        pedidos[ids[j]].total, pedidos[ids[j]].estado, pedidos[ids[j]].creadoAt)
    {
      var o := pedidos[ids[k]];
      if !o.usuarioId.Str? {
        return Err(ServerError);
      }
      out := out + [PedidoOut(ids[k], o.usuarioId.s, o.items, o.total, o.estado, o.creadoAt)];
      k := k + 1;
    }
    forall id | id in mine
      ensures exists j :: 0 <= j < |out| && out[j].id == id
    {
      var j :| 0 <= j < |ids| && ids[j] == id;
      assert out[j].id == id;
    }
    r := Ok(out);
  }
}
