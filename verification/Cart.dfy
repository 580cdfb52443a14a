/** The cart of CartContext.jsx: an ordered list of lines keyed by product id, with
    add-or-merge, remove, clear and a derived total, written through to
    localStorage under "sr_cart" after every change. */
module Cart {
  import opened Values
  import opened Storage

  /** One cart line `{producto_id, nombre, precio, qty}`. */
  datatype Line = Line(productoId: string, nombre: string, precio: real, qty: int)

  /** The three fields of a catalogue product that `add` reads: `_id`, `nombre`, `precio`. */
  datatype Product = Product(id: string, nombre: string, precio: real)

  /** No two lines share a product id. */
  ghost predicate Distinct(items: seq<Line>)
  {
    forall i, j :: 0 <= i < j < |items| ==> items[i].productoId != items[j].productoId
  }

  /** `items.findIndex(x => x.producto_id === id)`: the first line with that id, or -1. */
  function FindIndex(items: seq<Line>, id: string): (i: int)
    ensures -1 <= i < |items|
    ensures 0 <= i ==> items[i].productoId == id
    ensures 0 <= i ==> forall k :: 0 <= k < i ==> items[k].productoId != id
    ensures i == -1 ==> forall k :: 0 <= k < |items| ==> items[k].productoId != id
  {
    if items == [] then -1
    else if items[0].productoId == id then 0
    else
      var j := FindIndex(items[1..], id);
      if j < 0 then -1 else j + 1
  }

  /** The list `add(prod, qty)` leaves: a product already in the cart has its first
      line's quantity raised (keeping that line's name and price); a new product is
      appended as one line. */
  function AddLine(items: seq<Line>, prod: Product, qty: int): (r: seq<Line>)
    ensures FindIndex(items, prod.id) >= 0 ==>
      var i := FindIndex(items, prod.id);
      && |r| == |items|
      && r[i].productoId == items[i].productoId && r[i].nombre == items[i].nombre
      && r[i].precio == items[i].precio && r[i].qty == items[i].qty + qty
      && forall k :: 0 <= k < |items| && k != i ==> r[k] == items[k]
    ensures FindIndex(items, prod.id) < 0 ==>
      && |r| == |items| + 1 && r[..|items|] == items
      && r[|items|] == Line(prod.id, prod.nombre, prod.precio, qty)
  {
    var i := FindIndex(items, prod.id);
    if i >= 0 then items[i := items[i].(qty := items[i].qty + qty)]
    else items + [Line(prod.id, prod.nombre, prod.precio, qty)]
  }

  /** `items.filter(x => x.producto_id !== id)` */
  function RemoveLines(items: seq<Line>, id: string): (r: seq<Line>)
    ensures |r| <= |items|
    ensures forall k :: 0 <= k < |r| ==> r[k].productoId != id
  {
    if items == [] then []
    else if items[0].productoId == id then RemoveLines(items[1..], id)
    else [items[0]] + RemoveLines(items[1..], id)
  }

  /** `remove(id)` keeps exactly the lines with another id. */
  lemma {:induction false} RemoveLinesMembers(items: seq<Line>, id: string, l: Line)
    ensures l in RemoveLines(items, id) <==> l in items && l.productoId != id
  {
    if items != [] {
      RemoveLinesMembers(items[1..], id, l);
      assert items == [items[0]] + items[1..];
    }
  }

  /** Removing distributes over concatenation: the kept lines stay in their order. */
  lemma {:induction false} RemoveLinesConcat(a: seq<Line>, b: seq<Line>, id: string)
    ensures RemoveLines(a + b, id) == RemoveLines(a, id) + RemoveLines(b, id)
  {
    if a != [] {
      assert (a + b)[0] == a[0];
      assert (a + b)[1..] == a[1..] + b;
      RemoveLinesConcat(a[1..], b, id);
    } else {
      assert a + b == b;
    }
  }

  /** In a cart without repeated ids, `remove(id)` deletes exactly the line
      `findIndex` finds, and nothing when there is none. */
  lemma RemoveFromDistinct(items: seq<Line>, id: string)
    requires Distinct(items)
    ensures var i := FindIndex(items, id);
      RemoveLines(items, id) == if i < 0 then items else items[..i] + items[i + 1..]
  {
    var i := FindIndex(items, id);
    if i < 0 {
      RemoveNothing(items, id);
    } else {
      var pre, post := items[..i], items[i + 1..];
      var mid := [items[i]];
      assert items == (pre + mid) + post;
      assert forall k :: 0 <= k < |post| ==> post[k].productoId != id by {
        forall k | 0 <= k < |post| ensures post[k].productoId != id {
          assert post[k] == items[i + 1 + k];
        }
      }
      RemoveNothing(pre, id);
      RemoveNothing(post, id);
      assert RemoveLines(mid, id) == [];
      RemoveLinesConcat(pre, mid, id);
      assert RemoveLines(pre + mid, id) == pre;
      RemoveLinesConcat(pre + mid, post, id);
    }
  }

  /** A list without the id is left unchanged by `remove(id)`. */
  lemma {:induction false} RemoveNothing(items: seq<Line>, id: string)
    requires forall k :: 0 <= k < |items| ==> items[k].productoId != id
    ensures RemoveLines(items, id) == items
  {
    if items != [] {
      RemoveNothing(items[1..], id);
      assert [items[0]] + items[1..] == items;
    }
  }

  /** `prev.reduce((s, it) => s + it.precio * it.qty, acc)`, left to right. */
  function TotalFrom(items: seq<Line>, acc: real): real
  {
    if items == [] then acc
    else TotalFrom(items[1..], acc + items[0].precio * items[0].qty as real)
  }

  /** The cart's `total`. */
  function Total(items: seq<Line>): real
  {
    TotalFrom(items, 0.0)
  }

  function Subtotal(l: Line): real
  {
    l.precio * l.qty as real
  }

  /** The sum of `f` over the lines. */
  function SumOf(items: seq<Line>, f: Line -> real): real
  {
    if items == [] then 0.0 else f(items[0]) + SumOf(items[1..], f)
  }

  /** Units of one product across the cart. */
  function QtyOf(items: seq<Line>, id: string): real
  {
    SumOf(items, (l: Line) => if l.productoId == id then l.qty as real else 0.0)
  }

  lemma {:induction false} SumOfAppend(items: seq<Line>, l: Line, f: Line -> real)
    ensures SumOf(items + [l], f) == SumOf(items, f) + f(l)
  {
    if items != [] {
      assert (items + [l])[1..] == items[1..] + [l];
      SumOfAppend(items[1..], l, f);
    }
  }

  lemma {:induction false} SumOfUpdate(items: seq<Line>, i: nat, l: Line, f: Line -> real)
    requires i < |items|
    ensures SumOf(items[i := l], f) == SumOf(items, f) - f(items[i]) + f(l)
  {
    if i > 0 {
      assert items[i := l][1..] == items[1..][i - 1 := l];
      SumOfUpdate(items[1..], i - 1, l, f);
    }
  }

  lemma {:induction false} SumOfConcat(a: seq<Line>, b: seq<Line>, f: Line -> real)
    ensures SumOf(a + b, f) == SumOf(a, f) + SumOf(b, f)
  {
    if a != [] {
      assert (a + b)[0] == a[0];
      assert (a + b)[1..] == a[1..] + b;
      SumOfConcat(a[1..], b, f);
    } else {
      assert a + b == b;
    }
  }

  lemma {:induction false} TotalFromIsSum(items: seq<Line>, acc: real)
    ensures TotalFrom(items, acc) == acc + SumOf(items, Subtotal)
  {
    if items != [] {
      TotalFromIsSum(items[1..], acc + Subtotal(items[0]));
    }
  }

  /** The total is the sum of `precio * qty` over the lines, and 0 for an empty cart. */
  lemma TotalIsSum(items: seq<Line>)
    ensures Total(items) == SumOf(items, Subtotal)
    ensures items == [] ==> Total(items) == 0.0
  {
    TotalFromIsSum(items, 0.0);
  }

  /** `add` keeps product ids pairwise distinct. */
  lemma AddKeepsDistinct(items: seq<Line>, prod: Product, qty: int)
    requires Distinct(items)
    ensures Distinct(AddLine(items, prod, qty))
  {
  }

  /** After `add(prod, qty)` the cart holds `qty` more units of that product and the
      same number of every other product. */
  lemma AddQuantity(items: seq<Line>, prod: Product, qty: int, id: string)
    ensures QtyOf(AddLine(items, prod, qty), id)
         == QtyOf(items, id) + if id == prod.id then qty as real else 0.0
  {
    var f := (l: Line) => if l.productoId == id then l.qty as real else 0.0;
    var i := FindIndex(items, prod.id);
    if i >= 0 {
      SumOfUpdate(items, i, items[i].(qty := items[i].qty + qty), f);
    } else {
      SumOfAppend(items, Line(prod.id, prod.nombre, prod.precio, qty), f);
    }
  }

  /** `add(prod, qty)` raises the total by `qty` times the price of the line it
      touches: the existing line's price when merging, the product's when appending. */
  lemma AddTotal(items: seq<Line>, prod: Product, qty: int)
    ensures var i := FindIndex(items, prod.id);
      var price := if i >= 0 then items[i].precio else prod.precio;
      Total(AddLine(items, prod, qty)) == Total(items) + price * qty as real
  {
    var i := FindIndex(items, prod.id);
    if i >= 0 {
      MergeTotal(items, i, qty);
      assert AddLine(items, prod, qty) == items[i := items[i].(qty := items[i].qty + qty)];
    } else {
      var l := Line(prod.id, prod.nombre, prod.precio, qty);
      assert AddLine(items, prod, qty) == items + [l];
      AppendTotal(items, l);
    }
  }

  /** Raising the quantity of line `i` by `qty` raises the total by its price times `qty`. */
  lemma MergeTotal(items: seq<Line>, i: nat, qty: int)
    requires i < |items|
    ensures Total(items[i := items[i].(qty := items[i].qty + qty)]) == Total(items) + items[i].precio * qty as real
  {
    var l := items[i].(qty := items[i].qty + qty);
    TotalWithUpdate(items, i, l);
    assert Subtotal(l) == items[i].precio * items[i].qty as real + items[i].precio * qty as real;
  }

  /** Appending a line raises the total by its subtotal. */
  lemma AppendTotal(items: seq<Line>, l: Line)
    ensures Total(items + [l]) == Total(items) + Subtotal(l)
  {
    TotalIsSum(items);
    TotalIsSum(items + [l]);
    SumOfAppend(items, l, Subtotal);
  }

  /** Replacing the line at `i` changes the total by the difference of the subtotals. */
  lemma TotalWithUpdate(items: seq<Line>, i: nat, l: Line)
    requires i < |items|
    ensures Total(items[i := l]) == Total(items) - Subtotal(items[i]) + Subtotal(l)
  {
    TotalIsSum(items);
    TotalIsSum(items[i := l]);
    SumOfUpdate(items, i, l, Subtotal);
  }

  /** After `remove(id)` none of that product is left and every other product keeps
      its quantity. */
  lemma {:induction false} RemoveQuantity(items: seq<Line>, id: string, other: string)
    ensures QtyOf(RemoveLines(items, id), other) == if other == id then 0.0 else QtyOf(items, other)
  {
    if items != [] {
      RemoveQuantity(items[1..], id, other);
    }
  }

  /** In a cart without repeated ids, `remove(id)` lowers the total by the removed
      line's subtotal. */
  lemma RemoveTotal(items: seq<Line>, id: string)
    requires Distinct(items)
    ensures var i := FindIndex(items, id);
      Total(RemoveLines(items, id)) == Total(items) - if i >= 0 then Subtotal(items[i]) else 0.0
  {
    RemoveFromDistinct(items, id);
    var i := FindIndex(items, id);
    if i >= 0 {
      TotalWithout(items, i);
    }
  }

  /** Dropping the line at `i` lowers the total by that line's subtotal. */
  lemma TotalWithout(items: seq<Line>, i: nat)
    requires i < |items|
    ensures Total(items[..i] + items[i + 1..]) == Total(items) - Subtotal(items[i])
  {
    var pre, post := items[..i], items[i + 1..];
    TotalIsSum(items);
    TotalIsSum(pre + post);
    assert items == pre + ([items[i]] + post);
    SumOfConcat(pre, [items[i]] + post, Subtotal);
    SumOfConcat([items[i]], post, Subtotal);
    SumOfConcat(pre, post, Subtotal);
  }

  // ---- the JSON kept under "sr_cart" ----

  function LineToValue(l: Line): Value
  {
    Obj(map["producto_id" := Str(l.productoId), "nombre" := Str(l.nombre),
            "precio" := Num(l.precio), "qty" := Num(l.qty as real)])
  }

  /** `JSON.stringify(items)`, as the value it denotes. */
  function LinesToValue(items: seq<Line>): Value
  {
    Arr(EncodeLines(items))
  }

  function EncodeLines(items: seq<Line>): (vs: seq<Value>)
    ensures |vs| == |items|
  {
    if items == [] then [] else [LineToValue(items[0])] + EncodeLines(items[1..])
  }

  function ValueToLine(v: Value): Option<Line>
  {
    if v.Obj? && Get(v.fields, "producto_id").Str? && Get(v.fields, "nombre").Str?
       && Get(v.fields, "precio").Num? && Get(v.fields, "qty").Num?
       && Get(v.fields, "qty").n.Floor as real == Get(v.fields, "qty").n
    then Some(Line(Get(v.fields, "producto_id").s, Get(v.fields, "nombre").s,
                   Get(v.fields, "precio").n, Get(v.fields, "qty").n.Floor))
    else None
  }

  function DecodeLines(vs: seq<Value>): Option<seq<Line>>
  {
    if vs == [] then Some([])
    else match (ValueToLine(vs[0]), DecodeLines(vs[1..]))
      case (Some(l), Some(ls)) => Some([l] + ls)
      case _ => None
  }

  /** The list `JSON.parse(saved)` gives back when `saved` is a cart list. */
  function ValueToLines(v: Value): Option<seq<Line>>
  {
    if v.Arr? then DecodeLines(v.elems) else None
  }

  lemma {:induction false} EncodeDecodeLines(items: seq<Line>)
    ensures DecodeLines(EncodeLines(items)) == Some(items)
  {
    if items != [] {
      var l := items[0];
      assert ValueToLine(LineToValue(l)) == Some(l) by {
        assert (l.qty as real).Floor == l.qty;
      }
      var vs := EncodeLines(items);
      assert vs[1..] == EncodeLines(items[1..]);
      EncodeDecodeLines(items[1..]);
      assert [l] + items[1..] == items;
    }
  }

  /** What the load effect finds under "sr_cart". */
  datatype Load =
    | Loaded(lines: seq<Line>)   // nothing saved, empty text, or a saved list
    | Unparsable(error: Value)   // `JSON.parse` throws `error` inside the effect
    | NotAList(v: Value)         // the text parses to a non-array: `items.reduce` then throws

  /** The mount effect's reading of "sr_cart": no entry or an empty string leaves
      the empty initial list; otherwise the entry is parsed, and an array loads as
      the cart lines it holds. An array with an element that is not a cart line
      loads as the empty list. */
  function LoadCart(saved: Option<Stored>, parse: string -> Result<Value, Value>): (l: Load)
    ensures saved.None? || saved == Some(Text("")) ==> l == Loaded([])
    ensures saved.Some? && saved.value.Json? && saved.value.v.Arr? ==> l.Loaded?
  {
    match saved
    case None => Loaded([])
    case Some(e) =>
      if !StoredTruthy(e) then Loaded([])
      else match Parsed(e, parse)
        case Err(error) => Unparsable(error)
        case Ok(v) =>
          if !v.Arr? then NotAList(v)
          else (match ValueToLines(v) case Some(ls) => Loaded(ls) case None => Loaded([]))
  }

  /** Whatever list the cart last wrote is the list a fresh mount loads. */
  lemma RestoreAfterSave(items: seq<Line>, parse: string -> Result<Value, Value>)
    ensures LoadCart(Some(Json(LinesToValue(items))), parse) == Loaded(items)
  {
    EncodeDecodeLines(items);
  }

  /** The `CartProvider` component: its `items` state, the storage it writes to,
      and the load that broke the page, if one did. */
  class CartProvider {
    var items: seq<Line>
    var failure: Option<Load>
    const storage: LocalStorage

    /** The page is up and the stored list is the current list. */
    ghost predicate Valid()
      reads this, storage
    {
      && failure.None?
      && CartKey in storage.entries
      && storage.entries[CartKey] == Json(LinesToValue(items))
    }

    /** Mounting. The first render has the empty list, and both effects run after
        it: the load effect reads "sr_cart" and asks for the parsed list, then the
        save effect stores the empty list; the render with the loaded list stores
        that list in turn.
        - A loaded list becomes the cart, and is what is stored.
        - When `JSON.parse` throws, the load effect throws before the save effect
          runs: storage is unchanged and the page breaks.
        - A non-array is installed, and the next render's `items.reduce` throws:
          the empty list the first save stored stays, and the page breaks. */
    constructor Mount(storage: LocalStorage, parse: string -> Result<Value, Value>)
      modifies storage
      ensures this.storage == storage
      ensures LoadCart(old(storage.GetItem(CartKey)), parse).Loaded? ==>
        && failure.None? && Valid()
        && items == LoadCart(old(storage.GetItem(CartKey)), parse).lines
        && storage.entries == old(storage.entries)[CartKey := Json(LinesToValue(items))]
      ensures LoadCart(old(storage.GetItem(CartKey)), parse).Unparsable? ==>
        && failure == Some(LoadCart(old(storage.GetItem(CartKey)), parse)) && items == []
        && storage.entries == old(storage.entries)
      ensures LoadCart(old(storage.GetItem(CartKey)), parse).NotAList? ==>
        && failure == Some(LoadCart(old(storage.GetItem(CartKey)), parse)) && items == []
        && storage.entries == old(storage.entries)[CartKey := Json(LinesToValue([]))]
    {
      this.storage := storage;
      var load := LoadCart(storage.GetItem(CartKey), parse);
      items := [];
      failure := if load.Loaded? then None else Some(load);
      new;
      if load.Loaded? {
        items := load.lines;
        storage.SetItem(CartKey, Json(LinesToValue(items)));
      } else if load.NotAList? {
        storage.SetItem(CartKey, Json(LinesToValue([])));
      }
    }

    method Save()
      requires failure.None?
      modifies storage
      ensures Valid()
      ensures storage.entries == old(storage.entries)[CartKey := Json(LinesToValue(items))]
    {
      storage.SetItem(CartKey, Json(LinesToValue(items)));
    }

    /** `add(prod, qty = 1)` */
    method Add(prod: Product, qty: int := 1)
      requires Valid()
      modifies this, storage
      ensures Valid()
      ensures items == AddLine(old(items), prod, qty)
      ensures storage.entries == old(storage.entries)[CartKey := Json(LinesToValue(items))]
    {
      items := AddLine(items, prod, qty);
      Save();
    }

    /** `remove(producto_id)` */
    method Remove(id: string)
      requires Valid()
      modifies this, storage
      ensures Valid()
      ensures items == RemoveLines(old(items), id)
      ensures storage.entries == old(storage.entries)[CartKey := Json(LinesToValue(items))]
    {
      items := RemoveLines(items, id);
      Save();
    }

    /** `clear()` */
    method Clear()
      requires Valid()
      modifies this, storage
      ensures Valid()
      ensures items == []
      ensures storage.entries == old(storage.entries)[CartKey := Json(LinesToValue([]))]
    {
      items := [];
      Save();
    }

    /** The derived `total`. */
    function CartTotal(): (t: real)
      reads this
      ensures t == SumOf(items, Subtotal)
    {
      TotalIsSum(items);
      Total(items)
    }
  }
}
