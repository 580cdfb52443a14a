/** The request and response models of the API server (backend/app/schemas.py):
    the `disponible` -> `activo` compatibility validator, the field constraints of the
    product, comment and cart models, the computed `disponible` of a product sent
    out, and the order status and user role enumerations. */
module Schemas {
  import opened Values

  // ---------------------------------------------------------------- disponible

  /** The dict a `map_disponible_to_activo` validator leaves: `activo` is added as
      `bool(disponible)` when `disponible` is present and `activo` is not. */
  function WithActivo(d: Dict): (r: Dict)
    ensures r.Keys == if "disponible" in d then d.Keys + {"activo"} else d.Keys
    ensures forall k :: k in d ==> r[k] == d[k]
    ensures "activo" !in d && "disponible" in d ==> r["activo"] == Bool(PyTruthy(d["disponible"]))
  {
    if "disponible" in d && "activo" !in d then d["activo" := Bool(PyTruthy(d["disponible"]))] else d
  }

  /** Adding `activo` once is enough: the second pass finds it present. */
  lemma WithActivoIdempotent(d: Dict)
    ensures WithActivo(WithActivo(d)) == WithActivo(d)
  {
  }

  /** A Python dict object, which a `mode="before"` validator may change in place. */
  class PyDict {
    var items: Dict

    constructor (items: Dict)
      ensures this.items == items
    {
      this.items := items;
    }
  }

  /** What a `mode="before"` validator receives: the raw body, a dict or anything else. */
  datatype RawInput = DictInput(obj: PyDict) | OtherInput(v: Value)

  /** `ProductoPatch.map_disponible_to_activo` and its copy in `ProductoIn`: the
      argument is returned as it came, and a dict argument is changed in place. */
  method MapDisponibleToActivo(values: RawInput) returns (r: RawInput)
    modifies if values.DictInput? then {values.obj} else {}
    ensures r == values
    ensures values.DictInput? ==> values.obj.items == WithActivo(old(values.obj.items))
  {
    r := values;
    match values
    case DictInput(obj) =>
      if "disponible" in obj.items && "activo" !in obj.items {
        obj.items := obj.items["activo" := Bool(PyTruthy(obj.items["disponible"]))];
      }
    case OtherInput(_) =>
  }

  // ---------------------------------------------------------------- ProductoIn

  const ProductoFields: set<string> :=
    {"nombre", "descripcion", "precio", "stock", "activo", "imagenUrl", "categoria"}

  const RequiredProductoFields: set<string> := {"nombre", "precio"}

  /** `disponible` and `_id` are not declared fields of `ProductoIn`. */
  lemma UndeclaredFields()
    ensures "disponible" !in ProductoFields && "_id" !in ProductoFields
  {
    assert |"disponible"| == 10 && |"_id"| == 3;
  }

  /** A JSON number with no fractional part, which pydantic accepts for an `int`. */
  predicate IsWhole(v: Value)
  {
    v.Num? && v.n.Floor as real == v.n
  }

  /** The JSON value `v` is acceptable for the `ProductoIn` field `k`: `nombre` a
      string of at least 2 characters, `precio` a number above 0, `stock` a whole
      number not below 0, `activo` a boolean, the other three a string or null. */
  predicate ProductoFieldOk(k: string, v: Value)
  {
    if k == "nombre" then v.Str? && |v.s| >= 2
    else if k == "precio" then v.Num? && v.n > 0.0
    else if k == "stock" then IsWhole(v) && v.n >= 0.0
    else if k == "activo" then v.Bool?
    else v.Null? || v.Str?
  }

  /** The fields of `ProductoIn` that the body `raw` gets wrong: a required one it
      leaves out, or one it supplies with an unacceptable value. */
  function ProductoErrors(raw: Dict): (bad: set<string>)
    ensures bad <= ProductoFields
    ensures forall k :: k in bad <==>
      k in ProductoFields &&
      ((k in RequiredProductoFields && k !in raw) || (k in raw && !ProductoFieldOk(k, raw[k])))
  {
    set k | k in ProductoFields &&
      ((k in RequiredProductoFields && k !in raw) || (k in raw && !ProductoFieldOk(k, raw[k])))
  }

  /** `ProductoIn` validation of a body the before-validator has already seen,
      followed by `model_dump(exclude_unset=True)`: the declared fields the body
      supplied, or 422 naming every field at fault. Keys the model does not declare
      are dropped. */
  function ValidateProductoIn(raw: Dict): (r: Result<Dict, HttpError>)
    ensures r.Ok? <==>
      && RequiredProductoFields <= raw.Keys
      && forall k :: k in raw && k in ProductoFields ==> ProductoFieldOk(k, raw[k])
    ensures r.Ok? ==> r.value.Keys == raw.Keys * ProductoFields
    ensures r.Ok? ==> forall k :: k in r.value ==> r.value[k] == raw[k]
    ensures r.Err? ==> r.error == HttpError(422, Invalid(ProductoErrors(raw)))
  {
    var bad := ProductoErrors(raw);
    if bad == {} then
      assert forall k :: k in RequiredProductoFields ==> k in raw by {
        forall k | k in RequiredProductoFields ensures k in raw {
          assert k !in bad;
        }
      }
      Ok(map k | k in raw && k in ProductoFields :: raw[k])
    else
      Err(HttpError(422, Invalid(bad)))
  }

  /** What the validated model holds in field `k`: the supplied value, or the
      field's default (`stock` 0, `activo` True, the optional strings None). */
  function ProductoAttr(dump: Dict, k: string): Value
  {
    if k in dump then dump[k]
    else if k == "stock" then Num(0.0)
    else if k == "activo" then Bool(true)
    else Null
  }

  /** Every `ProductoIn` that validates has a name of at least 2 characters, a
      price above 0, a whole stock not below 0 (0 when not given) and a boolean
      `activo` (True when not given). */
  lemma ProductoInConstraints(raw: Dict)
    requires ValidateProductoIn(raw).Ok?
    ensures var d := ValidateProductoIn(raw).value;
      && ProductoAttr(d, "nombre").Str? && |ProductoAttr(d, "nombre").s| >= 2
      && ProductoAttr(d, "precio").Num? && ProductoAttr(d, "precio").n > 0.0
      && IsWhole(ProductoAttr(d, "stock")) && ProductoAttr(d, "stock").n >= 0.0
      && ProductoAttr(d, "activo").Bool?
      && ("stock" !in raw ==> ProductoAttr(d, "stock") == Num(0.0))
      && ("activo" !in raw ==> ProductoAttr(d, "activo") == Bool(true))
  {
    var d := ValidateProductoIn(raw).value;
    assert "nombre" in raw && "precio" in raw;
    assert ProductoFieldOk("nombre", raw["nombre"]) && ProductoFieldOk("precio", raw["precio"]);
    if "stock" in raw {
      assert ProductoFieldOk("stock", raw["stock"]);
    }
    if "activo" in raw {
      assert ProductoFieldOk("activo", raw["activo"]);
    }
  }

  /** A body that sends `disponible` and no `activo` validates with `activo` equal
      to `bool(disponible)`, which then counts as supplied. */
  lemma DisponibleBecomesActivo(raw: Dict)
    requires "disponible" in raw && "activo" !in raw
    requires ValidateProductoIn(WithActivo(raw)).Ok?
    ensures ValidateProductoIn(WithActivo(raw)).value["activo"] == Bool(PyTruthy(raw["disponible"]))
  {
  }

  // ---------------------------------------------------------------- ProductoOut

  /** A product as the server sends it: `ProductoIn` with every default filled in,
      plus the id. */
  datatype ProductoOut = ProductoOut(
    id: string, nombre: string, descripcion: Value, precio: real, stock: int,
    activo: bool, imagenUrl: Value, categoria: Value)
  {
    /** The computed field `disponible`: `bool(self.activo)`. */
    function Disponible(): bool
    {
      activo
    }
  }

  /** The response-model validation of a stored product document (already passed
      through `serialize_doc`): the id must be a string and the remaining fields
      must validate as `ProductoIn`; a document that does not is a 500 error. */
  function ProductoOutOf(doc: Dict): (r: Result<ProductoOut, HttpError>)
    ensures r.Ok? <==> "_id" in doc && doc["_id"].Str? && ValidateProductoIn(WithActivo(doc)).Ok?
    ensures r.Ok? ==> r.value.id == doc["_id"].s
    ensures r.Ok? ==> var d := ValidateProductoIn(WithActivo(doc)).value;
      && Str(r.value.nombre) == d["nombre"]
      && Num(r.value.precio) == d["precio"]
      && Bool(r.value.activo) == ProductoAttr(d, "activo")
      && Num(r.value.stock as real) == ProductoAttr(d, "stock")
    ensures r.Err? ==> r.error.status == 500
  {
    if "_id" in doc && doc["_id"].Str? then
      match ValidateProductoIn(WithActivo(doc))
      case Err(_) => Err(HttpError(500, Msg("Internal Server Error")))
      case Ok(d) =>
        ProductoInConstraints(WithActivo(doc));
        Ok(ProductoOut(
          doc["_id"].s, d["nombre"].s, ProductoAttr(d, "descripcion"), d["precio"].n,
          ProductoAttr(d, "stock").n.Floor, ProductoAttr(d, "activo").b,
          ProductoAttr(d, "imagenUrl"), ProductoAttr(d, "categoria")))
    else
      Err(HttpError(500, Msg("Internal Server Error")))
  }

  /** The JSON object sent for a product; `disponible` always equals `activo`. */
  function ProductoJson(p: ProductoOut): (j: Dict)
    ensures "disponible" in j && "activo" in j && j["disponible"] == j["activo"]
    ensures j["disponible"] == Bool(p.activo)
    ensures j.Keys == ProductoFields + {"_id", "disponible"}
  {
    map[
      "_id" := Str(p.id), "nombre" := Str(p.nombre), "descripcion" := p.descripcion,
      "precio" := Num(p.precio), "stock" := Num(p.stock as real), "activo" := Bool(p.activo),
      "imagenUrl" := p.imagenUrl, "categoria" := p.categoria, "disponible" := Bool(p.Disponible())]
  }

  // ---------------------------------------------------------------- ComentarioIn

  datatype ComentarioIn = ComentarioIn(productoId: string, texto: string, rating: int)

  /** `ComentarioIn` validation: a string product id, a text of 1 to 500
      characters and a whole rating from 1 to 5; otherwise 422. */
  function ValidateComentario(raw: Dict): (r: Result<ComentarioIn, HttpError>)
    ensures r.Ok? <==>
      && "producto_id" in raw && raw["producto_id"].Str?
      && "texto" in raw && raw["texto"].Str? && 1 <= |raw["texto"].s| <= 500
      && "rating" in raw && IsWhole(raw["rating"]) && 1.0 <= raw["rating"].n <= 5.0
    ensures r.Ok? ==> 1 <= |r.value.texto| <= 500 && 1 <= r.value.rating <= 5
    ensures r.Ok? ==> Num(r.value.rating as real) == raw["rating"] && Str(r.value.texto) == raw["texto"]
    ensures r.Err? ==> r.error.status == 422
  {
    var okId := "producto_id" in raw && raw["producto_id"].Str?;
    var okText := "texto" in raw && raw["texto"].Str? && 1 <= |raw["texto"].s| <= 500;
    var okRating := "rating" in raw && IsWhole(raw["rating"]) && 1.0 <= raw["rating"].n <= 5.0;
    if okId && okText && okRating then
      Ok(ComentarioIn(raw["producto_id"].s, raw["texto"].s, raw["rating"].n.Floor))
    else
      Err(HttpError(422, Invalid(
        (if okId then {} else {"producto_id"}) + (if okText then {} else {"texto"})
        + (if okRating then {} else {"rating"}))))
  }

  // ---------------------------------------------------------------- items

  /** One requested line: a product id and a quantity. */
  datatype Item = Item(productoId: string, qty: int)

  /** `CartItem`: a string `producto_id` and a whole `qty` with `gt=0`. */
  function ValidateCartItem(v: Value): (r: Option<Item>)
    ensures r.Some? <==>
      v.Obj? && "producto_id" in v.fields && v.fields["producto_id"].Str?
      && "qty" in v.fields && IsWhole(v.fields["qty"]) && v.fields["qty"].n > 0.0
    ensures r.Some? ==> r.value.qty > 0 && Str(r.value.productoId) == v.fields["producto_id"]
    ensures r.Some? ==> Num(r.value.qty as real) == v.fields["qty"]
  {
    if v.Obj? && "producto_id" in v.fields && v.fields["producto_id"].Str?
       && "qty" in v.fields && IsWhole(v.fields["qty"]) && v.fields["qty"].n > 0.0
    then Some(Item(v.fields["producto_id"].s, v.fields["qty"].n.Floor))
    else None
  }

  /** `PedidoItem`: a string `producto_id` and a whole `qty` with `ge=1`. */
  function ValidatePedidoItem(v: Value): (r: Option<Item>)
    ensures r.Some? ==> r.value.qty >= 1
  {
    if v.Obj? && "producto_id" in v.fields && v.fields["producto_id"].Str?
       && "qty" in v.fields && IsWhole(v.fields["qty"]) && v.fields["qty"].n >= 1.0
    then Some(Item(v.fields["producto_id"].s, v.fields["qty"].n.Floor))
    else None
  }

  /** On whole numbers `gt=0` and `ge=1` are the same bound, so both item models
      accept exactly the same lines. */
  lemma CartAndPedidoItemsAgree(v: Value)
    ensures ValidateCartItem(v) == ValidatePedidoItem(v)
  {
    if v.Obj? && "qty" in v.fields && IsWhole(v.fields["qty"]) {
      var n := v.fields["qty"].n;
      assert n > 0.0 <==> n >= 1.0 by {
        assert n == n.Floor as real;
      }
    }
  }

  /** Each element of a JSON array validated by `check`; None when any fails. */
  function ValidateItems(elems: seq<Value>, check: Value -> Option<Item>): (r: Option<seq<Item>>)
    ensures r.Some? <==> forall k :: 0 <= k < |elems| ==> check(elems[k]).Some?
    ensures r.Some? ==> |r.value| == |elems|
    ensures r.Some? ==> forall k :: 0 <= k < |elems| ==> r.value[k] == check(elems[k]).value
  {
    if elems == [] then Some([])
    else match (check(elems[0]), ValidateItems(elems[1..], check))
      case (Some(it), Some(rest)) =>
        Some([it] + rest)
      case (None, _) => None
      case (_, None) =>
        assert forall k :: 0 <= k < |elems| - 1 ==> elems[1..][k] == elems[k + 1];
        None
  }

  /** The body of `POST /api/orders`. */
  datatype OrderCreate = OrderCreate(
    items: seq<Item>, nombre: string, telefono: string, direccion: string, notas: Option<string>)

  /** An optional string field: absent and null both give None. */
  function OptStr(raw: Dict, k: string): Option<string>
  {
    if k in raw && raw[k].Str? then Some(raw[k].s) else None
  }

  predicate OptStrOk(raw: Dict, k: string)
  {
    k !in raw || raw[k].Null? || raw[k].Str?
  }

  /** `OrderCreate` validation: an array of `CartItem`, three required strings
      and an optional `notas`; otherwise 422. */
  function ValidateOrderCreate(raw: Dict): (r: Result<OrderCreate, HttpError>)
    ensures r.Ok? <==>
      && "items" in raw && raw["items"].Arr?
      && (forall k :: 0 <= k < |raw["items"].elems| ==> ValidateCartItem(raw["items"].elems[k]).Some?)
      && "delivery_nombre" in raw && raw["delivery_nombre"].Str?
      && "delivery_telefono" in raw && raw["delivery_telefono"].Str?
      && "delivery_direccion" in raw && raw["delivery_direccion"].Str?
      && OptStrOk(raw, "notas")
    ensures r.Ok? ==> |r.value.items| == |raw["items"].elems|
    ensures r.Ok? ==> forall k :: 0 <= k < |r.value.items| ==>
      r.value.items[k] == ValidateCartItem(raw["items"].elems[k]).value
    ensures r.Err? ==> r.error.status == 422
  {
    var items := if "items" in raw && raw["items"].Arr?
                 then ValidateItems(raw["items"].elems, ValidateCartItem) else None;
    if items.Some?
       && "delivery_nombre" in raw && raw["delivery_nombre"].Str?
       && "delivery_telefono" in raw && raw["delivery_telefono"].Str?
       && "delivery_direccion" in raw && raw["delivery_direccion"].Str?
       && OptStrOk(raw, "notas")
    then
      Ok(OrderCreate(items.value, raw["delivery_nombre"].s, raw["delivery_telefono"].s,
                     raw["delivery_direccion"].s, OptStr(raw, "notas")))
    else
      Err(HttpError(422, Invalid({"body"})))
  }

  /** The body of `POST /api/pedidos`; only the name is required. */
  datatype PedidoIn = PedidoIn(
    items: seq<Item>, nombre: string, telefono: Option<string>, direccion: Option<string>,
    notas: Option<string>)

  // ---------------------------------------------------------------- enumerations

  /** `OrderStatus`: exactly four values. */
  datatype OrderStatus = Created | Paid | Cancelled | Delivered

  function StatusName(s: OrderStatus): string
  {
    match s
    case Created => "CREATED"
    case Paid => "PAID"
    case Cancelled => "CANCELLED"
    case Delivered => "DELIVERED"
  }

  /** Validating a string as `OrderStatus`. */
  function ParseStatus(t: string): (r: Option<OrderStatus>)
    ensures r.Some? <==> t in {"CREATED", "PAID", "CANCELLED", "DELIVERED"}
    ensures r.Some? ==> StatusName(r.value) == t
  {
    if t == "CREATED" then Some(Created)
    else if t == "PAID" then Some(Paid)
    else if t == "CANCELLED" then Some(Cancelled)
    else if t == "DELIVERED" then Some(Delivered)
    else None
  }

  /** Every status survives being written out and read back. */
  lemma StatusRoundTrip(s: OrderStatus)
    ensures ParseStatus(StatusName(s)) == Some(s)
  {
  }

  /** `UserOut.rol`. */
  datatype Rol = Customer | Admin

  /** Validating the stored `rol` (Undefined when the user record has none):
      absent gives the default `customer`, and only the two names are accepted;
      a response that fails is a 500 error. */
  function ParseRol(v: Value): (r: Result<Rol, HttpError>)
    ensures v == Undefined ==> r == Ok(Customer)
    ensures v == Str("customer") ==> r == Ok(Customer)
    ensures v == Str("admin") ==> r == Ok(Admin)
    ensures r.Ok? <==> v in {Undefined, Str("customer"), Str("admin")}
    ensures r.Err? ==> r.error.status == 500
  {
    if v == Undefined || v == Str("customer") then Ok(Customer)
    else if v == Str("admin") then Ok(Admin)
    else Err(HttpError(500, Msg("Internal Server Error")))
  }
}
