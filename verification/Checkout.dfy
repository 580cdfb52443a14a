/** The checkout page (frontend/src/Checkout.jsx): the delivery form, its field
    checks, when the confirm button is enabled, editing a field, and `submit`,
    which checks the form, the cart and the session before it sends the order. */
module Checkout {
  import opened Values
  import opened Text
  import opened Schemas
  import opened Cart
  import AuthContext
  import Client
  import Api
  import Storage

  /** The four inputs of the form. */
  datatype Field = Nombre | Telefono | Direccion | Notas

  /** `{delivery_nombre, delivery_telefono, delivery_direccion, notas}` */
  datatype Form = Form(nombre: string, telefono: string, direccion: string, notas: string)

  const EmptyForm := Form("", "", "", "")

  /** The form with one input's text replaced. */
  function FormWith(form: Form, f: Field, value: string): (r: Form)
    ensures f == Nombre ==> r == form.(nombre := value)
    ensures f == Telefono ==> r == form.(telefono := value)
    ensures f == Direccion ==> r == form.(direccion := value)
    ensures f == Notas ==> r == form.(notas := value)
  {
    match f
    case Nombre => form.(nombre := value)
    case Telefono => form.(telefono := value)
    case Direccion => form.(direccion := value)
    case Notas => form.(notas := value)
  }

  const NameError := "Ingresa tu nombre."
  const PhoneError := "Teléfono inválido (usa dígitos, +, espacios o guiones)."
  const AddressError := "Dirección muy corta."
  const EmptyCartMessage := "Tu ticket está vacío."
  const LoginFirstMessage := "Debes iniciar sesión para confirmar el pedido."
  const ConfirmedMessage := "✅ ¡Pedido confirmado!"
  const FailedPrefix := "❌ No se pudo crear el pedido: "
  const NoNetworkText := "error de red"

  // ---------------------------------------------------------------- field checks

  predicate NameOk(form: Form)
  {
    Trim(Js, form.nombre) != ""
  }

  /** `TEL_RGX.test(telefono.trim())` */
  predicate PhoneFieldOk(form: Form)
  {
    PhoneOk(Js, Trim(Js, form.telefono))
  }

  /** `direccion.trim().length >= 5`, counting UTF-16 code units. */
  predicate AddressOk(form: Form)
  {
    JsLength(Trim(Js, form.direccion)) >= 5
  }

  /** The `local` errors `submit` collects: exactly the failing fields, each with
      its message. */
  function FieldErrors(form: Form): (errs: map<Field, string>)
    ensures Nombre in errs <==> !NameOk(form)
    ensures Telefono in errs <==> !PhoneFieldOk(form)
    ensures Direccion in errs <==> !AddressOk(form)
    ensures Notas !in errs
    ensures Nombre in errs ==> errs[Nombre] == NameError
    ensures Telefono in errs ==> errs[Telefono] == PhoneError
    ensures Direccion in errs ==> errs[Direccion] == AddressError
  {
    var withName: map<Field, string> := if NameOk(form) then map[] else map[Nombre := NameError];
    var withPhone := if PhoneFieldOk(form) then withName else withName[Telefono := PhoneError];
    if AddressOk(form) then withPhone else withPhone[Direccion := AddressError]
  }

  /** Every field passes its check. */
  predicate FieldsOk(form: Form)
  {
    NameOk(form) && PhoneFieldOk(form) && AddressOk(form)
  }

  /** `submit` finds no field error exactly when every field passes. */
  lemma NoFieldErrors(form: Form)
    ensures FieldErrors(form) == map[] <==> FieldsOk(form)
  {
    if !FieldsOk(form) {
      assert Nombre in FieldErrors(form) || Telefono in FieldErrors(form) || Direccion in FieldErrors(form);
    }
  }

  /** A valid phone, after trimming, is 6 to 20 characters each a digit, `+`, `-` or
      whitespace. */
  lemma PhoneFieldShape(form: Form)
    requires PhoneFieldOk(form)
    ensures var t := Trim(Js, form.telefono);
      6 <= |t| <= 20 && forall k :: 0 <= k < |t| ==> IsPhoneChar(Js, t[k])
  {
  }

  /** `canSubmit`, with its early returns in order. */
  predicate CanSubmit(submitting: bool, cartEmpty: bool, form: Form)
  {
    if submitting || cartEmpty then false
    else if !NameOk(form) then false
    else if !PhoneFieldOk(form) then false
    else if !AddressOk(form) then false
    else true
  }

  /** The button is enabled exactly when nothing is in flight, the cart has lines,
      and `submit` would find no field error. */
  lemma CanSubmitIff(submitting: bool, cartEmpty: bool, form: Form)
    ensures CanSubmit(submitting, cartEmpty, form) <==> !submitting && !cartEmpty && FieldErrors(form) == map[]
  {
    var errs := FieldErrors(form);
    if errs != map[] {
      var f :| f in errs;
      assert !NameOk(form) || !PhoneFieldOk(form) || !AddressOk(form);
    }
  }

  // ---------------------------------------------------------------- the payload

  /** `Number(it.qty) || 1` for a cart line: its quantity, or 1 when that is 0. */
  function SentQty(l: Line): (q: int)
    ensures l.qty != 0 ==> q == l.qty
    ensures l.qty == 0 ==> q == 1
  {
    match JsOr(Api.ToNumber(Prop(LineToValue(l), "qty")), Num(1.0))
    case Num(n) => n.Floor
    case _ => 1
  }

  /** `it._id || it.id` for a cart line as the cart stores it. */
  function LineIdAsWritten(l: Line): Value
  {
    JsOr(Prop(LineToValue(l), "_id"), Prop(LineToValue(l), "id"))
  }

  /** A cart line has neither `_id` nor `id`, so the id the page sends is undefined. */
  lemma LineIdUndefined(l: Line)
    ensures LineIdAsWritten(l) == Undefined
  {
    var fields := LineToValue(l).fields;
    assert fields.Keys == {"producto_id", "nombre", "precio", "qty"};
    assert "_id" !in fields by {
      assert |"_id"| != |"producto_id"| && |"_id"| != |"nombre"| && |"_id"| != |"precio"|;
      assert "_id"[0] != "qty"[0];
    }
    assert "id" !in fields by {
      assert |"id"| != |"producto_id"| && |"id"| != |"nombre"| && |"id"| != |"precio"| && |"id"| != |"qty"|;
    }
  }

  /** An item of the payload as the page builds it. */
  function ItemAsWritten(l: Line): Dict
  {
    map["producto_id" := LineIdAsWritten(l), "qty" := Num(SentQty(l) as real)]
  }

  /** An item of the payload with the line's own product id, `it.producto_id`. */
  function ItemIntended(l: Line): Dict
  {
    map["producto_id" := Str(l.productoId), "qty" := Num(SentQty(l) as real)]
  }

  /** The order body as the server parses it: one item per cart line in order
      (`JSON.stringify` leaves out members whose value is undefined), the three
      delivery fields trimmed, and `notas` trimmed (empty when blank). */
  function SentBody(items: seq<Line>, form: Form, item: Line -> Dict): (body: Dict)
    ensures body.Keys == {"items", "delivery_nombre", "delivery_telefono", "delivery_direccion", "notas"}
    ensures body["items"].Arr? && |body["items"].elems| == |items|
    ensures forall k :: 0 <= k < |items| ==> body["items"].elems[k] == Obj(DropUndefined(item(items[k])))
    ensures body["delivery_nombre"] == Str(Trim(Js, form.nombre))
    ensures body["delivery_telefono"] == Str(Trim(Js, form.telefono))
    ensures body["delivery_direccion"] == Str(Trim(Js, form.direccion))
    ensures body["notas"] == Str(Trim(Js, form.notas))
  {
    map["items" := Arr(seq(|items|, k requires 0 <= k < |items| => Obj(DropUndefined(item(items[k]))))),
        "delivery_nombre" := Str(Trim(Js, form.nombre)),
        "delivery_telefono" := Str(Trim(Js, form.telefono)),
        "delivery_direccion" := Str(Trim(Js, form.direccion)),
        "notas" := Str(Trim(Js, form.notas))]
  }

  /** As written, every order with at least one line is refused with 422: its
      items carry no `producto_id`. */
  lemma PayloadAsWrittenRejected(items: seq<Line>, form: Form)
    requires items != []
    ensures ValidateOrderCreate(SentBody(items, form, ItemAsWritten)) == Err(HttpError(422, Invalid({"body"})))
  {
    var body := SentBody(items, form, ItemAsWritten);
    LineIdUndefined(items[0]);
    var first := body["items"].elems[0];
    assert first == Obj(DropUndefined(ItemAsWritten(items[0])));
    assert "producto_id" !in first.fields;
    assert ValidateCartItem(first).None?;
  }

  /** A cart line sent with its own id is a valid `CartItem` carrying that id and
      the quantity sent. */
  lemma IntendedItemAccepted(l: Line)
    requires l.qty >= 0
    ensures ValidateCartItem(Obj(DropUndefined(ItemIntended(l)))) == Some(Item(l.productoId, SentQty(l)))
  {
    var d := ItemIntended(l);
    assert DropUndefined(d) == d;
    var q := SentQty(l);
    assert (q as real).Floor == q;
  }

  /** With the line's own id, the server accepts the body, and reads back each line's
      product and quantity, in order, and the trimmed delivery data. */
  lemma PayloadIntendedAccepted(items: seq<Line>, form: Form)
    requires forall k :: 0 <= k < |items| ==> items[k].qty >= 0
    ensures var r := ValidateOrderCreate(SentBody(items, form, ItemIntended));
      && r.Ok?
      && |r.value.items| == |items|
      && (forall k :: 0 <= k < |items| ==> r.value.items[k] == Item(items[k].productoId, SentQty(items[k])))
      && r.value.nombre == Trim(Js, form.nombre)
      && r.value.telefono == Trim(Js, form.telefono)
      && r.value.direccion == Trim(Js, form.direccion)
      && r.value.notas == Some(Trim(Js, form.notas))
  {
    var body := SentBody(items, form, ItemIntended);
    var elems := body["items"].elems;
    forall k | 0 <= k < |items|
      ensures ValidateCartItem(elems[k]) == Some(Item(items[k].productoId, SentQty(items[k])))
    {
      IntendedItemAccepted(items[k]);
    }
    assert ValidateOrderCreate(body).Ok?;
  }

  /** The text after "❌ No se pudo crear el pedido: ": the error's message, or
      "error de red" when it has none. */
  function FailureText(e: Value): string
  {
    match Prop(e, "message")
    case Str(s) => if s != "" then s else NoNetworkText
    case _ => NoNetworkText
  }

  /** When the server refuses the order, the page shows the server's text, or
      "<status> Error" when the answer has no text. */
  lemma RefusalShowsServerText(res: Client.Response)
    requires !Client.IsOk(res)
    ensures Api.Handle(Client.ApiOutcome(Client.Answered(res))).Thrown?
    ensures FailureText(Api.Handle(Client.ApiOutcome(Client.Answered(res))).error) == Client.FailureText(res)
  {
    Api.HttpFailureMessage(res);
    assert Prop(Client.ErrorValue(Client.FailureText(res)), "message") == Str(Client.FailureText(res));
  }

  // ---------------------------------------------------------------- the page

  /** The field errors as `submit` stores them. */
  function ErrorState(errs: map<Field, string>): (r: map<Field, Option<string>>)
    ensures r.Keys == errs.Keys
    ensures forall f :: f in errs ==> r[f] == Some(errs[f])
  {
    map f | f in errs :: Some(errs[f])
  }

  /** Where `submit` stops: at the field errors, at the empty cart, at the missing
      session, or by sending the body. */
  datatype Stop = FieldsInvalid(errs: map<Field, string>) | CartEmpty | NotLoggedIn | Send(body: Dict)

  /** The checks of `submit`, in order. */
  function SubmitStop(form: Form, items: seq<Line>, authenticated: bool): (s: Stop)
  {
    if !FieldsOk(form) then FieldsInvalid(FieldErrors(form))
    else if |items| == 0 then CartEmpty
    else if !authenticated then NotLoggedIn
    else Send(SentBody(items, form, ItemIntended))
  }

  /** The checks come in the order fields, cart, session, and the order is sent only
      when all of them pass, which is exactly when the button is enabled (with
      nothing in flight). */
  lemma SubmitChecksInOrder(form: Form, items: seq<Line>, authenticated: bool)
    ensures SubmitStop(form, items, authenticated).FieldsInvalid? <==> FieldErrors(form) != map[]
    ensures SubmitStop(form, items, authenticated).CartEmpty? <==> FieldErrors(form) == map[] && items == []
    ensures SubmitStop(form, items, authenticated).NotLoggedIn? <==>
      FieldErrors(form) == map[] && items != [] && !authenticated
    ensures SubmitStop(form, items, authenticated).Send? <==> CanSubmit(false, items == [], form) && authenticated
  {
    CanSubmitIff(false, items == [], form);
  }

  /** The state of the page, all at once. */
  datatype PageState = PageState(form: Form, errors: map<Field, Option<string>>, submitting: bool, msg: string, done: Value)

  /** Storing the list that is already stored under `sr_cart` changes nothing. */
  lemma StoredCartUnchanged(entries: map<string, Storage.Stored>, items: seq<Line>)
    requires Storage.CartKey in entries && entries[Storage.CartKey] == Storage.Json(LinesToValue(items))
    ensures entries[Storage.CartKey := Storage.Json(LinesToValue(items))] == entries
  {
  }

  /** The page's state. */
  class CheckoutPage {
    var form: Form
    var errors: map<Field, Option<string>>
    var submitting: bool
    var msg: string
    var done: Value

    /** The first render: an empty form, no errors, nothing sent. */
    constructor ()
      ensures form == EmptyForm && errors == map[] && !submitting && msg == "" && done == Null
    {
      form := EmptyForm;
      errors := map[];
      submitting := false;
      msg := "";
      done := Null;
    }

    /** The page's state as one value. */
    function State(): PageState
      reads this
    {
      PageState(form, errors, submitting, msg, done)
    }

    /** `canSubmit` for the current state and cart. */
    function CanSubmitNow(cart: CartProvider): (b: bool)
      reads this, cart
      ensures b ==> !submitting && cart.items != []
    {
      CanSubmit(submitting, |cart.items| == 0, form)
    }

    /** `onChange(e)`: the input's text goes into the form, that input's error is
        cleared, and so is the message. */
    method OnChange(f: Field, value: string)
      modifies this
      ensures form == FormWith(old(form), f, value)
      ensures errors == old(errors)[f := None]
      ensures forall g :: g in old(errors) && g != f ==> errors[g] == old(errors)[g]
      ensures msg == ""
      ensures submitting == old(submitting) && done == old(done)
    {
      form := FormWith(form, f, value);
      errors := errors[f := None];
      msg := "";
    }

    /** The checks of `submit`, in order: the fields (collecting the `local`
        errors), then the cart, then the session; when all pass, the body to send. */
    method Checks(cart: CartProvider, auth: AuthContext.AuthProvider) returns (stop: Stop)
      ensures stop == SubmitStop(form, cart.items, auth.IsAuthenticated())
    {
      var local: map<Field, string> := map[];
      if Trim(Js, form.nombre) == "" {
        local := local[Nombre := NameError];
      }
      if !PhoneOk(Js, Trim(Js, form.telefono)) {
        local := local[Telefono := PhoneError];
      }
      if JsLength(Trim(Js, form.direccion)) < 5 {
        local := local[Direccion := AddressError];
      }
      assert local == FieldErrors(form);
      NoFieldErrors(form);
      if local != map[] {
        return FieldsInvalid(local);
      }
      if |cart.items| == 0 {
        return CartEmpty;
      }
      if !auth.IsAuthenticated() {
        return NotLoggedIn;
      }
      return Send(SentBody(cart.items, form, ItemIntended));
    }

    /** The `try` of `submit`: mark the order in flight, send it, and on success keep
        the answer, empty the cart, reset the form and confirm; on failure say why.
        Either way the order is no longer in flight. */
    method SendOrder(cart: CartProvider, fetched: Client.Fetched)
      requires cart.Valid()
      modifies this, cart, cart.storage
      ensures cart.Valid()
      ensures cart.storage.entries == old(cart.storage.entries)[Storage.CartKey := Storage.Json(LinesToValue(cart.items))]
      ensures match Api.Handle(Client.ApiOutcome(fetched))
        case Returned(v) =>
          cart.items == [] && State() == old(State()).(form := EmptyForm, submitting := false, msg := ConfirmedMessage, done := v)
        case Thrown(e) =>
          cart.items == old(cart.items) && State() == old(State()).(submitting := false, msg := FailedPrefix + FailureText(e))
    {
      submitting := true;
      var o := Api.Handle(Client.ApiOutcome(fetched));
      if o.Returned? {
        done := o.value;
        cart.Clear();
        form := EmptyForm;
        msg := ConfirmedMessage;
      } else {
        msg := FailedPrefix + FailureText(o.error);
      }
      submitting := false;
    }

    /** `submit(e)`: with field errors, store them and stop; with an empty cart or
        no session, say so and stop; otherwise send the order with `createOrder`,
        whose answer is `fetched`. On success the cart is emptied and the form
        reset; on failure the message says why. Returns the body it sent. */
    method Submit(cart: CartProvider, auth: AuthContext.AuthProvider, fetched: Client.Fetched)
      returns (sent: Option<Dict>)
      requires cart.Valid()
      modifies this, cart, cart.storage
      ensures cart.Valid()
      ensures cart.storage.entries == old(cart.storage.entries)[Storage.CartKey := Storage.Json(LinesToValue(cart.items))]
      ensures var stop := old(SubmitStop(form, cart.items, auth.IsAuthenticated()));
        match stop
        case FieldsInvalid(errs) =>
          sent.None? && unchanged(cart) && State() == old(State()).(errors := ErrorState(errs), msg := "")
        case CartEmpty =>
          sent.None? && unchanged(cart) && State() == old(State()).(msg := EmptyCartMessage)
        case NotLoggedIn =>
          sent.None? && unchanged(cart) && State() == old(State()).(msg := LoginFirstMessage)
        case Send(body) =>
          && sent == Some(body)
          && match Api.Handle(Client.ApiOutcome(fetched))
             case Returned(v) =>
               cart.items == [] && State() == old(State()).(form := EmptyForm, submitting := false, msg := ConfirmedMessage, done := v)
             case Thrown(e) =>
               cart.items == old(cart.items) && State() == old(State()).(submitting := false, msg := FailedPrefix + FailureText(e))
    {
      StoredCartUnchanged(cart.storage.entries, cart.items);
      msg := "";
      var stop := Checks(cart, auth);
      match stop {
        case FieldsInvalid(errs) =>
          errors := ErrorState(errs);
          sent := None;
        case CartEmpty =>
          msg := EmptyCartMessage;
          sent := None;
        case NotLoggedIn =>
          msg := LoginFirstMessage;
          sent := None;
        case Send(body) =>
          SendOrder(cart, fetched);
          sent := Some(body);
      }
    }
  }
}
