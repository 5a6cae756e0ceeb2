/**
 * The cart handlers of `server/routes.ts` as pure functions from the session's
 * `cartId`, the request parameters and the store to the status code, the
 * body, the new session value, the new store and the store calls made.
 * Store faults (a thrown database error) are boolean inputs; a failing call
 * changes nothing. `Math.random()` is an input in [0, 1) and `parseInt` an
 * input that is `None` for `NaN`.
 */
module Routes {
  import opened Wrappers
  import opened JsValues
  import opened Schema
  import opened Storage

  /** What `req.session.cartId` holds; the server itself only ever stores integers there. */
  datatype SessionCartId = Unset | Number(n: int) | NonNumber(truthy: bool)

  /** `req.session`, missing only when no session was attached to the request. */
  datatype Session = NoSession | Active(cartId: SessionCartId)

  /** The store operations a handler invokes, in order. */
  datatype StoreCall =
    | GetCartCall(cartId: int)
    | ProductLookup(productId: int)
    | AddToCartCall(cartId: int, productId: int, quantity: int)
    | RemoveCall(cartId: int, itemId: int)

  datatype Body =
    | CartBody(view: CartView)
    | LineBody(line: Line)
    | Message(text: string)
    | Details(text: string, issues: seq<Issue>)

  datatype Response = Response(status: int, body: Body)

  datatype Outcome = Outcome(response: Response, session: Session, store: Store, calls: seq<StoreCall>)

  // ---------------------------------------------------------------------------
  // Session-to-cart binding

  /** A set but non-numeric `cartId`: `cartId && typeof cartId !== "number"`. */
  predicate IsCorrupt(v: SessionCartId) {
    v.NonNumber? && v.truthy
  }

  /** The self-healing step every cart handler starts with: a corrupt value is deleted. */
  function Heal(v: SessionCartId): (r: SessionCartId)
    ensures !IsCorrupt(r)
    ensures IsCorrupt(v) ==> r == Unset
    ensures !IsCorrupt(v) ==> r == v
  {
    if IsCorrupt(v) then Unset else v
  }

  /**
   * `const cartId = req.session?.cartId; if (!cartId) …`: a session value
   * names a cart exactly when it is a number that JavaScript finds truthy.
   */
  function CartIdOf(v: SessionCartId): (r: Option<int>)
    ensures r.Some? <==> v.Number? && Truthy(Num(v.n as real))
    ensures r.Some? ==> r.value == v.n
  {
    if v.Number? && v.n != 0 then Some(v.n) else None
  }

  /** `Math.floor(Math.random() * 10000)`. */
  function AllocateCartId(random: real): (id: int)
    requires 0.0 <= random < 1.0
    ensures 0 <= id <= 9999
  {
    (random * 10000.0).Floor
  }

  // ---------------------------------------------------------------------------
  // GET /api/cart

  /**
   * GET /api/cart. A missing session makes the outer `try` fail: 500. Otherwise
   * always 200: the empty cart with id 0 when no cart is bound (the store is
   * not called), the empty cart with id 0 and the binding dropped when the
   * store fails, and the cart's view otherwise.
   */
  function GetCartHandler(session: Session, s: Store, storeFails: bool): (o: Outcome)
    ensures o.store == s
    ensures session.NoSession? ==> o.response.status == 500 && o.calls == []
    ensures session.Active? ==> o.response.status == 200 && o.response.body.CartBody?
    ensures session.Active? && CartIdOf(Heal(session.cartId)).None? ==>
      o.response.body == CartBody(EmptyView(0)) && o.calls == [] && o.session == Active(Heal(session.cartId))
    ensures session.Active? && CartIdOf(session.cartId).Some? ==>
      o.calls == [GetCartCall(session.cartId.n)]
      && (storeFails ==> o.session == Active(Unset) && o.response.body == CartBody(EmptyView(0)))
      && (!storeFails ==> o.session == session && o.response.body == CartBody(CartViewOf(s, session.cartId.n)))
  {
    match session
    case NoSession => Outcome(Response(500, Message("Failed to get cart")), session, s, [])
    case Active(v) =>
      var healed := Heal(v);
      match CartIdOf(healed)
      case None => Outcome(Response(200, CartBody(EmptyView(0))), Active(healed), s, [])
      case Some(id) =>
        if storeFails then Outcome(Response(200, CartBody(EmptyView(0))), Active(Unset), s, [GetCartCall(id)])
        else Outcome(Response(200, CartBody(CartViewOf(s, id))), Active(healed), s, [GetCartCall(id)])
  }

  /** The bundled copy of GET /api/cart, whose outer `catch` answers 200 with the empty cart. */
  function BundledGetCartHandler(session: Session, s: Store, storeFails: bool): (o: Outcome)
    ensures session.NoSession? ==> o.response == Response(200, CartBody(EmptyView(0)))
    ensures session.Active? ==> o == GetCartHandler(session, s, storeFails)
  {
    match session
    case NoSession => Outcome(Response(200, CartBody(EmptyView(0))), session, s, [])
    case Active(_) => GetCartHandler(session, s, storeFails)
  }

  // ---------------------------------------------------------------------------
  // POST /api/cart/add

  /**
   * POST /api/cart/add with the new cart id already drawn. Validation comes
   * first (400 with the issues); the session's usable cart id is reused,
   * otherwise `freshId` is bound to the session before the product lookup;
   * then 404 for an unknown product, 400 for a store failure, 201 with the
   * line otherwise. The request's `quantity` is validated but never used:
   * the store is always asked to add 1.
   */
  function AddWith(session: Session, productId: JsValue, quantity: JsValue, s: Store,
                   freshId: int, lookupFails: bool, addFails: bool): (o: Outcome)
    ensures o.response.status in {201, 400, 404}
    ensures ParseCartItem(productId, quantity).Failure? ==>
      o.response == Response(400, Details("Invalid product data", ParseCartItem(productId, quantity).error))
      && o.session == session && o.store == s && o.calls == []
    ensures session.NoSession? ==> o.response.status == 400 && o.store == s && o.calls == []
    ensures ParseCartItem(productId, quantity).Success? && session.NoSession? ==>
      o.response == Response(400, Message("Invalid cart data"))
    ensures ParseCartItem(productId, quantity).Success? && session.Active? ==>
      && (CartIdOf(Heal(session.cartId)).Some? ==> o.session == session)
      && (CartIdOf(Heal(session.cartId)).None? ==> o.session == Active(Number(freshId)))
      && 0 < |o.calls| && o.calls[0] == ProductLookup(ParseCartItem(productId, quantity).value.productId)
    ensures ParseCartItem(productId, quantity).Success? && session.Active? && lookupFails ==>
      o.response == Response(400, Message("Invalid cart data")) && o.store == s
    ensures (ParseCartItem(productId, quantity).Success? && session.Active? && !lookupFails && addFails
      && ParseCartItem(productId, quantity).value.productId in s.catalog) ==>
      o.response == Response(400, Message("Could not add to cart. Database error.")) && o.store == s
    ensures o.response.status == 201 <==>
      ParseCartItem(productId, quantity).Success? && session.Active? && !lookupFails && !addFails
      && ParseCartItem(productId, quantity).value.productId in s.catalog
    ensures o.response.status != 201 ==> o.store == s
    ensures forall i :: 0 <= i < |o.calls| && o.calls[i].AddToCartCall? ==> o.calls[i].quantity == DefaultQuantity
    ensures o.response.status == 404 <==>
      ParseCartItem(productId, quantity).Success? && session.Active? && !lookupFails
      && ParseCartItem(productId, quantity).value.productId !in s.catalog
    ensures o.response.status == 201 ==>
      var pid := ParseCartItem(productId, quantity).value.productId;
      && o.session.Active? && o.session.cartId.Number?
      && o.response.body.LineBody?
      && AddToCart(s, o.session.cartId.n, pid, DefaultQuantity)
         == Success(Added(o.store, o.response.body.line))
  {
    match ParseCartItem(productId, quantity)
    case Failure(issues) => Outcome(Response(400, Details("Invalid product data", issues)), session, s, [])
    case Success(item) =>
      match session
      case NoSession => Outcome(Response(400, Message("Invalid cart data")), session, s, [])
      case Active(v) =>
        var healed := Heal(v);
        var cartId := if CartIdOf(healed).Some? then CartIdOf(healed).value else freshId;
        var bound := Active(Number(cartId));
        var lookup := [ProductLookup(item.productId)];
        if lookupFails then
          Outcome(Response(400, Message("Invalid cart data")), bound, s, lookup)
        else if item.productId !in s.catalog then
          Outcome(Response(404, Message("Product not found")), bound, s, lookup)
        else
          var calls := lookup + [AddToCartCall(cartId, item.productId, DefaultQuantity)];
          var added := AddToCart(s, cartId, item.productId, DefaultQuantity);
          if addFails || added.Failure? then
            Outcome(Response(400, Message("Could not add to cart. Database error.")), bound, s, calls)
          else
            Outcome(Response(201, LineBody(added.value.line)), bound, added.value.store, calls)
  }

  /** POST /api/cart/add as written: a new cart id is `Math.floor(Math.random() * 10000)`. */
  function AddHandler(session: Session, productId: JsValue, quantity: JsValue, s: Store,
                      random: real, lookupFails: bool, addFails: bool): (o: Outcome)
    requires 0.0 <= random < 1.0
    ensures (session.Active? && CartIdOf(Heal(session.cartId)).None? && ParseCartItem(productId, quantity).Success?) ==>
      o.session.Active? && o.session.cartId.Number? && 0 <= o.session.cartId.n <= 9999
  {
    AddWith(session, productId, quantity, s, AllocateCartId(random), lookupFails, addFails)
  }

  /** A draw of a new cart id that can never be the falsy id 0: an id in [1, 9999]. */
  function AllocateNonZeroCartId(random: real): (id: int)
    requires 0.0 <= random < 1.0
    ensures 1 <= id <= 9999
  {
    1 + (random * 9999.0).Floor
  }

  /** POST /api/cart/add with new cart ids drawn from [1, 9999] instead of [0, 9999]. */
  function AddHandlerNonZero(session: Session, productId: JsValue, quantity: JsValue, s: Store,
                             random: real, lookupFails: bool, addFails: bool): (o: Outcome)
    requires 0.0 <= random < 1.0
    ensures o.response.status == 201 ==> o.session.Active? && CartIdOf(o.session.cartId).Some?
  {
    AddWith(session, productId, quantity, s, AllocateNonZeroCartId(random), lookupFails, addFails)
  }

  // ---------------------------------------------------------------------------
  // DELETE /api/cart/remove/:itemId

  /**
   * DELETE /api/cart/remove/:itemId. A corrupt session value is deleted and
   * answered with 400; no usable cart id gives 404; an `itemId` that parses to
   * `NaN` gives 400; a store failure 500; otherwise the matching line is
   * deleted and the answer is 200 whether or not anything was deleted.
   */
  function RemoveHandler(session: Session, itemId: Option<int>, s: Store, removeFails: bool): (o: Outcome)
    ensures o.response.status in {200, 400, 404, 500}
    ensures o.response.status != 200 ==> o.store == s
    ensures session.NoSession? ==> o.response == Response(500, Message("Server error")) && o.calls == []
    ensures session.Active? && IsCorrupt(session.cartId) ==>
      o.response == Response(400, Message("Invalid cart session")) && o.session == Active(Unset) && o.calls == []
    ensures session.Active? && !IsCorrupt(session.cartId) ==> o.session == session
    ensures session.Active? && !IsCorrupt(session.cartId) && CartIdOf(session.cartId).None? ==>
      o.response == Response(404, Message("Cart not found")) && o.calls == []
    ensures session.Active? && CartIdOf(session.cartId).Some? && itemId.None? ==>
      o.response == Response(400, Message("Invalid item ID")) && o.calls == []
    ensures session.Active? && CartIdOf(session.cartId).Some? && itemId.Some? && removeFails ==>
      o.response == Response(500, Message("Could not remove from cart")) && o.store == s
    ensures o.response.status == 200 <==> session.Active? && CartIdOf(session.cartId).Some? && itemId.Some? && !removeFails
    ensures o.response.status == 200 ==>
      o.calls == [RemoveCall(session.cartId.n, itemId.value)]
      && o.store == RemoveFromCart(s, session.cartId.n, itemId.value)
  {
    match session
    case NoSession => Outcome(Response(500, Message("Server error")), session, s, [])
    case Active(v) =>
      if IsCorrupt(v) then Outcome(Response(400, Message("Invalid cart session")), Active(Unset), s, [])
      else match CartIdOf(v)
        case None => Outcome(Response(404, Message("Cart not found")), session, s, [])
        case Some(cartId) =>
          match itemId
          case None => Outcome(Response(400, Message("Invalid item ID")), session, s, [])
          case Some(item) =>
            if removeFails then
              Outcome(Response(500, Message("Could not remove from cart")), session, s, [RemoveCall(cartId, item)])
            else
              Outcome(Response(200, Message("Item removed from cart")), session, RemoveFromCart(s, cartId, item), [RemoveCall(cartId, item)])
  }

  // ---------------------------------------------------------------------------
  // POST /api/create-payment-intent

  /**
   * The amount guard of POST /api/create-payment-intent: `!amount || amount <= 0`
   * answers 400 before the payment processor is called; `None` means the
   * request goes on to the processor.
   */
  function PaymentAmountGuard(amount: JsValue): (r: Option<Response>)
    ensures r.Some? ==> r.value == Response(400, Message("Invalid amount"))
    ensures amount.Undefined? || amount.Null? || amount == Bool(false) ==> r.Some?
    ensures amount == Bool(true) ==> r.None?
    ensures amount.Num? ==> (r.None? <==> amount.x > 0.0)
    ensures amount.Str? && amount.s == "" ==> r.Some?
    ensures (amount.Str? && amount.s != "") || amount.Obj? ==>
      (r.None? <==> amount.asNumber.None? || amount.asNumber.value > 0.0)
  {
    if !Truthy(amount) || AtMostZero(amount) then Some(Response(400, Message("Invalid amount"))) else None
  }
}
