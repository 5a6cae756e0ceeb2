/**
 * Properties of the cart handlers that relate several requests, or a handler
 * and the store: session self-healing, what a GET shows after an add, the
 * store invariant across handlers, and the status mapping's corner cases.
 */
module RouteProperties {
  import opened Wrappers
  import opened JsValues
  import opened Schema
  import opened Storage
  import opened CartInvariants
  import opened Routes

  /**
   * GET and DELETE always leave a healthy session value behind; the add
   * handler does so only once the body has been validated, because
   * validation runs before the session is inspected.
   */
  lemma HandlersHealSession(v: SessionCartId, s: Store, fails: bool, itemId: Option<int>,
                            productId: JsValue, quantity: JsValue, freshId: int, lookupFails: bool, addFails: bool)
    ensures !IsCorrupt(GetCartHandler(Active(v), s, fails).session.cartId)
    ensures !IsCorrupt(RemoveHandler(Active(v), itemId, s, fails).session.cartId)
    ensures ParseCartItem(productId, quantity).Success? ==>
      !IsCorrupt(AddWith(Active(v), productId, quantity, s, freshId, lookupFails, addFails).session.cartId)
    ensures ParseCartItem(productId, quantity).Failure? ==>
      AddWith(Active(v), productId, quantity, s, freshId, lookupFails, addFails).session.cartId == v
  {
  }

  /** Without a store fault, asking for the cart twice gives the same answer and the same session. */
  lemma GetCartIsRepeatable(session: Session, s: Store)
    ensures var first := GetCartHandler(session, s, false);
      GetCartHandler(first.session, s, false) == first
  {
  }

  /** The bundled GET differs from the current one only when no session is attached: 200 instead of 500. */
  lemma BundledGetDiffersOnlyWithoutSession(session: Session, s: Store, fails: bool)
    ensures BundledGetCartHandler(session, s, fails) == GetCartHandler(session, s, fails) <==> session.Active?
  {
  }

  /** The request's `quantity` has no effect once the body is valid. */
  lemma AddIgnoresQuantity(session: Session, productId: JsValue, q1: JsValue, q2: JsValue, s: Store,
                           freshId: int, lookupFails: bool, addFails: bool)
    requires ParseCartItem(productId, q1).Success? && ParseCartItem(productId, q2).Success?
    ensures AddWith(session, productId, q1, s, freshId, lookupFails, addFails)
      == AddWith(session, productId, q2, s, freshId, lookupFails, addFails)
  {
  }

  /** The new cart id is bound before the product lookup: a 404 still leaves it in the session. */
  lemma NotFoundKeepsNewBinding(session: Session, productId: JsValue, quantity: JsValue, s: Store, freshId: int)
    requires session.Active? && CartIdOf(Heal(session.cartId)).None?
    requires AddWith(session, productId, quantity, s, freshId, false, false).response.status == 404
    ensures AddWith(session, productId, quantity, s, freshId, false, false).session == Active(Number(freshId))
    ensures AddWith(session, productId, quantity, s, freshId, false, false).store == s
  {
  }

  /** Every handler keeps the store invariant. */
  lemma HandlersPreserveInv(session: Session, s: Store, productId: JsValue, quantity: JsValue,
                            freshId: int, itemId: Option<int>, fails: bool, lookupFails: bool, addFails: bool)
    requires Inv(s)
    ensures Inv(GetCartHandler(session, s, fails).store)
    ensures Inv(AddWith(session, productId, quantity, s, freshId, lookupFails, addFails).store)
    ensures Inv(RemoveHandler(session, itemId, s, fails).store)
  {
    var o := AddWith(session, productId, quantity, s, freshId, lookupFails, addFails);
    if o.response.status == 201 {
      AddPreservesInv(s, o.session.cartId.n, ParseCartItem(productId, quantity).value.productId, DefaultQuantity);
    }
    if session.Active? && CartIdOf(session.cartId).Some? && itemId.Some? {
      RemovePreservesInv(s, session.cartId.n, itemId.value);
    }
  }

  /** DELETE of an id that is no line of the session's cart answers 200 and changes nothing. */
  lemma RemoveUnknownAnswers200(cartId: int, itemId: int, s: Store)
    requires cartId != 0
    requires forall i :: 0 <= i < |s.lines| ==> !(s.lines[i].cartId == cartId && s.lines[i].id == itemId)
    ensures RemoveHandler(Active(Number(cartId)), Some(itemId), s, false).response.status == 200
    ensures RemoveHandler(Active(Number(cartId)), Some(itemId), s, false).store == s
  {
    RemoveUnknownIsNoop(s, cartId, itemId);
  }

  /** After a 201 whose cart id is not 0, a GET with the new session shows the added product. */
  lemma AddThenGetShowsProduct(session: Session, productId: JsValue, quantity: JsValue, s: Store, freshId: int)
    requires freshId != 0
    requires AddWith(session, productId, quantity, s, freshId, false, false).response.status == 201
    ensures var o := AddWith(session, productId, quantity, s, freshId, false, false);
      var body := GetCartHandler(o.session, o.store, false).response.body;
      body.CartBody?
      && exists i :: 0 <= i < |body.view.items|
           && body.view.items[i].productId == ParseCartItem(productId, quantity).value.productId
  {
    var o := AddWith(session, productId, quantity, s, freshId, false, false);
    var pid := ParseCartItem(productId, quantity).value.productId;
    var id := o.session.cartId.n;
    assert id != 0;
    AddedProductIsInView(s, id, pid, DefaultQuantity);
  }

  /**
   * As written, a draw below 1/10000 binds cart id 0: the add answers 201 and
   * the store holds the line in cart 0, yet the next GET reads 0 as "no cart"
   * and answers the empty cart.
   */
  lemma ZeroDrawHidesAddedLine(s: Store, pid: nat)
    requires 0 < pid && pid in s.catalog
    ensures var o := AddHandler(Active(Unset), Num(pid as real), Undefined, s, 0.0, false, false);
      && o.response.status == 201
      && o.session == Active(Number(0))
      && CartViewOf(o.store, 0).items != []
      && GetCartHandler(o.session, o.store, false).response.body == CartBody(EmptyView(0))
  {
    assert IsIntegral(pid as real);
    var o := AddHandler(Active(Unset), Num(pid as real), Undefined, s, 0.0, false, false);
    AddedProductIsInView(s, 0, pid, DefaultQuantity);
  }

  /** With ids drawn from [1, 9999], every successful add is visible to the next GET. */
  lemma NonZeroAddThenGetShowsProduct(session: Session, productId: JsValue, quantity: JsValue, s: Store, random: real)
    requires 0.0 <= random < 1.0
    requires AddHandlerNonZero(session, productId, quantity, s, random, false, false).response.status == 201
    ensures var o := AddHandlerNonZero(session, productId, quantity, s, random, false, false);
      var body := GetCartHandler(o.session, o.store, false).response.body;
      body.CartBody?
      && exists i :: 0 <= i < |body.view.items|
           && body.view.items[i].productId == ParseCartItem(productId, quantity).value.productId
  {
    AddThenGetShowsProduct(session, productId, quantity, s, AllocateNonZeroCartId(random));
  }
}
