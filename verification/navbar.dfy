/**
 * `client/src/components/Navbar.tsx`: which navigation link is highlighted
 * for the current location, and the item count on the cart badge.
 */
module Navbar {
  import opened Wrappers
  import opened Strings
  import opened Schema
  import opened Storage
  import opened CartInvariants

  /**
   * `isActive(path)`: the home link only on "/" itself, any other link on
   * every location it is a string prefix of.
   */
  function IsActive(location: string, path: string): (r: bool)
    ensures path == "/" ==> (r <==> location == "/")
    ensures path != "/" ==> (r <==> StartsWith(location, path))
  {
    if path == "/" && location == "/" then true
    else if path != "/" && StartsWith(location, path) then true
    else false
  }

  /** Every link is highlighted on its own page. */
  lemma ActiveOnOwnPage(path: string)
    ensures IsActive(path, path)
  {
  }

  /** The home link is never highlighted on another page. */
  lemma HomeOnlyAtRoot(location: string)
    requires location != "/"
    ensures !IsActive(location, "/")
  {
  }

  /** Matching is by string prefix, not by path segment: "/shop" is highlighted on "/shopping". */
  lemma PrefixNotSegment()
    ensures IsActive("/shopping", "/shop")
  {
    assert "/shopping"[..5] == "/shop";
  }

  /** Two highlighted links other than home are prefixes one of the other. */
  lemma {:induction false} ActiveLinksNest(location: string, p: string, q: string)
    requires p != "/" && q != "/"
    requires IsActive(location, p) && IsActive(location, q)
    ensures StartsWith(p, q) || StartsWith(q, p)
  {
    if |q| <= |p| {
      assert p[..|q|] == location[..|q|];
    } else {
      assert q[..|p|] == location[..|p|];
    }
  }

  /** The part of the cart query's data the badge reads: `cart.items`, possibly missing. */
  datatype CartData = CartData(items: Option<seq<ViewItem>>)

  /** `cart && cart.items && cart.items.length > 0`: the badge and the number it shows. */
  function Badge(cart: Option<CartData>): (r: Option<nat>)
    ensures r.Some? <==> cart.Some? && cart.value.items.Some? && |cart.value.items.value| > 0
    ensures r.Some? ==> r.value == |cart.value.items.value|
  {
    if cart.Some? && cart.value.items.Some? && |cart.value.items.value| > 0 then Some(|cart.value.items.value|)
    else None
  }

  /**
   * For the cart the server reports, the badge shows exactly when the cart
   * row exists and holds lines, and then it shows how many lines it holds.
   */
  lemma BadgeShowsLineCount(s: Store, cartId: int)
    ensures Badge(Some(CartData(Some(CartViewOf(s, cartId).items))))
      == if cartId in s.carts && LinesOf(s.lines, cartId) != [] then Some(|LinesOf(s.lines, cartId)|) else None
  {
  }

  /**
   * The badge counts lines, not units: adding the same product twice to a
   * cart with no lines shows 1 while the cart holds 2 units.
   */
  lemma BadgeCountsLines(s: Store, cartId: int, productId: int)
    requires productId in s.catalog
    requires LinesOf(s.lines, cartId) == []
    ensures var once := AddToCart(s, cartId, productId, 1).value.store;
      var twice := AddToCart(once, cartId, productId, 1).value.store;
      && Badge(Some(CartData(Some(CartViewOf(twice, cartId).items)))) == Some(1)
      && QuantityOf(twice.lines, cartId, productId) == 2
  {
    assert FindLine(s.lines, cartId, productId).None? by {
      forall j | 0 <= j < |s.lines|
        ensures !Matches(s.lines[j], cartId, productId)
      {
        assert s.lines[j] in s.lines;
      }
    }
    AddTwiceMerges(s, cartId, productId);
    var once := AddToCart(s, cartId, productId, 1).value.store;
    var twice := AddToCart(once, cartId, productId, 1).value.store;
    var second := Line(s.nextLineId, cartId, productId, 2);
    assert twice.lines == s.lines + [second];
    LinesOfSnoc(s.lines, second, cartId);
    AddChangesOnlyItsPair(s, cartId, productId, 1, cartId, productId);
    AddChangesOnlyItsPair(once, cartId, productId, 1, cartId, productId);
    QuantityOfAbsent(s.lines, cartId, productId);
  }
}
