/**
 * The cart half of `DatabaseStorage` (`server/storage.ts`) over an abstract
 * in-memory database: the set of cart rows, the `cart_items` rows in table
 * order, the next serial id for `cart_items`, and the product catalog.
 * Every operation is one atomic sequential step.
 */
module Storage {
  import opened Wrappers
  import opened Schema

  /** The database state the cart store reads and writes. */
  datatype Store = Store(
    carts: set<int>,
    lines: seq<Line>,
    nextLineId: int,
    catalog: map<int, Product>)

  /** One line of a cart view: the row enriched with the product's current name, price and type. */
  datatype ViewItem = ViewItem(
    id: int, productId: int, productName: string, price: int, quantity: int, kind: string)

  /** What `getCart` returns. */
  datatype CartView = CartView(id: int, items: seq<ViewItem>, total: int)

  datatype StoreError = ProductNotFound

  /** A successful `addToCart`: the new state and the row it inserted or updated. */
  datatype Added = Added(store: Store, line: Line)

  const UnknownName: string := "Unknown Product"
  const UnknownKind: string := "UNKNOWN"

  /** A database with no carts and no lines; `serial` ids start at 1. */
  function EmptyStore(catalog: map<int, Product>): Store {
    Store({}, [], 1, catalog)
  }

  function EmptyView(id: int): CartView {
    CartView(id, [], 0)
  }

  // ---------------------------------------------------------------------------
  // Row selection

  /** The rows of `xs` that `keep` accepts, in order: a `WHERE` clause. */
  function Filter(xs: seq<Line>, keep: Line -> bool): (r: seq<Line>)
    ensures |r| <= |xs|
    ensures forall x :: x in r <==> x in xs && keep(x)
  {
    if xs == [] then []
    else (if keep(xs[0]) then [xs[0]] else []) + Filter(xs[1..], keep)
  }

  lemma {:induction false} FilterAppend(xs: seq<Line>, ys: seq<Line>, keep: Line -> bool)
    ensures Filter(xs + ys, keep) == Filter(xs, keep) + Filter(ys, keep)
  {
    if xs == [] {
      assert xs + ys == ys;
    } else {
      assert (xs + ys)[1..] == xs[1..] + ys;
      FilterAppend(xs[1..], ys, keep);
    }
  }

  /** Filtering keeps everything when every row passes. */
  lemma {:induction false} FilterKeepsAll(xs: seq<Line>, keep: Line -> bool)
    requires forall i :: 0 <= i < |xs| ==> keep(xs[i])
    ensures Filter(xs, keep) == xs
  {
    if xs != [] {
      FilterKeepsAll(xs[1..], keep);
    }
  }

  /** A second filter that implies the first sees through it. */
  lemma {:induction false} FilterOfFilter(xs: seq<Line>, first: Line -> bool, second: Line -> bool)
    requires forall x :: second(x) ==> first(x)
    ensures Filter(Filter(xs, first), second) == Filter(xs, second)
  {
    if xs != [] {
      FilterOfFilter(xs[1..], first, second);
      if first(xs[0]) {
        var once := Filter(xs, first);
        assert once == [xs[0]] + Filter(xs[1..], first);
        assert once[0] == xs[0] && once[1..] == Filter(xs[1..], first);
      } else {
        assert Filter(xs, first) == Filter(xs[1..], first);
        assert !second(xs[0]);
        assert Filter(xs, second) == Filter(xs[1..], second);
      }
    }
  }

  /** `SELECT … FROM cart_items WHERE cart_id = cartId`. */
  function LinesOf(lines: seq<Line>, cartId: int): seq<Line> {
    Filter(lines, (l: Line) => l.cartId == cartId)
  }

  lemma LinesOfSnoc(lines: seq<Line>, l: Line, cartId: int)
    ensures LinesOf(lines + [l], cartId) == LinesOf(lines, cartId) + (if l.cartId == cartId then [l] else [])
  {
    FilterAppend(lines, [l], (l: Line) => l.cartId == cartId);
    assert [l][1..] == [];
  }

  // ---------------------------------------------------------------------------
  // getCart

  /** A line as `getCart` reports it; `||` falls back on an empty name or type too. */
  function Describe(catalog: map<int, Product>, l: Line): (item: ViewItem)
    ensures item.id == l.id && item.productId == l.productId && item.quantity == l.quantity
    ensures l.productId !in catalog ==>
      item.productName == UnknownName && item.price == 0 && item.kind == UnknownKind
    ensures l.productId in catalog ==> item.price == catalog[l.productId].price
    ensures l.productId in catalog ==>
      item.productName == (if catalog[l.productId].name != "" then catalog[l.productId].name else UnknownName)
    ensures l.productId in catalog ==>
      item.kind == (if catalog[l.productId].kind != "" then catalog[l.productId].kind else UnknownKind)
  {
    if l.productId in catalog then
      var p := catalog[l.productId];
      ViewItem(l.id, l.productId,
               if p.name == "" then UnknownName else p.name,
               p.price, l.quantity,
               if p.kind == "" then UnknownKind else p.kind)
    else
      ViewItem(l.id, l.productId, UnknownName, 0, l.quantity, UnknownKind)
  }

  function DescribeAll(catalog: map<int, Product>, lines: seq<Line>): (items: seq<ViewItem>)
    ensures |items| == |lines|
    ensures forall i :: 0 <= i < |lines| ==> items[i] == Describe(catalog, lines[i])
  {
    seq(|lines|, i requires 0 <= i < |lines| => Describe(catalog, lines[i]))
  }

  lemma DescribeAllSnoc(catalog: map<int, Product>, lines: seq<Line>, l: Line)
    ensures DescribeAll(catalog, lines + [l]) == DescribeAll(catalog, lines) + [Describe(catalog, l)]
  {
    var lhs := DescribeAll(catalog, lines + [l]);
    var rhs := DescribeAll(catalog, lines) + [Describe(catalog, l)];
    assert |lhs| == |rhs|;
    forall i | 0 <= i < |lhs|
      ensures lhs[i] == rhs[i]
    {
      if i < |lines| {
        assert (lines + [l])[i] == lines[i];
      }
    }
  }

  /** `items.reduce((sum, item) => sum + item.price * item.quantity, 0)`. */
  function TotalOf(items: seq<ViewItem>): int {
    if items == [] then 0 else TotalOf(items[..|items| - 1]) + items[|items| - 1].price * items[|items| - 1].quantity
  }

  /** The current catalog price of a product; a missing product is worth 0. */
  function UnitPrice(catalog: map<int, Product>, productId: int): int {
    if productId in catalog then catalog[productId].price else 0
  }

  /** The value of a list of rows at current catalog prices, summed row by row. */
  function Subtotal(catalog: map<int, Product>, lines: seq<Line>): int {
    if lines == [] then 0 else UnitPrice(catalog, lines[0].productId) * lines[0].quantity + Subtotal(catalog, lines[1..])
  }

  lemma {:induction false} SubtotalAppend(catalog: map<int, Product>, xs: seq<Line>, ys: seq<Line>)
    ensures Subtotal(catalog, xs + ys) == Subtotal(catalog, xs) + Subtotal(catalog, ys)
  {
    if xs == [] {
      assert xs + ys == ys;
    } else {
      assert (xs + ys)[1..] == xs[1..] + ys;
      SubtotalAppend(catalog, xs[1..], ys);
    }
  }

  /** The reduce over described items equals the catalog value of the rows they describe. */
  lemma {:induction false} TotalIsSubtotal(catalog: map<int, Product>, lines: seq<Line>)
    ensures TotalOf(DescribeAll(catalog, lines)) == Subtotal(catalog, lines)
    decreases |lines|
  {
    if lines != [] {
      var front := lines[..|lines| - 1];
      var last := lines[|lines| - 1];
      assert lines == front + [last];
      assert DescribeAll(catalog, lines)[..|lines| - 1] == DescribeAll(catalog, front);
      TotalIsSubtotal(catalog, front);
      SubtotalAppend(catalog, front, [last]);
    }
  }

  /**
   * `getCart(cartId)`: no cart row, or a cart with no lines, gives the empty
   * view; otherwise every line of the cart, in table order, priced at the
   * current catalog price, and their total.
   */
  function CartViewOf(s: Store, cartId: int): (v: CartView)
    ensures v.id == cartId
    ensures cartId !in s.carts || LinesOf(s.lines, cartId) == [] ==> v == EmptyView(cartId)
    ensures cartId in s.carts ==> |v.items| == |LinesOf(s.lines, cartId)|
    ensures cartId in s.carts ==> forall i :: 0 <= i < |v.items| ==>
      v.items[i] == Describe(s.catalog, LinesOf(s.lines, cartId)[i])
    ensures v.total == (if cartId in s.carts then Subtotal(s.catalog, LinesOf(s.lines, cartId)) else 0)
  {
    if cartId !in s.carts then EmptyView(cartId)
    else
      var mine := LinesOf(s.lines, cartId);
      var items := DescribeAll(s.catalog, mine);
      TotalIsSubtotal(s.catalog, mine);
      CartView(cartId, items, TotalOf(items))
  }

  /**
   * `getCart` as the source computes it: look up the cart row, select its
   * lines, describe each against the catalog and reduce to a total.
   */
  method GetCart(s: Store, cartId: int) returns (v: CartView)
    ensures v == CartViewOf(s, cartId)
  {
    if cartId !in s.carts {
      return EmptyView(cartId);
    }
    var items: seq<ViewItem> := [];
    var total := 0;
    var i := 0;
    while i < |s.lines|
      invariant i <= |s.lines|
      invariant items == DescribeAll(s.catalog, LinesOf(s.lines[..i], cartId))
      invariant total == TotalOf(items)
    {
      var l := s.lines[i];
      LinesOfSnoc(s.lines[..i], l, cartId);
      assert s.lines[..i + 1] == s.lines[..i] + [l];
      if l.cartId == cartId {
        var item := Describe(s.catalog, l);
        DescribeAllSnoc(s.catalog, LinesOf(s.lines[..i], cartId), l);
        assert (items + [item])[..|items|] == items;
        items := items + [item];
        total := total + item.price * item.quantity;
      }
      i := i + 1;
    }
    assert s.lines[..i] == s.lines;
    if items == [] {
      return EmptyView(cartId);
    }
    v := CartView(cartId, items, total);
  }

  // ---------------------------------------------------------------------------
  // addToCart

  predicate Matches(l: Line, cartId: int, productId: int) {
    l.cartId == cartId && l.productId == productId
  }

  /** The first row for (cartId, productId) at or after `k`. */
  function FindFrom(lines: seq<Line>, cartId: int, productId: int, k: nat): (r: Option<nat>)
    requires k <= |lines|
    ensures r.Some? ==> k <= r.value < |lines| && Matches(lines[r.value], cartId, productId)
    ensures r.Some? ==> forall j :: k <= j < r.value ==> !Matches(lines[j], cartId, productId)
    ensures r.None? ==> forall j :: k <= j < |lines| ==> !Matches(lines[j], cartId, productId)
    decreases |lines| - k
  {
    if k == |lines| then None
    else if Matches(lines[k], cartId, productId) then Some(k)
    else FindFrom(lines, cartId, productId, k + 1)
  }

  /** `const [existingItem] = SELECT … WHERE cart_id = cartId AND product_id = productId`. */
  function FindLine(lines: seq<Line>, cartId: int, productId: int): (r: Option<nat>)
    ensures r.Some? ==> r.value < |lines| && Matches(lines[r.value], cartId, productId)
    ensures r.Some? ==> forall j :: 0 <= j < r.value ==> !Matches(lines[j], cartId, productId)
    ensures r.None? ==> forall j :: 0 <= j < |lines| ==> !Matches(lines[j], cartId, productId)
  {
    FindFrom(lines, cartId, productId, 0)
  }

  /**
   * `addToCart(cartId, productId, quantity)`: fails when the product is not
   * in the catalog; otherwise creates the cart row with exactly this id if it
   * is missing, then adds `quantity` to the first line for the pair or, when
   * there is none, appends a new line with the next serial id.
   */
  function AddToCart(s: Store, cartId: int, productId: int, quantity: int): (r: Result<Added, StoreError>)
    ensures r.Failure? <==> productId !in s.catalog
    ensures r.Failure? ==> r.error == ProductNotFound
    ensures r.Success? ==> r.value.store.carts == s.carts + {cartId}
    ensures r.Success? ==> r.value.store.catalog == s.catalog
    ensures r.Success? ==> Matches(r.value.line, cartId, productId) && r.value.line in r.value.store.lines
    ensures r.Success? && FindLine(s.lines, cartId, productId).None? ==>
      r.value.line == Line(s.nextLineId, cartId, productId, quantity)
      && r.value.store.lines == s.lines + [r.value.line]
      && r.value.store.nextLineId == s.nextLineId + 1
    ensures r.Success? && FindLine(s.lines, cartId, productId).Some? ==>
      var i := FindLine(s.lines, cartId, productId).value;
      r.value.line == s.lines[i].(quantity := s.lines[i].quantity + quantity)
      && |r.value.store.lines| == |s.lines|
      && (forall j :: 0 <= j < |s.lines| && j != i ==> r.value.store.lines[j] == s.lines[j])
      && r.value.store.nextLineId == s.nextLineId
  {
    if productId !in s.catalog then Failure(ProductNotFound)
    else
      var carts := s.carts + {cartId};
      match FindLine(s.lines, cartId, productId)
      case Some(i) =>
        var updated := s.lines[i].(quantity := s.lines[i].quantity + quantity);
        assert s.lines[i := updated][i] == updated;
        Success(Added(s.(carts := carts, lines := s.lines[i := updated]), updated))
      case None =>
        var inserted := Line(s.nextLineId, cartId, productId, quantity);
        Success(Added(s.(carts := carts, lines := s.lines + [inserted], nextLineId := s.nextLineId + 1), inserted))
  }

  // ---------------------------------------------------------------------------
  // removeFromCart and clearCart

  /** `DELETE FROM cart_items WHERE cart_id = cartId AND id = itemId`. */
  function RemoveFromCart(s: Store, cartId: int, itemId: int): (r: Store)
    ensures r.carts == s.carts && r.catalog == s.catalog && r.nextLineId == s.nextLineId
    ensures forall l :: l in r.lines <==> l in s.lines && !(l.cartId == cartId && l.id == itemId)
  {
    s.(lines := Filter(s.lines, (l: Line) => !(l.cartId == cartId && l.id == itemId)))
  }

  /** `DELETE FROM cart_items WHERE cart_id = cartId`; the cart row stays. */
  function ClearCart(s: Store, cartId: int): (r: Store)
    ensures r.carts == s.carts && r.catalog == s.catalog && r.nextLineId == s.nextLineId
    ensures forall l :: l in r.lines <==> l in s.lines && l.cartId != cartId
  {
    s.(lines := Filter(s.lines, (l: Line) => l.cartId != cartId))
  }
}
