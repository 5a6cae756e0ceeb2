/**
 * What the cart store keeps true across its operations: each cart line
 * belongs to an existing cart, has a positive quantity and a serial id below
 * the next one; ids are unique; and there is at most one line per
 * (cart, product) pair. Also how each operation changes the per-pair
 * quantities and the carts' views.
 */
module CartInvariants {
  import opened Wrappers
  import opened Schema
  import opened Storage

  // ---------------------------------------------------------------------------
  // The invariant

  function SameId(a: Line, b: Line): bool {
    a.id == b.id
  }

  function SamePair(a: Line, b: Line): bool {
    a.cartId == b.cartId && a.productId == b.productId
  }

  /** No two rows, the earlier one first, are related by `same`. */
  predicate NoTwo(lines: seq<Line>, same: (Line, Line) -> bool) {
    forall i, j :: 0 <= i < j < |lines| ==> !same(lines[i], lines[j])
  }

  predicate LineOk(s: Store, l: Line) {
    l.cartId in s.carts && 0 < l.quantity && 0 < l.id < s.nextLineId
  }

  predicate Inv(s: Store) {
    && 0 < s.nextLineId
    && (forall l :: l in s.lines ==> LineOk(s, l))
    && NoTwo(s.lines, SameId)
    && NoTwo(s.lines, SamePair)
  }

  /** The empty database satisfies the invariant. */
  lemma EmptyStoreInv(catalog: map<int, Product>)
    ensures Inv(EmptyStore(catalog))
  {
  }

  /** A `WHERE` clause never creates two related rows. */
  lemma {:induction false} FilterKeepsNoTwo(xs: seq<Line>, keep: Line -> bool, same: (Line, Line) -> bool)
    requires NoTwo(xs, same)
    ensures NoTwo(Filter(xs, keep), same)
  {
    if xs != [] {
      var tail := Filter(xs[1..], keep);
      assert NoTwo(xs[1..], same) by {
        forall i, j | 0 <= i < j < |xs[1..]|
          ensures !same(xs[1..][i], xs[1..][j])
        {
          assert xs[1..][i] == xs[i + 1] && xs[1..][j] == xs[j + 1];
        }
      }
      FilterKeepsNoTwo(xs[1..], keep, same);
      if keep(xs[0]) {
        var r := Filter(xs, keep);
        assert r == [xs[0]] + tail;
        forall i, j | 0 <= i < j < |r|
          ensures !same(r[i], r[j])
        {
          if i == 0 {
            assert r[j] == tail[j - 1];
            assert tail[j - 1] in xs[1..];
            var k :| 0 <= k < |xs[1..]| && xs[1..][k] == tail[j - 1];
            assert xs[k + 1] == r[j];
          } else {
            assert r[i] == tail[i - 1] && r[j] == tail[j - 1];
          }
        }
      } else {
        assert Filter(xs, keep) == tail;
      }
    }
  }

  /** A `WHERE` clause no row passes selects nothing. */
  lemma {:induction false} FilterNone(xs: seq<Line>, keep: Line -> bool)
    requires forall i :: 0 <= i < |xs| ==> !keep(xs[i])
    ensures Filter(xs, keep) == []
  {
    if xs != [] {
      FilterNone(xs[1..], keep);
    }
  }

  // ---------------------------------------------------------------------------
  // Quantities per (cart, product)

  /** The total quantity recorded for (cartId, productId) over all rows. */
  function QuantityOf(lines: seq<Line>, cartId: int, productId: int): int {
    if lines == [] then 0
    else
      QuantityOf(lines[..|lines| - 1], cartId, productId)
      + (if Matches(lines[|lines| - 1], cartId, productId) then lines[|lines| - 1].quantity else 0)
  }

  /** Changing one row's quantity by `delta` changes its pair's total by `delta` and no other. */
  lemma {:induction false} QuantityOfUpdate(lines: seq<Line>, i: nat, delta: int, cartId: int, productId: int)
    requires i < |lines|
    ensures QuantityOf(lines[i := lines[i].(quantity := lines[i].quantity + delta)], cartId, productId)
      == QuantityOf(lines, cartId, productId) + (if Matches(lines[i], cartId, productId) then delta else 0)
    decreases |lines|
  {
    var updated := lines[i := lines[i].(quantity := lines[i].quantity + delta)];
    var n := |lines|;
    if i == n - 1 {
      assert updated[..n - 1] == lines[..n - 1];
    } else {
      assert updated[..n - 1] == lines[..n - 1][i := lines[i].(quantity := lines[i].quantity + delta)];
      QuantityOfUpdate(lines[..n - 1], i, delta, cartId, productId);
    }
  }

  /** Appending a row adds its quantity to its own pair only. */
  lemma QuantityOfAppend(lines: seq<Line>, l: Line, cartId: int, productId: int)
    ensures QuantityOf(lines + [l], cartId, productId)
      == QuantityOf(lines, cartId, productId) + (if Matches(l, cartId, productId) then l.quantity else 0)
  {
    assert (lines + [l])[..|lines|] == lines;
  }

  /** A pair with no row has quantity 0. */
  lemma {:induction false} QuantityOfAbsent(lines: seq<Line>, cartId: int, productId: int)
    requires forall j :: 0 <= j < |lines| ==> !Matches(lines[j], cartId, productId)
    ensures QuantityOf(lines, cartId, productId) == 0
    decreases |lines|
  {
    if lines != [] {
      QuantityOfAbsent(lines[..|lines| - 1], cartId, productId);
    }
  }

  /**
   * `addToCart` adds exactly `quantity` to the pair it names and leaves the
   * recorded quantity of every other (cart, product) pair alone, whether it
   * merged into an existing line or inserted a new one.
   */
  lemma AddChangesOnlyItsPair(s: Store, cartId: int, productId: int, quantity: int, c: int, p: int)
    requires AddToCart(s, cartId, productId, quantity).Success?
    ensures QuantityOf(AddToCart(s, cartId, productId, quantity).value.store.lines, c, p)
      == QuantityOf(s.lines, c, p) + (if c == cartId && p == productId then quantity else 0)
  {
    var s' := AddToCart(s, cartId, productId, quantity).value.store;
    match FindLine(s.lines, cartId, productId)
    case Some(i) =>
      assert s'.lines == s.lines[i := s.lines[i].(quantity := s.lines[i].quantity + quantity)];
      QuantityOfUpdate(s.lines, i, quantity, c, p);
    case None =>
      QuantityOfAppend(s.lines, Line(s.nextLineId, cartId, productId, quantity), c, p);
  }

  // ---------------------------------------------------------------------------
  // Preservation

  /** Sequential adds of positive quantities keep the invariant, in particular one line per pair. */
  lemma AddPreservesInv(s: Store, cartId: int, productId: int, quantity: int)
    requires Inv(s) && 0 < quantity
    requires AddToCart(s, cartId, productId, quantity).Success?
    ensures Inv(AddToCart(s, cartId, productId, quantity).value.store)
  {
    var s' := AddToCart(s, cartId, productId, quantity).value.store;
    match FindLine(s.lines, cartId, productId)
    case Some(i) =>
      var u := s.lines[i].(quantity := s.lines[i].quantity + quantity);
      assert s'.lines == s.lines[i := u];
      forall l | l in s'.lines
        ensures LineOk(s', l)
      {
        var k :| 0 <= k < |s'.lines| && s'.lines[k] == l;
        if k != i {
          assert s.lines[k] in s.lines;
        } else {
          assert s.lines[i] in s.lines;
        }
      }
      forall a, b | 0 <= a < b < |s'.lines|
        ensures !SameId(s'.lines[a], s'.lines[b]) && !SamePair(s'.lines[a], s'.lines[b])
      {
        assert SameId(s'.lines[a], s'.lines[b]) == SameId(s.lines[a], s.lines[b]);
        assert SamePair(s'.lines[a], s'.lines[b]) == SamePair(s.lines[a], s.lines[b]);
      }
    case None =>
      var l := Line(s.nextLineId, cartId, productId, quantity);
      assert s'.lines == s.lines + [l];
      forall m | m in s'.lines
        ensures LineOk(s', m)
      {
        if m != l {
          assert m in s.lines;
        }
      }
      forall a, b | 0 <= a < b < |s'.lines|
        ensures !SameId(s'.lines[a], s'.lines[b]) && !SamePair(s'.lines[a], s'.lines[b])
      {
        if b == |s.lines| {
          assert s.lines[a] in s.lines;
          assert !Matches(s.lines[a], cartId, productId);
        }
      }
  }

  /** Removing a line keeps the invariant. */
  lemma RemovePreservesInv(s: Store, cartId: int, itemId: int)
    requires Inv(s)
    ensures Inv(RemoveFromCart(s, cartId, itemId))
  {
    var keep := (l: Line) => !(l.cartId == cartId && l.id == itemId);
    FilterKeepsNoTwo(s.lines, keep, SameId);
    FilterKeepsNoTwo(s.lines, keep, SamePair);
  }

  /** Clearing a cart keeps the invariant. */
  lemma ClearPreservesInv(s: Store, cartId: int)
    requires Inv(s)
    ensures Inv(ClearCart(s, cartId))
  {
    var keep := (l: Line) => l.cartId != cartId;
    FilterKeepsNoTwo(s.lines, keep, SameId);
    FilterKeepsNoTwo(s.lines, keep, SamePair);
  }

  // ---------------------------------------------------------------------------
  // Merging

  /** The rows for one (cart, product) pair. */
  function PairLines(lines: seq<Line>, cartId: int, productId: int): seq<Line> {
    Filter(lines, (l: Line) => Matches(l, cartId, productId))
  }

  /**
   * Adding a product twice with quantity 1 to a cart that has no line for it
   * leaves exactly one line for the pair, of quantity 2, not two lines.
   */
  lemma AddTwiceMerges(s: Store, cartId: int, productId: int)
    requires productId in s.catalog
    requires FindLine(s.lines, cartId, productId).None?
    ensures var once := AddToCart(s, cartId, productId, 1).value.store;
      var twice := AddToCart(once, cartId, productId, 1).value.store;
      PairLines(twice.lines, cartId, productId) == [Line(s.nextLineId, cartId, productId, 2)]
  {
    var first := Line(s.nextLineId, cartId, productId, 1);
    var once := AddToCart(s, cartId, productId, 1).value.store;
    assert once.lines == s.lines + [first];
    assert FindLine(once.lines, cartId, productId) == Some(|s.lines|) by {
      assert once.lines[|s.lines|] == first;
      assert forall j :: 0 <= j < |s.lines| ==> once.lines[j] == s.lines[j];
    }
    var twice := AddToCart(once, cartId, productId, 1).value.store;
    var second := first.(quantity := 2);
    assert twice.lines == s.lines + [second];
    var keep := (l: Line) => Matches(l, cartId, productId);
    FilterAppend(s.lines, [second], keep);
    FilterNone(s.lines, keep);
    assert Filter([second], keep) == [second] + Filter([second][1..], keep);
  }

  // ---------------------------------------------------------------------------
  // Effects on views

  /** After a successful add, the cart's view lists a line for the product. */
  lemma AddedProductIsInView(s: Store, cartId: int, productId: int, quantity: int)
    requires AddToCart(s, cartId, productId, quantity).Success?
    ensures var v := CartViewOf(AddToCart(s, cartId, productId, quantity).value.store, cartId);
      exists i :: 0 <= i < |v.items| && v.items[i].productId == productId
  {
    var r := AddToCart(s, cartId, productId, quantity).value;
    var mine := LinesOf(r.store.lines, cartId);
    assert r.line in mine;
    var k :| 0 <= k < |mine| && mine[k] == r.line;
    var v := CartViewOf(r.store, cartId);
    assert v.items[k] == Describe(r.store.catalog, r.line);
  }

  /** Removing an id that is not a line of this cart changes nothing. */
  lemma RemoveUnknownIsNoop(s: Store, cartId: int, itemId: int)
    requires forall i :: 0 <= i < |s.lines| ==> !(s.lines[i].cartId == cartId && s.lines[i].id == itemId)
    ensures RemoveFromCart(s, cartId, itemId) == s
  {
    FilterKeepsAll(s.lines, (l: Line) => !(l.cartId == cartId && l.id == itemId));
  }

  /** Removing a line of one cart leaves every other cart's view as it was. */
  lemma RemoveLeavesOtherCarts(s: Store, cartId: int, itemId: int, other: int)
    requires other != cartId
    ensures CartViewOf(RemoveFromCart(s, cartId, itemId), other) == CartViewOf(s, other)
  {
    FilterOfFilter(s.lines, (l: Line) => !(l.cartId == cartId && l.id == itemId), (l: Line) => l.cartId == other);
  }

  /** Clearing a cart empties its view and keeps its row. */
  lemma ClearEmptiesCart(s: Store, cartId: int)
    ensures cartId in ClearCart(s, cartId).carts <==> cartId in s.carts
    ensures CartViewOf(ClearCart(s, cartId), cartId) == EmptyView(cartId)
  {
  }

  /** Clearing a cart leaves every other cart's lines, in order, and its view as they were. */
  lemma ClearLeavesOtherCarts(s: Store, cartId: int, other: int)
    requires other != cartId
    ensures LinesOf(ClearCart(s, cartId).lines, other) == LinesOf(s.lines, other)
    ensures CartViewOf(ClearCart(s, cartId), other) == CartViewOf(s, other)
  {
    FilterOfFilter(s.lines, (l: Line) => l.cartId != cartId, (l: Line) => l.cartId == other);
  }

  // ---------------------------------------------------------------------------
  // A whole session against one cart

  /**
   * Adding a product priced 1999 cents to a new cart shows one line and a
   * total of 1999; adding it again shows the same line with quantity 2 and
   * 3998; removing that line leaves the cart empty with total 0.
   */
  lemma AddAddRemoveScenario(catalog: map<int, Product>, cartId: int)
    requires 3 in catalog && catalog[3].price == 1999
    ensures var s0 := EmptyStore(catalog);
      var s1 := AddToCart(s0, cartId, 3, 1).value.store;
      var s2 := AddToCart(s1, cartId, 3, 1).value.store;
      var s3 := RemoveFromCart(s2, cartId, 1);
      && |CartViewOf(s1, cartId).items| == 1 && CartViewOf(s1, cartId).total == 1999
      && |CartViewOf(s2, cartId).items| == 1 && CartViewOf(s2, cartId).items[0].quantity == 2
      && CartViewOf(s2, cartId).total == 3998
      && CartViewOf(s3, cartId) == EmptyView(cartId)
  {
    var s0 := EmptyStore(catalog);
    var s1 := AddToCart(s0, cartId, 3, 1).value.store;
    var l1 := Line(1, cartId, 3, 1);
    assert s1.lines == [l1];
    assert LinesOf(s1.lines, cartId) == [l1] by {
      LinesOfSnoc([], l1, cartId);
    }
    assert [l1][1..] == [];
    assert Subtotal(catalog, [l1]) == 1999;
    var s2 := AddToCart(s1, cartId, 3, 1).value.store;
    var l2 := Line(1, cartId, 3, 2);
    assert FindLine(s1.lines, cartId, 3) == Some(0);
    assert s2.lines == [l2];
    assert LinesOf(s2.lines, cartId) == [l2] by {
      LinesOfSnoc([], l2, cartId);
    }
    assert [l2][1..] == [];
    assert Subtotal(catalog, [l2]) == 3998;
    var s3 := RemoveFromCart(s2, cartId, 1);
    assert s3.lines == [] by {
      FilterNone(s2.lines, (l: Line) => !(l.cartId == cartId && l.id == 1));
    }
    assert LinesOf(s3.lines, cartId) == [];
  }
}
