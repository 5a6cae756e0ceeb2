/**
 * The tables and the request schema of `shared/schema.ts`: product rows,
 * cart-line rows and the add-to-cart body validator.
 */
module Schema {
  import opened Wrappers
  import opened JsValues

  /** A row of `products`, keyed by its id in the catalog; the price is in cents. */
  datatype Product = Product(name: string, price: int, kind: string)

  /** A row of `cart_items`. */
  datatype Line = Line(id: int, cartId: int, productId: int, quantity: int)

  /** A body accepted by `cartItemSchema`. */
  datatype CartItemInput = CartItemInput(productId: int, quantity: int)

  /** The checks of `z.number().int().positive()`. */
  datatype IssueKind = ExpectedNumber | ExpectedInteger | NotPositive

  /** One entry of a validation error's `errors` list. */
  datatype Issue = Issue(field: string, kind: IssueKind)

  /** The `.default(1)` of the `quantity` field. */
  const DefaultQuantity: int := 1

  predicate IsPositiveInteger(v: JsValue) {
    v.Num? && IsIntegral(v.x) && v.x > 0.0
  }

  /**
   * The issues `z.number().int().positive()` reports for one field: a
   * non-number fails the type check alone; a number runs both refinements
   * and reports each that fails.
   */
  function PositiveIntegerIssues(field: string, v: JsValue): (r: seq<Issue>)
    ensures r == [] <==> IsPositiveInteger(v)
    ensures forall i :: 0 <= i < |r| ==> r[i].field == field
    ensures !v.Num? ==> r == [Issue(field, ExpectedNumber)]
    ensures v.Num? ==> Issue(field, ExpectedNumber) !in r
    ensures v.Num? ==> (Issue(field, ExpectedInteger) in r <==> !IsIntegral(v.x))
    ensures v.Num? ==> (Issue(field, NotPositive) in r <==> v.x <= 0.0)
  {
    match v
    case Num(x) =>
      (if IsIntegral(x) then [] else [Issue(field, ExpectedInteger)])
      + (if x > 0.0 then [] else [Issue(field, NotPositive)])
    case _ => [Issue(field, ExpectedNumber)]
  }

  /** `cartItemSchema.parse({productId, quantity})`. */
  function ParseCartItem(productId: JsValue, quantity: JsValue): (r: Result<CartItemInput, seq<Issue>>)
    ensures r.Success? <==>
      IsPositiveInteger(productId) && (quantity.Undefined? || IsPositiveInteger(quantity))
    ensures r.Success? ==> 0 < r.value.productId && r.value.productId as real == productId.x
    ensures r.Success? ==> 0 < r.value.quantity
    ensures r.Success? && quantity.Undefined? ==> r.value.quantity == DefaultQuantity
    ensures r.Success? && quantity.Num? ==> r.value.quantity as real == quantity.x
    ensures r.Failure? ==> r.error != []
  {
    var issues :=
      PositiveIntegerIssues("productId", productId)
      + (if quantity.Undefined? then [] else PositiveIntegerIssues("quantity", quantity));
    if issues == [] then
      Success(CartItemInput(productId.x.Floor, if quantity.Undefined? then DefaultQuantity else quantity.x.Floor))
    else
      Failure(issues)
  }
}
