/** The records the cart controller works with. */
module Products {

  /**
   * A catalogue record as the barcode lookup returns it. `id` is the
   * catalogue's `_id`; the price is kept in minor units (an integer), not
   * as a floating-point number.
   */
  datatype Product = Product(id: string, barcode: string, name: string, price: int)

  /**
   * A product together with a quantity. The working item and every cart
   * line have this shape: the product's fields spread into a new object
   * with a `quantity` field.
   */
  datatype Line = Line(product: Product, quantity: int)

  /** What one line contributes to the bill: price times quantity. */
  function Cost(l: Line): int
  {
    l.product.price * l.quantity
  }

  /** Adding `n` units to a line adds `n` times its price to its cost. */
  lemma CostAddUnits(l: Line, n: int)
    ensures Cost(l.(quantity := l.quantity + n)) == Cost(l) + l.product.price * n
  {
  }
}
