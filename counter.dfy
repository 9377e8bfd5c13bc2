/**
 * The self-checkout component: four state cells and the handlers that
 * update them. Each handler is one atomic transition; the remote lookup is
 * an input to `GetProductDetails`.
 */
module SelfCounter {
  import opened Wrappers
  import opened Products
  import RecentList
  import CartLines

  class App {
    /** The last scanned barcode. */
    var code: string
    /** The working item: the looked-up product with the quantity chosen so far. */
    var productDetails: Option<Line>
    /** Recently found products, most recent first. */
    var recentProduct: seq<Product>
    /** The cart lines, in the order they were first added. */
    var cart: seq<Line>

    /**
     * The invariant every handler keeps: the working quantity is at least
     * one; the recent list is short and has no duplicate barcodes; the
     * cart has one line per product, each holding at least one unit.
     */
    ghost predicate Valid()
      reads this
    {
      && (productDetails.Some? ==> productDetails.value.quantity >= 1)
      && |recentProduct| <= RecentList.MaxRecent
      && RecentList.DistinctBarcodes(recentProduct)
      && CartLines.UniqueIds(cart)
      && CartLines.AllPositive(cart)
    }

    /** The component's initial state. */
    constructor ()
      ensures Valid()
      ensures code == "" && productDetails == None && recentProduct == [] && cart == []
    {
      code := "";
      productDetails := None;
      recentProduct := [];
      cart := [];
    }

    /**
     * Handles a scanned barcode whose lookup produced `lookup` (`None` when
     * no product was found or the request failed).
     */
    method GetProductDetails(barcode: string, lookup: Option<Product>)
      modifies this
      ensures code == barcode
      ensures cart == old(cart)
      ensures lookup.Some? ==>
                && productDetails == Some(Line(lookup.value, 1))
                && recentProduct == RecentList.Update(old(recentProduct), lookup.value)
      ensures lookup.None? ==> productDetails == None && recentProduct == old(recentProduct)
      ensures old(Valid()) ==> Valid()
    {
      code := barcode;
      match lookup {
        case Some(product) =>
          productDetails := Some(Line(product, 1));
          recentProduct := RecentList.Update(recentProduct, product);
        case None =>
          productDetails := None;
      }
    }

    /** One more unit of the working item; nothing happens without one. */
    method IncreaseTemp()
      modifies this`productDetails
      ensures old(productDetails).None? ==> productDetails == None
      ensures old(productDetails).Some? ==>
                productDetails == Some(old(productDetails).value.(quantity := old(productDetails).value.quantity + 1))
      ensures old(Valid()) ==> Valid()
    {
      if productDetails.Some? {
        var w := productDetails.value;
        productDetails := Some(w.(quantity := w.quantity + 1));
      }
    }

    /** One unit fewer of the working item, only while it holds more than one. */
    method DecreaseTemp()
      modifies this`productDetails
      ensures old(productDetails).Some? && old(productDetails).value.quantity > 1 ==>
                productDetails == Some(old(productDetails).value.(quantity := old(productDetails).value.quantity - 1))
      ensures !(old(productDetails).Some? && old(productDetails).value.quantity > 1) ==>
                productDetails == old(productDetails)
      ensures old(Valid()) ==> Valid()
    {
      if productDetails.Some? && productDetails.value.quantity > 1 {
        var w := productDetails.value;
        productDetails := Some(w.(quantity := w.quantity - 1));
      }
    }

    /**
     * Commits the working item to the cart and clears it; without a
     * working item the cart is left alone.
     */
    method AddToCart()
      modifies this`cart, this`productDetails
      ensures old(productDetails).None? ==> cart == old(cart)
      ensures old(productDetails).Some? ==> cart == CartLines.AddLine(old(cart), old(productDetails).value)
      ensures productDetails == None
      ensures old(Valid()) ==> Valid()
    {
      if productDetails.None? {
        return;
      }
      CartLines.AddLineKeepsInvariant(cart, productDetails.value);
      cart := CartLines.AddLine(cart, productDetails.value);
      productDetails := None;
    }

    /** One more unit on the cart line of product `id`. */
    method IncreaseCart(id: string)
      modifies this`cart
      ensures cart == CartLines.IncreaseLines(old(cart), id)
      ensures old(Valid()) ==> Valid()
    {
      cart := CartLines.IncreaseLines(cart, id);
    }

    /** One unit fewer on the cart line of product `id`, never below one. */
    method DecreaseCart(id: string)
      modifies this`cart
      ensures cart == CartLines.DecreaseLines(old(cart), id)
      ensures old(Valid()) ==> Valid()
    {
      cart := CartLines.DecreaseLines(cart, id);
    }

    /**
     * The bill shown under the cart: the fold `CartLines.Total` of the
     * current lines (its properties are the `CartLines.Total...` lemmas).
     */
    function TotalBill(): (t: int)
      reads this
      ensures t == CartLines.Total(cart)
      ensures cart == [] ==> t == 0
    {
      CartLines.Total(cart)
    }

    /**
     * The recent entries that are rendered: a prefix of the recent list of
     * at most `RecentList.Shown` entries, distinct by barcode in a valid state.
     */
    function RecentShown(): (r: seq<Product>)
      reads this
      ensures |r| <= RecentList.Shown && r <= recentProduct
      ensures |recentProduct| >= RecentList.Shown ==> |r| == RecentList.Shown
      ensures |recentProduct| < RecentList.Shown ==> r == recentProduct
      ensures Valid() ==> RecentList.DistinctBarcodes(r)
    {
      RecentList.Displayed(recentProduct)
    }
  }

  /**
   * A checkout session: a found product committed once with one unit and
   * once with two ends as a single line of three units; a barcode with no
   * product changes neither the cart nor the recent list.
   */
  method CheckoutSession()
  {
    var soap := Product("1", "A1", "Soap", 50);
    var app := new App();
    app.GetProductDetails("A1", Some(soap));
    assert app.productDetails == Some(Line(soap, 1));
    assert !CartLines.HasId([], soap.id);
    app.AddToCart();
    assert app.cart == [Line(soap, 1)];
    CartLines.TotalSnoc([], Line(soap, 1), app.cart);
    assert app.TotalBill() == 50;
    app.GetProductDetails("A1", Some(soap));
    app.IncreaseTemp();
    assert app.productDetails == Some(Line(soap, 2));
    assert CartLines.FindIndex(app.cart, soap.id) == 0;
    app.AddToCart();
    assert app.cart == [Line(soap, 3)];
    CartLines.TotalSnoc([], Line(soap, 3), app.cart);
    assert app.TotalBill() == 150;
    var before := app.recentProduct;
    app.GetProductDetails("ZZ", None);
    assert app.productDetails == None && app.cart == [Line(soap, 3)] && app.recentProduct == before;
    assert app.code == "ZZ";
  }
}
