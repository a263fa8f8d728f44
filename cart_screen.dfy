/**
 * The cart screen (CartActivity): tax, delivery and grand total, and the
 * wiring of the +/- buttons to the cart. Money on this screen is counted in
 * hundredths of a dong, the precision the tax is rounded to.
 */
module CartScreen {
  import opened ItemsModel
  import opened Cart

  const TaxRate: real := 0.02

  /** Fixed delivery charge, in whole dong. */
  const Delivery: int := 25000

  /** `Math.round` on a double: the nearest integer, halves rounded up. */
  function Round(x: real): int {
    (x + 0.5).Floor
  }

  /** `calculatorCart`: 2% of the item total rounded to the hundredth, counted in hundredths. */
  function TaxCents(itemTotal: int): int {
    Round(itemTotal as real * TaxRate * 100.0)
  }

  /** For a whole-dong item total the rounding is exact: the tax is 2 hundredths per dong. */
  lemma TaxIsTwoPercent(itemTotal: int)
    ensures TaxCents(itemTotal) == 2 * itemTotal
  {
    var x := itemTotal as real * TaxRate * 100.0;
    assert x == (2 * itemTotal) as real;
    assert x + 0.5 == (2 * itemTotal) as real + 0.5;
  }

  /** No items, no tax; more items, never less tax. */
  lemma TaxZeroAndMonotone(a: int, b: int)
    requires a <= b
    ensures TaxCents(0) == 0
    ensures TaxCents(a) <= TaxCents(b)
  {
    TaxIsTwoPercent(0);
    TaxIsTwoPercent(a);
    TaxIsTwoPercent(b);
  }

  /** `CartSummary`'s total: item total + tax + delivery, in hundredths. */
  function GrandTotalCents(itemTotal: int, taxCents: int): int {
    itemTotal * 100 + taxCents + Delivery * 100
  }

  /** With the tax of the same item total, the grand total is 102% of the items plus delivery. */
  lemma GrandTotalFromItems(itemTotal: int)
    ensures GrandTotalCents(itemTotal, TaxCents(itemTotal)) == 102 * itemTotal + 2500000
  {
    TaxIsTwoPercent(itemTotal);
  }

  /** `indexOf`: position of the first element equal to `x`. */
  function IndexOf(s: seq<Item>, x: Item): (r: nat)
    requires x in s
    ensures r < |s| && s[r] == x && forall j :: 0 <= j < r ==> s[j] != x
  {
    if s[0] == x then 0 else 1 + IndexOf(s[1..], x)
  }

  /** What the screen renders. */
  datatype View =
    | EmptyMessage                                       // "Cart Is Empty"
    | ListAndSummary(lines: seq<Item>, lineTotals: seq<int>,
                     itemTotal: int, taxCents: int, totalCents: int)

  /** What the checkout button hands to the payment screen. */
  datatype Checkout = Checkout(cartItems: seq<Item>, totalCents: int)

  class Screen {
    const cart: ManagmentCart
    var cartItems: ItemList
    var tax: int

    /** The displayed list and the tax both reflect the store. */
    ghost predicate InSync()
      reads this, cart, cartItems
    {
      cartItems.elems == cart.GetListCart() && tax == TaxCents(TotalFee(cart.GetListCart()))
    }

    /** Opening the screen loads the list and computes the tax. */
    constructor (c: ManagmentCart)
      ensures cart == c && fresh(cartItems)
      ensures InSync()
      ensures c.db == old(c.db) && c.listenerCalls == old(c.listenerCalls)
    {
      cart := c;
      cartItems := new ItemList(c.GetListCart());
      var fee := c.GetTotalFee();
      tax := TaxCents(fee);
    }

    /** The listener body: reload the list from the store and recompute the tax. */
    method OnItemChange()
      modifies this
      ensures cart.db == old(cart.db) && fresh(cartItems)
      ensures InSync()
    {
      cartItems := new ItemList(cart.GetListCart());
      var fee := cart.GetTotalFee();
      tax := TaxCents(fee);
    }

    /** The "+" button of the line showing `item`. */
    method PlusClicked(item: Item, now: int)
      requires item in cartItems.elems
      modifies this, cart, cartItems
      ensures cart.GetListCart() == Incremented(old(cartItems.elems), IndexOf(old(cartItems.elems), item), now)
      ensures cart.listenerCalls == old(cart.listenerCalls) + 1
      ensures InSync()
    {
      var position := IndexOf(cartItems.elems, item);
      cart.PlusItem(cartItems, position, now);
      OnItemChange();
    }

    /** The "-" button of the line showing `item`. */
    method MinusClicked(item: Item, now: int)
      requires item in cartItems.elems
      modifies this, cart, cartItems
      ensures cart.GetListCart() == Decremented(old(cartItems.elems), IndexOf(old(cartItems.elems), item), now)
      ensures cart.listenerCalls == old(cart.listenerCalls) + 1
      ensures InSync()
    {
      var position := IndexOf(cartItems.elems, item);
      cart.MinusItem(cartItems, position, now);
      OnItemChange();
    }

    /** The rendered screen: the empty message exactly when the list is empty. */
    function Render(): (v: View)
      reads this, cart, cartItems
      ensures v.EmptyMessage? <==> cartItems.elems == []
      ensures v.ListAndSummary? ==>
        v.lines == cartItems.elems && |v.lineTotals| == |v.lines| &&
        (forall i :: 0 <= i < |v.lines| ==> v.lineTotals[i] == v.lines[i].numberInCart * v.lines[i].price) &&
        v.totalCents == v.itemTotal * 100 + v.taxCents + 2500000
      ensures v.ListAndSummary? ==> v.itemTotal == TotalFee(cart.GetListCart()) && v.taxCents == tax
      ensures InSync() && v.ListAndSummary? ==>
        v.itemTotal == TotalFee(v.lines) && v.taxCents == TaxCents(v.itemTotal) &&
        v.totalCents == 102 * v.itemTotal + 2500000
    {
      if cartItems.elems == [] then EmptyMessage
      else
        var itemTotal := TotalFee(cart.GetListCart());
        GrandTotalFromItems(itemTotal);
        ListAndSummary(cartItems.elems, seq(|cartItems.elems|, i requires 0 <= i < |cartItems.elems| reads this, cartItems => LineTotal(cartItems.elems[i])),
                       itemTotal, tax, GrandTotalCents(itemTotal, tax))
    }

    /** The checkout button: the current list and the grand total shown. */
    method CheckoutClicked() returns (c: Checkout)
      requires InSync() && cartItems.elems != []
      ensures c.cartItems == cartItems.elems
      ensures c.totalCents == 102 * TotalFee(cartItems.elems) + 2500000
      ensures Render().ListAndSummary? && c.totalCents == Render().totalCents
    {
      var itemTotal := cart.GetTotalFee();
      c := Checkout(cartItems.elems, GrandTotalCents(itemTotal, tax));
      GrandTotalFromItems(itemTotal);
    }
  }
}
