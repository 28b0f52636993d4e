/** The quantity stepper of src/pages/ProductDetail.jsx and the pair it hands to the cart.
    The quantity starts at 1; "-" lowers it but never under 1; "+" raises it by one with
    no check of its own: only the disabled state of the buttons keeps it within stock. */
module ProductDetail {
  import ProductListing

  type Product = ProductListing.Product

  datatype Button = Minus | Plus

  /** `disabled={quantity <= 1}` and `disabled={quantity >= product.stock}`, inverted. */
  predicate Enabled(button: Button, quantity: int, stock: int)
  {
    match button
    case Minus => quantity > 1
    case Plus => quantity < stock
  }

  /** The quantity after the clicks, where a click on a disabled button does nothing. */
  function AfterClicks(quantity: int, stock: int, clicks: seq<Button>): int
    decreases clicks
  {
    if clicks == [] then quantity
    else
      var q := if !Enabled(clicks[0], quantity, stock) then quantity
               else if clicks[0] == Minus then (if quantity - 1 > 1 then quantity - 1 else 1)
               else quantity + 1;
      AfterClicks(q, stock, clicks[1..])
  }

  /** Whatever the clicks, the quantity stays at least 1 and, once it is within stock (or
      1 when the product is out of stock), it stays there. */
  lemma {:induction false} ClicksKeepQuantityInRange(quantity: int, stock: int, clicks: seq<Button>)
    requires 1 <= quantity && (quantity <= stock || quantity == 1)
    ensures 1 <= AfterClicks(quantity, stock, clicks)
    ensures AfterClicks(quantity, stock, clicks) <= stock || AfterClicks(quantity, stock, clicks) == 1
    decreases clicks
  {
    if clicks != [] {
      var q := if !Enabled(clicks[0], quantity, stock) then quantity
               else if clicks[0] == Minus then (if quantity - 1 > 1 then quantity - 1 else 1)
               else quantity + 1;
      ClicksKeepQuantityInRange(q, stock, clicks[1..]);
    }
  }

  /** `n` clicks on an enabled "+" add exactly `n`: the button's state is the only bound. */
  lemma {:induction false} PlusClicksAdd(quantity: int, stock: int, n: nat)
    requires quantity + n <= stock
    ensures AfterClicks(quantity, stock, seq(n, _ => Plus)) == quantity + n
    decreases n
  {
    if n > 0 {
      assert seq(n, _ => Plus)[1..] == seq(n - 1, _ => Plus);
      PlusClicksAdd(quantity + 1, stock, n - 1);
    }
  }

  class Stepper {
    const product: Product
    var quantity: int

    /** `useState(1)` once the product is shown. */
    constructor (product: Product)
      ensures this.product == product && quantity == 1
    {
      this.product := product;
      quantity := 1;
    }

    /** The "-" handler: `Math.max(1, prev - 1)`. */
    method Decrement()
      modifies this
      ensures quantity == if old(quantity) > 1 then old(quantity) - 1 else 1
      ensures quantity >= 1
    {
      quantity := if quantity - 1 > 1 then quantity - 1 else 1;
    }

    /** The "+" handler: `prev + 1`, with no check against the stock. */
    method Increment()
      modifies this
      ensures quantity == old(quantity) + 1
    {
      quantity := quantity + 1;
    }

    function MinusEnabled(): (enabled: bool)
      reads this
      ensures enabled <==> Enabled(Minus, quantity, product.stock)
    {
      quantity > 1
    }

    function PlusEnabled(): (enabled: bool)
      reads this
      ensures enabled <==> Enabled(Plus, quantity, product.stock)
    {
      quantity < product.stock
    }

    /** A click: the handler runs only when its button is enabled. */
    method Click(button: Button)
      modifies this
      ensures quantity == AfterClicks(old(quantity), product.stock, [button])
    {
      if button == Minus && MinusEnabled() {
        Decrement();
      } else if button == Plus && PlusEnabled() {
        Increment();
      }
    }

    /** `handleAddToCart`: the product shown and the current quantity go to `addToCart`. */
    method HandleAddToCart() returns (item: Product, count: int)
      ensures item == product && count == quantity
    {
      item, count := product, quantity;
    }
  }
}
