/** The cart as the checkout pages see it. The cart store itself (its add, remove and
    quantity rules, and how it computes its count and total) is not part of this model:
    its lines, count and total are taken as given, and clearing it is an effect. */
module CartStore {
  import opened Base

  /** A cart line as the pages read it: `image` and `thumbnail` are None when the line
      does not carry that key. Prices are whole cents. */
  datatype CartLine = CartLine(
    id: string, title: string, price: int, quantity: int,
    image: Option<string>, thumbnail: Option<string>)

  class Cart {
    var lines: seq<CartLine>
    /** `cartTotal`; None when the store supplies something that is not a number. */
    var total: Option<int>
    /** `cartCount` */
    var count: int

    constructor (lines: seq<CartLine>, total: Option<int>, count: int)
      ensures this.lines == lines && this.total == total && this.count == count
    {
      this.lines := lines;
      this.total := total;
      this.count := count;
    }

    /** `clearCart`: no lines are left, so the count and the total are zero. */
    method ClearCart()
      modifies this
      ensures lines == [] && total == Some(0) && count == 0
    {
      lines, total, count := [], Some(0), 0;
    }
  }
}
