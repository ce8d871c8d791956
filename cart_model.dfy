/** The `Cart` record and its collection. The schema file is not part of this
    model; a cart is what the controllers use: one per user, an ordered list
    of (product, quantity) lines and no prices. */
module CartModel {
  import opened Common

  /** A cart line. The quantity is whatever the client sent: nothing checks
      its sign, so it is an `int`. */
  datatype CartItem = CartItem(product: ProductId, quantity: int)

  /** At most one line per product. */
  predicate UniqueProducts(items: seq<CartItem>) {
    forall i, j :: 0 <= i < j < |items| ==> items[i].product != items[j].product
  }

  predicate HasLine(items: seq<CartItem>, p: ProductId) {
    exists k :: 0 <= k < |items| && items[k].product == p
  }

  /** The total quantity of `p` over all lines of the cart. */
  function QuantityOf(items: seq<CartItem>, p: ProductId): int {
    if items == [] then 0
    else QuantityOf(items[..|items| - 1], p)
         + (if items[|items| - 1].product == p then items[|items| - 1].quantity else 0)
  }

  /** With one line per product, the total quantity of `p` is the quantity on
      its line, and 0 when it has none. */
  lemma {:induction false} QuantityOfUnique(items: seq<CartItem>, p: ProductId, k: int)
    requires UniqueProducts(items)
    requires k == -1 ==> !HasLine(items, p)
    requires k != -1 ==> 0 <= k < |items| && items[k].product == p
    ensures QuantityOf(items, p) == if k == -1 then 0 else items[k].quantity
  {
    if items != [] {
      var n := |items| - 1;
      var init := items[..n];
      if k == n {
        assert !HasLine(init, p) by {
          forall j | 0 <= j < |init| ensures init[j].product != p {
            assert items[j].product != items[n].product;
          }
        }
        QuantityOfUnique(init, p, -1);
      } else {
        assert k != -1 ==> init[k] == items[k];
        if k != -1 {
          assert items[n].product != p by { assert items[k].product != items[n].product; }
        } else {
          assert items[n].product != p;
        }
        QuantityOfUnique(init, p, k);
      }
    }
  }

  /** The `carts` collection: at most one cart per user. */
  class CartCollection {
    var carts: map<UserId, seq<CartItem>>

    ghost predicate Valid()
      reads this
    {
      forall u :: u in carts ==> UniqueProducts(carts[u])
    }

    constructor ()
      ensures Valid() && carts == map[]
    {
      carts := map[];
    }
  }
}
