/** The cart handlers: get-or-create, add (merging into an existing line),
    set quantity, remove a product, clear. Each keeps "at most one line per
    product", which the invoice commit relies on. */
module CartController {
  import opened Common
  import opened CartModel
  import opened ProductModel

  datatype CartError = ProductNotFound | CartNotFound | ItemNotFound

  /** The user's lines, or none when the user has no cart yet. */
  function CartOf(carts: map<UserId, seq<CartItem>>, user: UserId): seq<CartItem> {
    if user in carts then carts[user] else []
  }

  // ---------------------------------------------------------------------------
  // Reference definitions of the three line edits, by recursion on the lines

  /** Adding `q` of `p`: the first line for `p` grows by `q`; with no such line
      a new one goes at the end. */
  function AddLine(items: seq<CartItem>, p: ProductId, q: int): (r: seq<CartItem>)
    ensures HasLine(r, p)
    ensures |r| == if HasLine(items, p) then |items| else |items| + 1
  {
    if items == [] then
      assert [CartItem(p, q)][0].product == p;
      [CartItem(p, q)]
    else if items[0].product == p then
      var r := [items[0].(quantity := items[0].quantity + q)] + items[1..];
      assert r[0].product == p;
      r
    else
      var rest := AddLine(items[1..], p, q);
      assert forall j :: 0 <= j < |rest| ==> ([items[0]] + rest)[j + 1] == rest[j];
      [items[0]] + rest
  }

  /** Setting the quantity of `p`: its first line is dropped when `q <= 0`
      and otherwise gets quantity `q`. */
  function SetLine(items: seq<CartItem>, p: ProductId, q: int): (r: seq<CartItem>)
    ensures |r| == if HasLine(items, p) && q <= 0 then |items| - 1 else |items|
  {
    if items == [] then []
    else if items[0].product == p then
      (if q <= 0 then items[1..] else [items[0].(quantity := q)] + items[1..])
    else [items[0]] + SetLine(items[1..], p, q)
  }

  /** Every line whose product is not `p`, in their order. */
  function RemoveProduct(items: seq<CartItem>, p: ProductId): (r: seq<CartItem>)
    ensures |r| <= |items|
    ensures forall x :: x in r ==> x in items && x.product != p
  {
    if items == [] then []
    else (if items[0].product == p then [] else [items[0]]) + RemoveProduct(items[1..], p)
  }

  /** `k` is the position `findIndex` reports for `p`: -1 when there is no
      line for `p`, else the first line for `p`. */
  ghost predicate FirstLine(items: seq<CartItem>, p: ProductId, k: int) {
    && -1 <= k < |items|
    && (k == -1 <==> !HasLine(items, p))
    && (k != -1 ==> items[k].product == p && forall j :: 0 <= j < k ==> items[j].product != p)
  }

  /** The position of the first line for `p`. */
  function FirstIndex(items: seq<CartItem>, p: ProductId): (k: int)
    requires HasLine(items, p)
    ensures FirstLine(items, p, k)
  {
    if items[0].product == p then 0
    else
      assert HasLine(items[1..], p) by {
        var j :| 0 <= j < |items| && items[j].product == p;
        assert items[1..][j - 1] == items[j];
      }
      1 + FirstIndex(items[1..], p)
  }

  // ---------------------------------------------------------------------------
  // What the edits do, stated against the position of the product's line

  lemma {:induction false} AddLineAt(items: seq<CartItem>, p: ProductId, q: int, k: int)
    requires FirstLine(items, p, k)
    ensures k == -1 ==> AddLine(items, p, q) == items + [CartItem(p, q)]
    ensures k != -1 ==> AddLine(items, p, q) == items[k := CartItem(p, items[k].quantity + q)]
  {
    if items != [] && items[0].product != p {
      assert FirstLine(items[1..], p, if k == -1 then -1 else k - 1) by {
        if HasLine(items[1..], p) {
          var j :| 0 <= j < |items[1..]| && items[1..][j].product == p;
          assert items[j + 1].product == p;
        }
      }
      AddLineAt(items[1..], p, q, if k == -1 then -1 else k - 1);
    }
  }

  lemma {:induction false} SetLineAt(items: seq<CartItem>, p: ProductId, q: int, k: int)
    requires FirstLine(items, p, k)
    ensures k == -1 ==> SetLine(items, p, q) == items
    ensures k != -1 && q <= 0 ==> SetLine(items, p, q) == items[..k] + items[k + 1..]
    ensures k != -1 && q > 0 ==> SetLine(items, p, q) == items[k := CartItem(p, q)]
  {
    if k == -1 {
      SetLineAbsent(items, p, q);
    } else {
      SetLineFirst(items, p, q, k);
      if q > 0 {
        assert items[..k] + [CartItem(p, q)] + items[k + 1..] == items[k := CartItem(p, q)];
      } else {
        assert items[..k] + [] + items[k + 1..] == items[..k] + items[k + 1..];
      }
    }
  }

  /** With no line for `p`, setting its quantity changes nothing. */
  lemma {:induction false} SetLineAbsent(items: seq<CartItem>, p: ProductId, q: int)
    requires !HasLine(items, p)
    ensures SetLine(items, p, q) == items
  {
    if items != [] {
      assert items[0].product != p;
      assert !HasLine(items[1..], p) by {
        forall j | 0 <= j < |items[1..]| ensures items[1..][j].product != p {
          assert items[1..][j] == items[j + 1];
        }
      }
      SetLineAbsent(items[1..], p, q);
      assert [items[0]] + items[1..] == items;
    }
  }

  /** Setting the quantity rewrites the first line for `p`, at `k`, and nothing else. */
  lemma {:induction false} SetLineFirst(items: seq<CartItem>, p: ProductId, q: int, k: int)
    requires 0 <= k < |items| && items[k].product == p
    requires forall j :: 0 <= j < k ==> items[j].product != p
    ensures SetLine(items, p, q) == items[..k] + (if q <= 0 then [] else [CartItem(p, q)]) + items[k + 1..]
  {
    if k == 0 {
      assert items[..0] == [];
    } else {
      var rest := items[1..];
      assert rest[k - 1] == items[k];
      SetLineFirst(rest, p, q, k - 1);
      assert items[..k] == [items[0]] + rest[..k - 1];
      assert items[k + 1..] == rest[k..];
    }
  }

  /** Removing drops exactly the lines of `p`: none is left, and with at most
      one line per product the result is `items` with that one line spliced
      out (or `items` itself when `p` has no line). */
  lemma RemoveProductAt(items: seq<CartItem>, p: ProductId, k: int)
    requires UniqueProducts(items)
    requires FirstLine(items, p, k)
    ensures !HasLine(RemoveProduct(items, p), p)
    ensures k == -1 ==> RemoveProduct(items, p) == items
    ensures k != -1 ==> RemoveProduct(items, p) == items[..k] + items[k + 1..]
  {
    RemoveProductLeavesNone(items, p);
    if k == -1 {
      RemoveProductAbsent(items, p);
    } else {
      var before, after := items[..k], items[k + 1..];
      assert items == before + [items[k]] + after;
      assert !HasLine(before, p) by {
        forall j | 0 <= j < |before| ensures before[j].product != p {
          assert items[j].product != p;
        }
      }
      assert !HasLine(after, p) by {
        forall j | 0 <= j < |after| ensures after[j].product != p {
          assert items[k + 1 + j].product != items[k].product;
        }
      }
      calc {
        RemoveProduct(items, p);
        { RemoveProductConcat(before + [items[k]], after, p); }
        RemoveProduct(before + [items[k]], p) + RemoveProduct(after, p);
        { RemoveProductConcat(before, [items[k]], p); }
        RemoveProduct(before, p) + RemoveProduct([items[k]], p) + RemoveProduct(after, p);
        { RemoveProductAbsent(before, p); RemoveProductAbsent(after, p); }
        before + RemoveProduct([items[k]], p) + after;
        { assert RemoveProduct([items[k]], p) == []; }
        before + after;
      }
    }
  }

  /** With no line for `p`, removal changes nothing. */
  lemma {:induction false} RemoveProductAbsent(items: seq<CartItem>, p: ProductId)
    requires !HasLine(items, p)
    ensures RemoveProduct(items, p) == items
  {
    if items != [] {
      assert items[0].product != p;
      assert !HasLine(items[1..], p) by {
        forall j | 0 <= j < |items[1..]| ensures items[1..][j].product != p {
          assert items[1..][j] == items[j + 1];
        }
      }
      RemoveProductAbsent(items[1..], p);
      assert [items[0]] + items[1..] == items;
    }
  }

  /** Removal works line by line, so it distributes over concatenation. */
  lemma {:induction false} RemoveProductConcat(a: seq<CartItem>, b: seq<CartItem>, p: ProductId)
    ensures RemoveProduct(a + b, p) == RemoveProduct(a, p) + RemoveProduct(b, p)
  {
    if a != [] {
      assert (a + b)[0] == a[0] && (a + b)[1..] == a[1..] + b;
      RemoveProductConcat(a[1..], b, p);
    } else {
      assert a + b == b;
    }
  }

  /** After removal no line for `p` is left. */
  lemma {:induction false} RemoveProductLeavesNone(items: seq<CartItem>, p: ProductId)
    ensures !HasLine(RemoveProduct(items, p), p)
  {
    if items != [] {
      RemoveProductLeavesNone(items[1..], p);
      var head: seq<CartItem> := if items[0].product == p then [] else [items[0]];
      var tail := RemoveProduct(items[1..], p);
      assert RemoveProduct(items, p) == head + tail;
      forall j | 0 <= j < |head + tail| ensures (head + tail)[j].product != p {
        if j >= |head| {
          assert (head + tail)[j] == tail[j - |head|];
        }
      }
    }
  }

  /** Removing is idempotent: a second removal of the same product changes nothing. */
  lemma {:induction false} RemoveProductIdempotent(items: seq<CartItem>, p: ProductId)
    ensures RemoveProduct(RemoveProduct(items, p), p) == RemoveProduct(items, p)
  {
    if items != [] {
      RemoveProductIdempotent(items[1..], p);
      var r := RemoveProduct(items, p);
      if items[0].product != p {
        assert r == [items[0]] + RemoveProduct(items[1..], p);
        assert r[0] == items[0] && r[1..] == RemoveProduct(items[1..], p);
        assert RemoveProduct(r, p) == [items[0]] + RemoveProduct(r[1..], p);
      } else {
        assert r == RemoveProduct(items[1..], p);
      }
    }
  }

  /** Setting a product's quantity to zero or less is the same as removing it. */
  lemma NonPositiveSetIsRemove(items: seq<CartItem>, p: ProductId, q: int, k: int)
    requires UniqueProducts(items) && FirstLine(items, p, k) && k != -1 && q <= 0
    ensures SetLine(items, p, q) == RemoveProduct(items, p)
  {
    SetLineAt(items, p, q, k);
    RemoveProductAt(items, p, k);
  }

  // ---------------------------------------------------------------------------
  // The invariant: at most one line per product

  lemma AddLineKeepsUnique(items: seq<CartItem>, p: ProductId, q: int, k: int)
    requires UniqueProducts(items) && FirstLine(items, p, k)
    ensures UniqueProducts(AddLine(items, p, q))
  {
    AddLineAt(items, p, q, k);
    var r := AddLine(items, p, q);
    forall i, j | 0 <= i < j < |r| ensures r[i].product != r[j].product {
      if k == -1 && j == |items| {
        assert r[i] == items[i];
      }
    }
  }

  lemma SetLineKeepsUnique(items: seq<CartItem>, p: ProductId, q: int, k: int)
    requires UniqueProducts(items) && FirstLine(items, p, k)
    ensures UniqueProducts(SetLine(items, p, q))
  {
    SetLineAt(items, p, q, k);
    var r := SetLine(items, p, q);
    if k != -1 && q <= 0 {
      forall i, j | 0 <= i < j < |r| ensures r[i].product != r[j].product {
        var i' := if i < k then i else i + 1;
        var j' := if j < k then j else j + 1;
        assert r[i] == items[i'] && r[j] == items[j'];
      }
    }
  }

  lemma {:induction false} RemoveProductKeepsUnique(items: seq<CartItem>, p: ProductId)
    requires UniqueProducts(items)
    ensures UniqueProducts(RemoveProduct(items, p))
    ensures forall x :: x in RemoveProduct(items, p) ==> x in items
  {
    if items != [] {
      var rest := items[1..];
      assert UniqueProducts(rest) by {
        forall i, j | 0 <= i < j < |rest| ensures rest[i].product != rest[j].product {
          assert items[i + 1].product != items[j + 1].product;
        }
      }
      RemoveProductKeepsUnique(rest, p);
      var r := RemoveProduct(items, p);
      var tail := RemoveProduct(rest, p);
      if items[0].product != p {
        assert r == [items[0]] + tail;
        forall i, j | 0 <= i < j < |r| ensures r[i].product != r[j].product {
          if i == 0 {
            assert r[j] == tail[j - 1] && r[j] in rest;
          } else {
            assert r[i] == tail[i - 1] && r[j] == tail[j - 1];
          }
        }
      } else {
        assert r == tail;
      }
    }
  }

  // ---------------------------------------------------------------------------
  // Handlers

  /** `cart.items.findIndex(item => item.product.equals(p))`. */
  method FindLine(items: seq<CartItem>, p: ProductId) returns (k: int)
    ensures FirstLine(items, p, k)
  {
    k := 0;
    while k < |items|
      invariant 0 <= k <= |items|
      invariant forall j :: 0 <= j < k ==> items[j].product != p
    {
      if items[k].product == p {
        return;
      }
      k := k + 1;
    }
    k := -1;
  }

  /** `getCart`: the user's cart, created empty when there is none. */
  method GetCart(store: CartCollection, user: UserId) returns (items: seq<CartItem>)
    requires store.Valid()
    modifies store
    ensures store.Valid()
    ensures user in old(store.carts) ==> store.carts == old(store.carts) && items == old(store.carts[user])
    ensures user !in old(store.carts) ==> store.carts == old(store.carts)[user := []] && items == []
  {
    if user !in store.carts {
      store.carts := store.carts[user := []];
    }
    items := store.carts[user];
  }

  /** `addItemToCart`: an unknown product is refused with the cart untouched;
      otherwise a missing cart is created and `q` units of `p` are added. */
  method AddItemToCart(store: CartCollection, products: ProductCollection, user: UserId, p: ProductId, q: int)
    returns (r: Result<seq<CartItem>, CartError>)
    requires store.Valid()
    modifies store
    ensures store.Valid()
    ensures p !in products.docs ==> r == Err(ProductNotFound) && store.carts == old(store.carts)
    ensures p in products.docs ==>
      && r == Ok(AddLine(CartOf(old(store.carts), user), p, q))
      && store.carts == old(store.carts)[user := r.value]
  {
    if p !in products.docs {
      return Err(ProductNotFound);
    }
    var items := CartOf(store.carts, user);
    var k := FindLine(items, p);
    AddLineAt(items, p, q, k);
    AddLineKeepsUnique(items, p, q, k);
    if k != -1 {
      items := items[k := items[k].(quantity := items[k].quantity + q)];
    } else {
      items := items + [CartItem(p, q)];
    }
    store.carts := store.carts[user := items];
    r := Ok(items);
  }

  /** `updateItemQuantity`: with no cart, or no line for `p`, nothing
      changes; otherwise the line is removed when `q <= 0` and else gets
      quantity `q`. */
  method UpdateItemQuantity(store: CartCollection, user: UserId, p: ProductId, q: int)
    returns (r: Result<seq<CartItem>, CartError>)
    requires store.Valid()
    modifies store
    ensures store.Valid()
    ensures user !in old(store.carts) ==> r == Err(CartNotFound) && store.carts == old(store.carts)
    ensures user in old(store.carts) && !HasLine(old(store.carts[user]), p) ==>
      r == Err(ItemNotFound) && store.carts == old(store.carts)
    ensures user in old(store.carts) && HasLine(old(store.carts[user]), p) ==>
      && r == Ok(SetLine(old(store.carts[user]), p, q))
      && store.carts == old(store.carts)[user := r.value]
  {
    if user !in store.carts {
      return Err(CartNotFound);
    }
    var items := store.carts[user];
    var k := FindLine(items, p);
    if k == -1 {
      return Err(ItemNotFound);
    }
    SetLineAt(items, p, q, k);
    SetLineKeepsUnique(items, p, q, k);
    if q <= 0 {
      items := items[..k] + items[k + 1..];
    } else {
      items := items[k := items[k].(quantity := q)];
    }
    store.carts := store.carts[user := items];
    r := Ok(items);
  }

  /** `removeItemFromCart`: every line for `p` goes, the rest stay in order. */
  method RemoveItemFromCart(store: CartCollection, user: UserId, p: ProductId)
    returns (r: Result<seq<CartItem>, CartError>)
    requires store.Valid()
    modifies store
    ensures store.Valid()
    ensures user !in old(store.carts) ==> r == Err(CartNotFound) && store.carts == old(store.carts)
    ensures user in old(store.carts) ==>
      && r == Ok(RemoveProduct(old(store.carts[user]), p))
      && store.carts == old(store.carts)[user := r.value]
  {
    if user !in store.carts {
      return Err(CartNotFound);
    }
    var items := RemoveProduct(store.carts[user], p);
    RemoveProductKeepsUnique(store.carts[user], p);
    store.carts := store.carts[user := items];
    r := Ok(items);
  }

  /** `clearCart`: the cart is left with no lines. */
  method ClearCart(store: CartCollection, user: UserId) returns (r: Result<seq<CartItem>, CartError>)
    requires store.Valid()
    modifies store
    ensures store.Valid()
    ensures user !in old(store.carts) ==> r == Err(CartNotFound) && store.carts == old(store.carts)
    ensures user in old(store.carts) ==> r == Ok([]) && store.carts == old(store.carts)[user := []]
  {
    if user !in store.carts {
      return Err(CartNotFound);
    }
    store.carts := store.carts[user := []];
    r := Ok([]);
  }
}
