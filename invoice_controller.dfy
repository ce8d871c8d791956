/** The invoice handlers. `CreateInvoice` is the cart-to-invoice commit:
    load the cart, refuse an empty one, check every line against stock and
    add up the total before any write, then store the invoice, take the sold
    units off stock and onto the sales counters, empty the cart and push the
    invoice onto the user's history. */
module InvoiceController {
  import opened Common
  import opened CartModel
  import opened ProductModel
  import opened InvoiceModel
  import opened UserModel
  import CartController

  /** `EmptyCart` and `NotEnoughStock` are the handler's 400 answers;
      `DanglingProduct` is the 500 it gives when a line's product no longer
      exists (the populated reference is null and reading its stock throws);
      `SaveRejected` is the 500 when the schema validators reject a
      product's `save()` in the stock pass. */
  datatype CommitError = EmptyCart | NotEnoughStock(name: string) | DanglingProduct | SaveRejected

  datatype InvoiceError = InvoiceNotFound | AccessDenied | InvalidStatus

  // ---------------------------------------------------------------------------
  // The validation pass

  /** The line's product exists and has at least the line's quantity in stock. */
  predicate LinePasses(line: CartItem, products: map<ProductId, Product>) {
    line.product in products && products[line.product].stock >= line.quantity
  }

  /** The answer for a line that does not pass. */
  function LineError(line: CartItem, products: map<ProductId, Product>): CommitError {
    if line.product !in products then DanglingProduct else NotEnoughStock(products[line.product].name)
  }

  predicate Listed(items: seq<CartItem>, products: map<ProductId, Product>) {
    forall k :: 0 <= k < |items| ==> items[k].product in products
  }

  /** The validation loop: the first line that fails decides the error;
      when none fails, the result is the running total of price × quantity. */
  function Validate(items: seq<CartItem>, products: map<ProductId, Product>): (r: Result<int, CommitError>)
    ensures r.Ok? <==> forall k :: 0 <= k < |items| ==> LinePasses(items[k], products)
  {
    if items == [] then Ok(0)
    else
      var n := |items| - 1;
      var line := items[n];
      match Validate(items[..n], products)
      case Err(e) => Err(e)
      case Ok(t) =>
        if !LinePasses(line, products) then Err(LineError(line, products))
        else Ok(t + products[line.product].price * line.quantity)
  }

  /** The invoice lines: each cart line with the unit price its product has now. */
  function Snapshot(items: seq<CartItem>, products: map<ProductId, Product>): (r: seq<InvoiceItem>)
    requires Listed(items, products)
    ensures |r| == |items|
    ensures forall k :: 0 <= k < |items| ==>
      r[k] == InvoiceItem(items[k].product, items[k].quantity, products[items[k].product].price)
  {
    if items == [] then []
    else
      var n := |items| - 1;
      Snapshot(items[..n], products)
        + [InvoiceItem(items[n].product, items[n].quantity, products[items[n].product].price)]
  }

  /** A successful validation adds up exactly the total of the snapshot lines. */
  lemma {:induction false} ValidateTotal(items: seq<CartItem>, products: map<ProductId, Product>)
    requires Validate(items, products).Ok?
    ensures Listed(items, products)
    ensures Validate(items, products).value == Total(Snapshot(items, products))
  {
    if items != [] {
      var n := |items| - 1;
      assert items[..n][..n] == items[..n];
      assert forall k :: 0 <= k < n ==> items[..n][k] == items[k];
      ValidateTotal(items[..n], products);
      var s := Snapshot(items, products);
      assert s[..n] == Snapshot(items[..n], products);
    }
  }

  /** A failed validation reports the first line that does not pass. */
  lemma {:induction false} ValidateFirstFailure(items: seq<CartItem>, products: map<ProductId, Product>)
    requires Validate(items, products).Err?
    ensures exists k ::
      && 0 <= k < |items|
      && (forall j :: 0 <= j < k ==> LinePasses(items[j], products))
      && !LinePasses(items[k], products)
      && Validate(items, products).error == LineError(items[k], products)
  {
    var n := |items| - 1;
    var prefix := Validate(items[..n], products);
    if prefix.Err? {
      ValidateFirstFailure(items[..n], products);
      var k :| 0 <= k < n
        && (forall j :: 0 <= j < k ==> LinePasses(items[..n][j], products))
        && !LinePasses(items[..n][k], products)
        && prefix.error == LineError(items[..n][k], products);
      assert items[..n][k] == items[k];
      assert forall j :: 0 <= j < k ==> items[..n][j] == items[j];
    } else {
      assert forall j :: 0 <= j < n ==> items[..n][j] == items[j];
    }
  }

  /** Once a prefix of the cart fails, the whole cart fails the same way. */
  lemma {:induction false} ValidateErrPersists(items: seq<CartItem>, products: map<ProductId, Product>, j: nat)
    requires j <= |items| && Validate(items[..j], products).Err?
    ensures Validate(items, products) == Validate(items[..j], products)
    decreases |items|
  {
    if j < |items| {
      var n := |items| - 1;
      assert items[..n][..j] == items[..j];
      ValidateErrPersists(items[..n], products, j);
    } else {
      assert items[..j] == items;
    }
  }

  /** The validation loop of `createInvoice` (one pass over the lines in
      order, returning at the first failing line). */
  method CheckStock(items: seq<CartItem>, products: map<ProductId, Product>) returns (r: Result<int, CommitError>)
    ensures r == Validate(items, products)
  {
    var total := 0;
    var i := 0;
    while i < |items|
      invariant 0 <= i <= |items|
      invariant Validate(items[..i], products) == Ok(total)
    {
      var line := items[i];
      assert items[..i + 1][..i] == items[..i];
      if line.product !in products {
        ValidateErrPersists(items, products, i + 1);
        return Err(DanglingProduct);
      }
      if products[line.product].stock < line.quantity {
        ValidateErrPersists(items, products, i + 1);
        return Err(NotEnoughStock(products[line.product].name));
      }
      total := total + products[line.product].price * line.quantity;
      i := i + 1;
    }
    assert items[..i] == items;
    r := Ok(total);
  }

  // ---------------------------------------------------------------------------
  // The stock pass

  /** One product after selling `q` units of it. */
  function Sold(p: Product, q: int): (r: Product)
    ensures r.stock + q == p.stock && r.salesCount == p.salesCount + q
    ensures r.name == p.name && r.price == p.price && r.category == p.category && r.description == p.description
  {
    p.(stock := p.stock - q, salesCount := p.salesCount + q)
  }

  /** The catalog after the second loop has run over the lines in order. */
  function ApplySale(products: map<ProductId, Product>, items: seq<CartItem>): (r: map<ProductId, Product>)
    requires Listed(items, products)
    ensures r.Keys == products.Keys
  {
    if items == [] then products
    else
      var n := |items| - 1;
      var before := ApplySale(products, items[..n]);
      before[items[n].product := Sold(before[items[n].product], items[n].quantity)]
  }

  /** Each product loses from stock, and gains in sales, the total quantity
      of its lines. */
  lemma {:induction false} ApplySaleAt(products: map<ProductId, Product>, items: seq<CartItem>, p: ProductId)
    requires Listed(items, products) && p in products
    ensures ApplySale(products, items)[p] == Sold(products[p], QuantityOf(items, p))
  {
    if items != [] {
      var n := |items| - 1;
      ApplySaleAt(products, items[..n], p);
    }
  }

  /** With one line per product: a product on line `k` loses exactly that
      line's quantity from stock and gains it in sales; a product on no line
      is unchanged. */
  lemma SaleEffect(products: map<ProductId, Product>, items: seq<CartItem>, p: ProductId, k: int)
    requires Listed(items, products) && UniqueProducts(items) && p in products
    requires CartController.FirstLine(items, p, k)
    ensures k == -1 ==> ApplySale(products, items)[p] == products[p]
    ensures k != -1 ==> ApplySale(products, items)[p] == Sold(products[p], items[k].quantity)
  {
    ApplySaleAt(products, items, p);
    QuantityOfUnique(items, p, k);
  }

  /** A validated cart with one line per product never takes stock below zero,
      and leaves every price untouched. */
  lemma SaleKeepsCatalogValid(products: map<ProductId, Product>, items: seq<CartItem>)
    requires AllValid(products) && UniqueProducts(items)
    requires Validate(items, products).Ok?
    ensures Listed(items, products)
    ensures AllValid(ApplySale(products, items))
  {
    var after := ApplySale(products, items);
    forall p | p in after ensures ProductValid(after[p]) {
      var k := if HasLine(items, p) then CartController.FirstIndex(items, p) else -1;
      SaleEffect(products, items, p, k);
      if k != -1 {
        assert LinePasses(items[k], products);
      }
    }
  }

  /** `save()` validates the loaded document against the schema, so the
      save of line `j` goes through exactly when its product, after the
      saves of the lines before it and this sale, still has price and stock
      at least 0. */
  predicate SaveOk(products: map<ProductId, Product>, items: seq<CartItem>, j: nat)
    requires Listed(items, products) && j < |items|
  {
    SaleStep(products, items, j);
    ProductValid(Sold(ApplySale(products, items[..j])[items[j].product], items[j].quantity))
  }

  /** How many lines, from line `j` on, the stock pass saves: it goes on
      until the first save the schema rejects. */
  function SavedFrom(products: map<ProductId, Product>, items: seq<CartItem>, j: nat): (k: nat)
    requires Listed(items, products) && j <= |items|
    ensures j <= k <= |items|
    ensures forall i :: j <= i < k ==> SaveOk(products, items, i)
    ensures k < |items| ==> !SaveOk(products, items, k)
    decreases |items| - j
  {
    if j == |items| || !SaveOk(products, items, j) then j else SavedFrom(products, items, j + 1)
  }

  /** On a valid catalog, with one line per product and a passing check,
      every save goes through. */
  lemma AllSaved(products: map<ProductId, Product>, items: seq<CartItem>)
    requires AllValid(products) && UniqueProducts(items) && Validate(items, products).Ok?
    ensures Listed(items, products)
    ensures SavedFrom(products, items, 0) == |items|
  {
    ValidateTotal(items, products);
    forall j | 0 <= j < |items| ensures SaveOk(products, items, j) {
      SaveOkOnValid(products, items, j);
    }
  }

  /** The step of `AllSaved` for line `j`. */
  lemma SaveOkOnValid(products: map<ProductId, Product>, items: seq<CartItem>, j: nat)
    requires AllValid(products) && UniqueProducts(items) && Validate(items, products).Ok?
    requires Listed(items, products) && j < |items|
    ensures SaveOk(products, items, j)
  {
    var prefix := items[..j + 1];
    assert forall k :: 0 <= k < |prefix| ==> prefix[k] == items[k];
    assert UniqueProducts(prefix);
    assert Validate(prefix, products).Ok?;
    SaleKeepsCatalogValid(products, prefix);
    SaleStep(products, items, j);
  }

  /** Why one line per product matters: two lines of one unit each for a
      product with one unit in stock both pass the check. The stock
      arithmetic alone would end at -1; the schema rejects that save, so
      the pass stops after the first line with the product at 0 and the
      handler answers 500 with the invoice already stored. */
  lemma DuplicateLinesPartialCommit()
    ensures var products := map[0 := Product("P1", None, 100, 1, 0, 0)];
      var items := [CartItem(0, 1), CartItem(0, 1)];
      && Validate(items, products).Ok?
      && Listed(items, products)
      && ApplySale(products, items)[0].stock == -1
      && SavedFrom(products, items, 0) == 1
      && ApplySale(products, items[..1])[0].stock == 0
  {
    var products := map[0 := Product("P1", None, 100, 1, 0, 0)];
    var line := CartItem(0, 1);
    var items := [line, line];
    assert items[..1] == [line] && [line][..0] == [];
    assert Validate([line], products) == Ok(100);
    assert ApplySale(products, []) == products;
    var once := ApplySale(products, [line]);
    assert once == products[0 := Sold(products[0], 1)];
    assert ApplySale(products, items) == once[0 := Sold(once[0], 1)];
    assert items[..0] == [];
    assert SaveOk(products, items, 0);
    assert !SaveOk(products, items, 1);
    assert SavedFrom(products, items, 1) == 1;
  }

  /** A price made negative by the unvalidated product update: the check
      looks only at stock and passes, and the first save is rejected. */
  lemma NegativePriceSaveRejected()
    ensures var products := map[0 := Product("P1", None, -1, 5, 0, 0)];
      var items := [CartItem(0, 1)];
      Validate(items, products) == Ok(-1) && Listed(items, products) && SavedFrom(products, items, 0) == 0
  {
    var products := map[0 := Product("P1", None, -1, 5, 0, 0)];
    var items := [CartItem(0, 1)];
    assert items[..0] == [];
    assert ApplySale(products, []) == products;
    assert !SaveOk(products, items, 0);
  }

  /** Two units of a product priced 100 with three in stock: the check
      passes with total 200, the invoice line carries price 100, the save
      goes through, and the product is left with one unit and two more
      sales. */
  lemma TwoOfThreeExample()
    ensures var products := map[0 := Product("P1", None, 100, 3, 0, 0)];
      var items := [CartItem(0, 2)];
      && Validate(items, products) == Ok(200)
      && Snapshot(items, products) == [InvoiceItem(0, 2, 100)]
      && SavedFrom(products, items, 0) == 1
      && ApplySale(products, items)[0].stock == 1
      && ApplySale(products, items)[0].salesCount == 2
  {
    var products := map[0 := Product("P1", None, 100, 3, 0, 0)];
    var items := [CartItem(0, 2)];
    assert items[..0] == [];
    assert ApplySale(products, []) == products;
    assert SaveOk(products, items, 0);
    assert SavedFrom(products, items, 1) == 1;
  }

  /** Two units of a product with one in stock: the check fails naming the
      product, so nothing is written. */
  lemma TwoOfOneExample()
    ensures Validate([CartItem(0, 2)], map[0 := Product("P1", None, 100, 1, 0, 0)]) == Err(NotEnoughStock("P1"))
  {
    assert [CartItem(0, 2)][..0] == [];
  }

  /** One turn of the second loop: the prefix grows by line `i`, whose
      product is in the catalog and is sold once more. */
  lemma SaleStep(products: map<ProductId, Product>, items: seq<CartItem>, i: nat)
    requires Listed(items, products) && i < |items|
    ensures Listed(items[..i], products) && Listed(items[..i + 1], products)
    ensures items[i].product in ApplySale(products, items[..i])
    ensures ApplySale(products, items[..i + 1]) ==
      var before := ApplySale(products, items[..i]);
      before[items[i].product := Sold(before[items[i].product], items[i].quantity)]
  {
    assert items[..i + 1][..i] == items[..i];
    assert items[..i + 1][i] == items[i];
  }

  // ---------------------------------------------------------------------------
  // Handlers

  /** The second loop of `createInvoice`: each line's product, re-read, loses
      the line's quantity from stock, gains it in sales and is saved. The
      first save the schema rejects throws, which ends the loop with the
      earlier saves kept. Returns how many lines were saved. */
  method TakeStock(products: ProductCollection, items: seq<CartItem>) returns (saved: nat)
    requires IdsBelow(products.docs, products.nextId) && Listed(items, products.docs)
    modifies products
    ensures IdsBelow(products.docs, products.nextId) && products.nextId == old(products.nextId)
    ensures saved == SavedFrom(old(products.docs), items, 0)
    ensures products.docs == ApplySale(old(products.docs), items[..saved])
    ensures AllValid(old(products.docs)) ==> AllValid(products.docs)
  {
    ghost var before := products.docs;
    var i := 0;
    while i < |items|
      invariant 0 <= i <= |items| && Listed(items[..i], before)
      invariant products.docs == ApplySale(before, items[..i])
      invariant forall j :: 0 <= j < i ==> SaveOk(before, items, j)
      invariant AllValid(before) ==> AllValid(products.docs)
      invariant products.nextId == old(products.nextId)
    {
      SaleStep(before, items, i);
      var line := items[i];
      var prod := products.docs[line.product];
      var updated := prod.(stock := prod.stock - line.quantity, salesCount := prod.salesCount + line.quantity);
      if !ProductValid(updated) {
        assert !SaveOk(before, items, i);
        return i;
      }
      products.docs := products.docs[line.product := updated];
      i := i + 1;
    }
    saved := i;
  }

  /** The writes of `createInvoice` once validation has passed with `total`:
      store the invoice, take the stock, and, when every save went through,
      empty the cart and record the invoice on the user. A rejected save
      answers 500 and leaves the invoice and the earlier saves in place. */
  method Commit(
    carts: CartCollection, products: ProductCollection, invoices: InvoiceCollection, users: UserCollection,
    user: UserId, items: seq<CartItem>, total: int)
    returns (r: Result<InvoiceId, CommitError>)
    requires carts.Valid() && IdsBelow(products.docs, products.nextId) && invoices.Valid() && users.Valid()
    requires user in carts.carts && items == carts.carts[user]
    requires Validate(items, products.docs) == Ok(total)
    modifies carts, products, invoices, users
    ensures carts.Valid() && IdsBelow(products.docs, products.nextId) && invoices.Valid() && users.Valid()
    ensures products.nextId == old(products.nextId) && (AllValid(old(products.docs)) ==> AllValid(products.docs))
    ensures Listed(items, old(products.docs))
    ensures old(invoices.nextId) !in old(invoices.docs)
    ensures invoices.docs ==
      old(invoices.docs)[old(invoices.nextId) := NewInvoice(user, Snapshot(items, old(products.docs)), total)]
    ensures products.docs == ApplySale(old(products.docs), items[..SavedFrom(old(products.docs), items, 0)])
    ensures SavedFrom(old(products.docs), items, 0) == |items| ==>
      && r == Ok(old(invoices.nextId))
      && carts.carts == old(carts.carts)[user := []]
      && users.docs == RecordInvoice(old(users.docs), user, r.value)
    ensures SavedFrom(old(products.docs), items, 0) < |items| ==>
      r == Err(SaveRejected) && carts.carts == old(carts.carts) && users.docs == old(users.docs)
  {
    ValidateTotal(items, products.docs);
    var id := invoices.nextId;
    invoices.docs := invoices.docs[id := NewInvoice(user, Snapshot(items, products.docs), total)];
    invoices.nextId := id + 1;

    var saved := TakeStock(products, items);
    if saved < |items| {
      return Err(SaveRejected);
    }

    carts.carts := carts.carts[user := []];
    RecordInvoiceKeepsUnique(users.docs, user, id);
    users.docs := RecordInvoice(users.docs, user, id);
    r := Ok(id);
  }

  /** `createInvoice`, for a caller the route admits (CLIENT_ROLE). The
      catalog may hold products the schema would reject (the unvalidated
      product update can store them); their saves fail in the stock pass. */
  method CreateInvoice(
    carts: CartCollection, products: ProductCollection, invoices: InvoiceCollection, users: UserCollection,
    caller: Caller)
    returns (r: Result<InvoiceId, CommitError>)
    requires caller.role == ClientRole
    requires carts.Valid() && IdsBelow(products.docs, products.nextId) && invoices.Valid() && users.Valid()
    modifies carts, products, invoices, users
    ensures carts.Valid() && IdsBelow(products.docs, products.nextId) && invoices.Valid() && users.Valid()
    ensures products.nextId == old(products.nextId) && (AllValid(old(products.docs)) ==> AllValid(products.docs))
    // a failed check happens before the first write
    ensures r.Err? && r.error != SaveRejected ==>
      && carts.carts == old(carts.carts) && products.docs == old(products.docs)
      && invoices.docs == old(invoices.docs) && invoices.nextId == old(invoices.nextId)
      && users.docs == old(users.docs)
    ensures var items := CartController.CartOf(old(carts.carts), caller.id);
      items == [] ==> r == Err(EmptyCart)
    ensures var items := CartController.CartOf(old(carts.carts), caller.id);
      var check := Validate(items, old(products.docs));
      items != [] && check.Err? ==> r == Err(check.error)
    ensures var items := CartController.CartOf(old(carts.carts), caller.id);
      var check := Validate(items, old(products.docs));
      items != [] && check.Ok? ==>
        && Listed(items, old(products.docs))
        && old(invoices.nextId) !in old(invoices.docs)
        && invoices.docs == old(invoices.docs)[old(invoices.nextId) :=
             NewInvoice(caller.id, Snapshot(items, old(products.docs)), check.value)]
        && var saved := SavedFrom(old(products.docs), items, 0);
        && products.docs == ApplySale(old(products.docs), items[..saved])
        && (saved == |items| ==>
              && r == Ok(old(invoices.nextId))
              && carts.carts == old(carts.carts)[caller.id := []]
              && users.docs == RecordInvoice(old(users.docs), caller.id, r.value))
        && (saved < |items| ==>
              r == Err(SaveRejected) && carts.carts == old(carts.carts) && users.docs == old(users.docs))
  {
    var items := CartController.CartOf(carts.carts, caller.id);
    if items == [] {
      return Err(EmptyCart);
    }
    var check := CheckStock(items, products.docs);
    if check.Err? {
      return Err(check.error);
    }
    r := Commit(carts, products, invoices, users, caller.id, items, check.value);
  }

  /** `getInvoiceById`: an unknown id is not found (checked first); otherwise
      the invoice is returned exactly when the caller is an admin or owns it. */
  function GetInvoiceById(docs: map<InvoiceId, Invoice>, caller: Caller, id: InvoiceId): (r: Result<Invoice, InvoiceError>)
    ensures id !in docs ==> r == Err(InvoiceNotFound)
    ensures id in docs ==> (r.Ok? <==> caller.role == AdminRole || docs[id].user == caller.id)
    ensures id in docs && r.Ok? ==> r.value == docs[id]
    ensures id in docs && r.Err? ==> r.error == AccessDenied
  {
    if id !in docs then Err(InvoiceNotFound)
    else if caller.role != AdminRole && docs[id].user != caller.id then Err(AccessDenied)
    else Ok(docs[id])
  }

  /** `updateInvoiceStatus`, for an admin caller: a status off the whitelist
      is refused before the lookup; otherwise only the status changes, from
      any prior status. Stock is not touched (no restock on cancel). */
  method UpdateInvoiceStatus(invoices: InvoiceCollection, caller: Caller, id: InvoiceId, status: string)
    returns (r: Result<Invoice, InvoiceError>)
    requires caller.role == AdminRole
    requires invoices.Valid()
    modifies invoices
    ensures invoices.Valid() && invoices.nextId == old(invoices.nextId)
    ensures ParseStatus(status).None? ==> r == Err(InvalidStatus) && invoices.docs == old(invoices.docs)
    ensures ParseStatus(status).Some? && id !in old(invoices.docs) ==>
      r == Err(InvoiceNotFound) && invoices.docs == old(invoices.docs)
    ensures ParseStatus(status).Some? && id in old(invoices.docs) ==>
      && r == Ok(old(invoices.docs[id]).(status := ParseStatus(status).value))
      && invoices.docs == old(invoices.docs)[id := r.value]
  {
    var st := ParseStatus(status);
    if st.None? {
      return Err(InvalidStatus);
    }
    if id !in invoices.docs {
      return Err(InvoiceNotFound);
    }
    var inv := invoices.docs[id].(status := st.value);
    invoices.docs := invoices.docs[id := inv];
    r := Ok(inv);
  }

  /** A status change keeps owner, lines and total, so the stored total still
      matches the lines. */
  lemma StatusChangeKeepsInvoice(inv: Invoice, s: Status)
    requires Consistent(inv)
    ensures var after := inv.(status := s);
      Consistent(after) && after.user == inv.user && after.items == inv.items && after.status == s
  {
  }
}
