/** The product handlers: create with duplicate-name refusal, the public
    queries (category filter, out of stock, top ten by sales), get, update and
    delete by id, and seeding of the default catalog. */
module ProductController {
  import opened Common
  import opened ProductModel
  import opened CategoryModel

  datatype ProductError = AlreadyExists | ValidationFailed | ProductNotFound

  predicate NameTaken(docs: map<ProductId, Product>, name: string) {
    exists id :: id in docs && docs[id].name == name
  }

  /** `createProduct`: a name already in use is refused; an empty name or a
      negative price or stock fails the schema validators on save; otherwise
      exactly one product is added, with `salesCount` 0. */
  method CreateProduct(store: ProductCollection, name: string, description: Option<string>,
                       price: int, stock: int, category: CategoryId)
    returns (r: Result<ProductId, ProductError>)
    requires IdsBelow(store.docs, store.nextId)
    modifies store
    ensures IdsBelow(store.docs, store.nextId)
    ensures AllValid(old(store.docs)) ==> AllValid(store.docs)
    ensures r.Err? ==> store.docs == old(store.docs) && store.nextId == old(store.nextId)
    ensures NameTaken(old(store.docs), name) ==> r == Err(AlreadyExists)
    ensures !NameTaken(old(store.docs), name) && (name == "" || price < 0 || stock < 0) ==> r == Err(ValidationFailed)
    ensures !NameTaken(old(store.docs), name) && name != "" && price >= 0 && stock >= 0 ==>
      && r == Ok(old(store.nextId)) && r.value !in old(store.docs)
      && store.docs == old(store.docs)[r.value := NewProduct(name, description, price, stock, category)]
  {
    if NameTaken(store.docs, name) {
      return Err(AlreadyExists);
    }
    var p := NewProduct(name, description, price, stock, category);
    if !ProductValid(p) {
      return Err(ValidationFailed);
    }
    var id := store.nextId;
    store.docs := store.docs[id := p];
    store.nextId := id + 1;
    r := Ok(id);
  }

  // ---------------------------------------------------------------------------
  // Queries

  /** `Product.find({ stock: { $lte: 0 } })`. */
  function OutOfStock(docs: map<ProductId, Product>): (r: map<ProductId, Product>)
    ensures r.Keys <= docs.Keys
    ensures forall id :: id in docs ==> (id in r <==> docs[id].stock <= 0)
    ensures forall id :: id in r ==> r[id] == docs[id]
  {
    map id | id in docs && docs[id].stock <= 0 :: docs[id]
  }

  /** In a valid catalog, the out-of-stock products are those with stock exactly 0. */
  lemma OutOfStockIsZeroStock(docs: map<ProductId, Product>)
    requires AllValid(docs)
    ensures forall id :: id in OutOfStock(docs) <==> id in docs && docs[id].stock == 0
  {
  }

  /** `Product.find({ category })`. */
  function ByCategory(docs: map<ProductId, Product>, c: CategoryId): (r: map<ProductId, Product>)
    ensures r.Keys <= docs.Keys
    ensures forall id :: id in docs ==> (id in r <==> docs[id].category == c)
    ensures forall id :: id in r ==> r[id] == docs[id]
  {
    map id | id in docs && docs[id].category == c :: docs[id]
  }

  /** `getProducts` without a name search: every product, or those of one category. */
  function GetProducts(docs: map<ProductId, Product>, category: Option<CategoryId>): (r: map<ProductId, Product>)
    ensures category.None? ==> r == docs
    ensures category.Some? ==> r == ByCategory(docs, category.value)
  {
    if category.Some? then ByCategory(docs, category.value) else docs
  }

  /** The products of different categories never overlap, and each product
      is in the listing of its own category. */
  lemma CategoriesPartition(docs: map<ProductId, Product>, c1: CategoryId, c2: CategoryId)
    requires c1 != c2
    ensures ByCategory(docs, c1).Keys !! ByCategory(docs, c2).Keys
    ensures forall id :: id in docs ==> id in ByCategory(docs, docs[id].category)
  {
  }

  /** The collection in natural (insertion, i.e. id) order, ids below `n`. */
  function Listing(docs: map<ProductId, Product>, n: nat): (r: seq<(ProductId, Product)>)
    ensures forall k :: 0 <= k < |r| ==> r[k].0 < n && r[k].0 in docs && r[k].1 == docs[r[k].0]
    ensures forall id :: id in docs && id < n ==> (id, docs[id]) in r
    ensures forall i, j :: 0 <= i < j < |r| ==> r[i].0 < r[j].0
  {
    if n == 0 then []
    else
      var prefix := Listing(docs, n - 1);
      if n - 1 in docs then
        var r := prefix + [(n - 1, docs[n - 1])];
        assert forall k :: 0 <= k < |prefix| ==> r[k] == prefix[k];
        assert r[|prefix|] == (n - 1, docs[n - 1]);
        r
      else prefix
  }

  ghost predicate SortedBySales(s: seq<(ProductId, Product)>) {
    forall i, j :: 0 <= i < j < |s| ==> s[i].1.salesCount >= s[j].1.salesCount
  }

  /** Insertion into a list sorted by non-increasing `salesCount`. */
  function Insert(e: (ProductId, Product), s: seq<(ProductId, Product)>): (r: seq<(ProductId, Product)>)
    requires SortedBySales(s)
    ensures SortedBySales(r)
    ensures |r| == |s| + 1
    ensures r[0] == e || (s != [] && r[0] == s[0])
  {
    if s == [] then [e]
    else if e.1.salesCount >= s[0].1.salesCount then
      ConsSorted(e, s);
      [e] + s
    else
      SortedTail(s);
      var rest := Insert(e, s[1..]);
      assert s[1..] != [] ==> s[0].1.salesCount >= s[1].1.salesCount;
      ConsSorted(s[0], rest);
      [s[0]] + rest
  }

  /** Insertion adds exactly the one entry. */
  lemma {:induction false} InsertPermutes(e: (ProductId, Product), s: seq<(ProductId, Product)>)
    requires SortedBySales(s)
    ensures multiset(Insert(e, s)) == multiset(s) + multiset{e}
  {
    if s != [] && e.1.salesCount < s[0].1.salesCount {
      SortedTail(s);
      InsertPermutes(e, s[1..]);
      assert s == [s[0]] + s[1..];
      assert Insert(e, s) == [s[0]] + Insert(e, s[1..]);
    }
  }

  /** Dropping the head of a sorted list leaves it sorted. */
  lemma SortedTail(s: seq<(ProductId, Product)>)
    requires SortedBySales(s) && s != []
    ensures SortedBySales(s[1..])
  {
    var tail := s[1..];
    forall i, j | 0 <= i < j < |tail| ensures tail[i].1.salesCount >= tail[j].1.salesCount {
      assert tail[i] == s[i + 1] && tail[j] == s[j + 1];
    }
  }

  /** Putting in front an entry that sold at least as much as the head keeps
      the list sorted. */
  lemma ConsSorted(x: (ProductId, Product), t: seq<(ProductId, Product)>)
    requires SortedBySales(t)
    requires t != [] ==> x.1.salesCount >= t[0].1.salesCount
    ensures SortedBySales([x] + t)
  {
    var l := [x] + t;
    forall i, j | 0 <= i < j < |l| ensures l[i].1.salesCount >= l[j].1.salesCount {
      if i == 0 {
        assert l[j] == t[j - 1];
        if j > 1 { assert t[0].1.salesCount >= t[j - 1].1.salesCount; }
      } else {
        assert l[i] == t[i - 1] && l[j] == t[j - 1];
      }
    }
  }

  /** `.sort({ salesCount: -1 })`. */
  function SortBySales(s: seq<(ProductId, Product)>): (r: seq<(ProductId, Product)>)
    ensures SortedBySales(r)
    ensures multiset(r) == multiset(s)
  {
    if s == [] then []
    else
      var rest := SortBySales(s[1..]);
      InsertPermutes(s[0], rest);
      assert s == [s[0]] + s[1..];
      Insert(s[0], rest)
  }

  /** The catalog ordered by sales, best first. */
  function Ranked(docs: map<ProductId, Product>, n: nat): seq<(ProductId, Product)> {
    SortBySales(Listing(docs, n))
  }

  /** `getTopSellingProducts`: sort by sales, keep the first ten. */
  function TopSelling(docs: map<ProductId, Product>, n: nat): (r: seq<(ProductId, Product)>)
    ensures |r| <= 10
    ensures |r| == if |Ranked(docs, n)| <= 10 then |Ranked(docs, n)| else 10
    ensures r == Ranked(docs, n)[..|r|]
  {
    var ranked := Ranked(docs, n);
    if |ranked| <= 10 then ranked else ranked[..10]
  }

  /** Ranking keeps the listing's length and its members. */
  lemma RankedMembers(docs: map<ProductId, Product>, n: nat)
    ensures |Ranked(docs, n)| == |Listing(docs, n)|
    ensures forall id :: id in docs && id < n ==> (id, docs[id]) in Ranked(docs, n)
  {
    SameElements(Listing(docs, n), Ranked(docs, n));
  }

  /** Every ranked entry is a product of the catalog, as stored. */
  lemma RankedEntries(docs: map<ProductId, Product>, n: nat)
    ensures forall k :: 0 <= k < |Ranked(docs, n)| ==>
      Ranked(docs, n)[k].0 in docs && Ranked(docs, n)[k].0 < n && Ranked(docs, n)[k].1 == docs[Ranked(docs, n)[k].0]
  {
    var l := Listing(docs, n);
    var s := Ranked(docs, n);
    SameElements(l, s);
    forall k | 0 <= k < |s| ensures s[k].0 in docs && s[k].0 < n && s[k].1 == docs[s[k].0] {
      assert s[k] in l;
      var m :| 0 <= m < |l| && l[m] == s[k];
    }
  }

  /** No product is ranked twice. */
  lemma RankedDistinct(docs: map<ProductId, Product>, n: nat)
    ensures forall i, j :: 0 <= i < j < |Ranked(docs, n)| ==> Ranked(docs, n)[i].0 != Ranked(docs, n)[j].0
  {
    var s := Ranked(docs, n);
    RankedEntries(docs, n);
    PermutedDistinct(Listing(docs, n), s);
    forall i, j | 0 <= i < j < |s| ensures s[i].0 != s[j].0 {
      assert s[i] != s[j];
    }
  }

  /** A permutation of a list with strictly increasing ids repeats no id. */
  lemma PermutedDistinct(l: seq<(ProductId, Product)>, s: seq<(ProductId, Product)>)
    requires multiset(s) == multiset(l)
    requires forall i, j :: 0 <= i < j < |l| ==> l[i].0 < l[j].0
    ensures forall i, j :: 0 <= i < j < |s| ==> s[i] != s[j]
  {
    forall i, j | 0 <= i < j < |s| ensures s[i] != s[j] {
      if s[i] == s[j] {
        CountTwice(s, i, j);
        UniqueIdsOnce(l, s[i]);
        assert false;
      }
    }
  }

  /** Two lists with the same multiset have the same length and members. */
  lemma SameElements(l: seq<(ProductId, Product)>, s: seq<(ProductId, Product)>)
    requires multiset(s) == multiset(l)
    ensures |s| == |l|
    ensures forall x :: x in s <==> x in l
  {
    assert |multiset(s)| == |multiset(l)|;
    forall x ensures x in s <==> x in l {
      assert x in s <==> x in multiset(s);
      assert x in l <==> x in multiset(l);
    }
  }

  /** An element at two positions occurs at least twice. */
  lemma CountTwice(s: seq<(ProductId, Product)>, i: int, j: int)
    requires 0 <= i < j < |s| && s[i] == s[j]
    ensures multiset(s)[s[i]] >= 2
  {
    assert s == s[..j] + s[j..];
    assert s[i] in s[..j];
    assert s[j] == s[j..][0];
  }

  /** The top-selling list holds as many products as the catalog has, up to ten. */
  lemma TopSellingSize(docs: map<ProductId, Product>, n: nat)
    ensures |TopSelling(docs, n)| == (if |Listing(docs, n)| <= 10 then |Listing(docs, n)| else 10)
  {
    RankedMembers(docs, n);
  }

  /** Each entry of the top-selling list is a product of the catalog as
      stored, and none appears twice. */
  lemma TopSellingEntries(docs: map<ProductId, Product>, n: nat)
    ensures forall k :: 0 <= k < |TopSelling(docs, n)| ==>
      var e := TopSelling(docs, n)[k]; e.0 in docs && e.0 < n && e.1 == docs[e.0]
    ensures forall i, j :: 0 <= i < j < |TopSelling(docs, n)| ==> TopSelling(docs, n)[i].0 != TopSelling(docs, n)[j].0
  {
    RankedEntries(docs, n);
    RankedDistinct(docs, n);
    PrefixEntries(docs, n, Ranked(docs, n), TopSelling(docs, n));
  }

  lemma PrefixEntries(docs: map<ProductId, Product>, n: nat, s: seq<(ProductId, Product)>, r: seq<(ProductId, Product)>)
    requires r == if |s| <= 10 then s else s[..10]
    requires forall k :: 0 <= k < |s| ==> s[k].0 in docs && s[k].0 < n && s[k].1 == docs[s[k].0]
    requires forall i, j :: 0 <= i < j < |s| ==> s[i].0 != s[j].0
    ensures forall k :: 0 <= k < |r| ==> r[k].0 in docs && r[k].0 < n && r[k].1 == docs[r[k].0]
    ensures forall i, j :: 0 <= i < j < |r| ==> r[i].0 != r[j].0
  {
  }

  /** The top-selling list is in non-increasing order of sales, and no
      product left out of it sold more than one that was kept. */
  lemma TopSellingRanks(docs: map<ProductId, Product>, n: nat)
    ensures SortedBySales(TopSelling(docs, n))
    ensures forall id, k :: id in docs && id < n && (id, docs[id]) !in TopSelling(docs, n) && 0 <= k < |TopSelling(docs, n)| ==>
      docs[id].salesCount <= TopSelling(docs, n)[k].1.salesCount
  {
    var s := Ranked(docs, n);
    var r := TopSelling(docs, n);
    RankedMembers(docs, n);
    PrefixRanks(s, r);
    forall id, k | id in docs && id < n && (id, docs[id]) !in r && 0 <= k < |r|
      ensures docs[id].salesCount <= r[k].1.salesCount
    {
      var m :| 0 <= m < |s| && s[m] == (id, docs[id]);
      assert m >= |r|;
    }
  }

  lemma PrefixRanks(s: seq<(ProductId, Product)>, r: seq<(ProductId, Product)>)
    requires SortedBySales(s)
    requires r == if |s| <= 10 then s else s[..10]
    ensures SortedBySales(r) && |r| <= |s|
    ensures forall k :: 0 <= k < |r| ==> r[k] == s[k]
    ensures forall m, k :: |r| <= m < |s| && 0 <= k < |r| ==> s[m].1.salesCount <= r[k].1.salesCount
  {
  }

  /** An entry of a list with strictly increasing ids occurs once. */
  lemma {:induction false} UniqueIdsOnce(l: seq<(ProductId, Product)>, e: (ProductId, Product))
    requires forall i, j :: 0 <= i < j < |l| ==> l[i].0 < l[j].0
    ensures multiset(l)[e] <= 1
  {
    if l != [] {
      var last := l[|l| - 1];
      var init := l[..|l| - 1];
      assert l == init + [last];
      UniqueIdsOnce(init, e);
      if e == last {
        forall i | 0 <= i < |init| ensures init[i] != e {
          assert l[i].0 < l[|l| - 1].0;
        }
        assert e !in init;
      }
    }
  }

  // ---------------------------------------------------------------------------
  // By id

  /** `getProductById`. */
  function GetProductById(docs: map<ProductId, Product>, id: ProductId): (r: Result<Product, ProductError>)
    ensures id !in docs <==> r == Err(ProductNotFound)
    ensures id in docs ==> r == Ok(docs[id])
  {
    if id in docs then Ok(docs[id]) else Err(ProductNotFound)
  }

  /** The fields of an update request; `None` is a field the request leaves out. */
  datatype ProductUpdate = ProductUpdate(
    name: Option<string>,
    description: Option<string>,
    price: Option<int>,
    stock: Option<int>,
    category: Option<CategoryId>)

  /** The supplied fields replace the stored ones; the rest and `salesCount` stay. */
  function ApplyUpdate(p: Product, u: ProductUpdate): (r: Product)
    ensures r.salesCount == p.salesCount
    ensures r.name == u.name.GetOr(p.name) && r.price == u.price.GetOr(p.price)
    ensures r.stock == u.stock.GetOr(p.stock) && r.category == u.category.GetOr(p.category)
    ensures r.description == (if u.description.Some? then u.description else p.description)
  {
    Product(u.name.GetOr(p.name),
            if u.description.Some? then u.description else p.description,
            u.price.GetOr(p.price),
            u.stock.GetOr(p.stock),
            u.category.GetOr(p.category),
            p.salesCount)
  }

  /** The supplied fields pass the schema validators: a supplied name is
      not empty, a supplied price or stock is not negative. */
  predicate UpdateValid(u: ProductUpdate) {
    && (u.name.Some? ==> u.name.value != "")
    && (u.price.Some? ==> u.price.value >= 0) && (u.stock.Some? ==> u.stock.value >= 0)
  }

  /** `updateProduct` as written: `findByIdAndUpdate` does not run the
      schema validators, so any supplied values are stored. */
  function UpdateProductAsWritten(docs: map<ProductId, Product>, id: ProductId, u: ProductUpdate)
    : (r: Result<map<ProductId, Product>, ProductError>)
    ensures id !in docs ==> r == Err(ProductNotFound)
    ensures id in docs ==> r == Ok(docs[id := ApplyUpdate(docs[id], u)])
  {
    if id !in docs then Err(ProductNotFound) else Ok(docs[id := ApplyUpdate(docs[id], u)])
  }

  /** As written, an update request takes a product's stock below zero. */
  lemma UnvalidatedUpdateBreaksStock()
    ensures var docs := map[0 := Product("P1", None, 100, 3, 0, 0)];
      var r := UpdateProductAsWritten(docs, 0, ProductUpdate(None, None, None, Some(-5), None));
      AllValid(docs) && r.Ok? && !AllValid(r.value)
  {
    var docs := map[0 := Product("P1", None, 100, 3, 0, 0)];
    var r := UpdateProductAsWritten(docs, 0, ProductUpdate(None, None, None, Some(-5), None));
    assert r.value[0].stock == -5;
  }

  /** `updateProduct` with the schema validators applied: an empty name or
      a negative price or stock is refused (before the lookup, as update
      validators run), an unknown id is not found, and otherwise the supplied
      fields replace the stored ones. A valid catalog stays valid. */
  method UpdateProduct(store: ProductCollection, id: ProductId, u: ProductUpdate)
    returns (r: Result<Product, ProductError>)
    requires IdsBelow(store.docs, store.nextId)
    modifies store
    ensures IdsBelow(store.docs, store.nextId) && store.nextId == old(store.nextId)
    ensures AllValid(old(store.docs)) ==> AllValid(store.docs)
    ensures !UpdateValid(u) ==> r == Err(ValidationFailed) && store.docs == old(store.docs)
    ensures UpdateValid(u) && id !in old(store.docs) ==> r == Err(ProductNotFound) && store.docs == old(store.docs)
    ensures UpdateValid(u) && id in old(store.docs) ==>
      && r == Ok(ApplyUpdate(old(store.docs[id]), u))
      && UpdateProductAsWritten(old(store.docs), id, u) == Ok(store.docs)
  {
    if !UpdateValid(u) {
      return Err(ValidationFailed);
    }
    if id !in store.docs {
      return Err(ProductNotFound);
    }
    var p := ApplyUpdate(store.docs[id], u);
    store.docs := store.docs[id := p];
    r := Ok(p);
  }

  /** `deleteProduct`: removes that one product, or reports it not found. */
  method DeleteProduct(store: ProductCollection, id: ProductId) returns (r: Result<(), ProductError>)
    requires IdsBelow(store.docs, store.nextId)
    modifies store
    ensures IdsBelow(store.docs, store.nextId) && store.nextId == old(store.nextId)
    ensures AllValid(old(store.docs)) ==> AllValid(store.docs)
    ensures id !in old(store.docs) ==> r == Err(ProductNotFound) && store.docs == old(store.docs)
    ensures id in old(store.docs) ==> r == Ok(()) && store.docs == old(store.docs) - {id}
  {
    if id !in store.docs {
      return Err(ProductNotFound);
    }
    store.docs := store.docs - {id};
    r := Ok(());
  }

  // ---------------------------------------------------------------------------
  // Seeding

  /** The `k`-th of the eight default electronics products (prices in cents). */
  function DefaultProduct(k: nat, c: CategoryId): (p: Product)
    requires k < 8
    ensures ProductValid(p) && p.category == c
  {
    var (price, stock, sales) := SeedFigures(k);
    Product(SeedName(k), Some(SeedDescription(k)), price, stock, c, sales)
  }

  /** Price in cents, stock and sales count of the `k`-th default product. */
  function SeedFigures(k: nat): (nat, nat, nat)
    requires k < 8
  {
    match k
    case 0 => (79999, 10, 100)
    case 1 => (149999, 0, 80)
    case 2 => (19999, 20, 60)
    case 3 => (12999, 15, 90)
    case 4 => (49999, 7, 50)
    case 5 => (8999, 30, 70)
    case 6 => (15999, 0, 40)
    case _ => (3999, 50, 55)
  }

  function SeedName(k: nat): string
    requires k < 8
  {
    match k
    case 0 => "Smartphone 5G"
    case 1 => "Laptop Gamer RTX 4070"
    case 2 => "Auriculares Inalámbricos Noise Cancelling"
    case 3 => "Smartwatch Deportivo"
    case 4 => "Monitor 4K 32 pulgadas"
    case 5 => "Teclado Mecánico RGB"
    case 6 => "Cámara de Seguridad Inteligente"
    case _ => "Cargador Inalámbrico Rápido"
  }

  function SeedDescription(k: nat): string
    requires k < 8
  {
    match k
    case 0 => "Teléfono inteligente con conectividad 5G y cámara de 108MP."
    case 1 => "Laptop de alto rendimiento con tarjeta gráfica RTX 4070."
    case 2 => "Auriculares con cancelación de ruido y sonido envolvente."
    case 3 => "Reloj inteligente con monitoreo de salud y GPS integrado."
    case 4 => "Monitor UHD 4K con panel IPS y 144Hz de tasa de refresco."
    case 5 => "Teclado mecánico con iluminación RGB y switches intercambiables."
    case 6 => "Cámara de seguridad con detección de movimiento y visión nocturna."
    case _ => "Base de carga inalámbrica con tecnología Qi y carga rápida."
  }

  /** The first `k` default products, in the order they are inserted. */
  function DefaultProducts(k: nat, c: CategoryId): (r: seq<Product>)
    requires k <= 8
    ensures |r| == k
    ensures forall i :: 0 <= i < |r| ==> ProductValid(r[i]) && r[i].category == c
  {
    if k == 0 then [] else DefaultProducts(k - 1, c) + [DefaultProduct(k - 1, c)]
  }

  /** `insertMany` into a collection: consecutive fresh ids from `start`. */
  function Numbered(start: nat, ps: seq<Product>): (r: map<ProductId, Product>)
    ensures forall id :: id in r <==> start <= id < start + |ps|
    ensures forall id :: id in r ==> r[id] == ps[id - start]
    ensures |r| == |ps|
  {
    if ps == [] then map[]
    else
      var last := start + |ps| - 1;
      var r := Numbered(start, ps[..|ps| - 1]);
      assert last !in r;
      r[last := ps[|ps| - 1]]
  }

  /** The catalog after `agregarProductosPorDefecto`, given the result of
      looking up the "Electrónica" category. */
  function SeedProductsResult(docs: map<ProductId, Product>, next: nat, electronics: Option<CategoryId>)
    : (r: map<ProductId, Product>)
    ensures |docs| != 0 || electronics.None? ==> r == docs
    ensures |docs| == 0 && electronics.Some? ==>
      && (forall id :: id in r <==> next <= id < next + 8)
      && AllValid(r)
      && (forall id :: id in r ==> r[id].category == electronics.value)
  {
    if |docs| != 0 || electronics.None? then docs else Numbered(next, DefaultProducts(8, electronics.value))
  }

  /** Seeding twice adds nothing the second time. */
  lemma SeedProductsIdempotent(docs: map<ProductId, Product>, next: nat, next': nat, electronics: Option<CategoryId>)
    ensures var once := SeedProductsResult(docs, next, electronics);
      SeedProductsResult(once, next', electronics) == once
  {
    var once := SeedProductsResult(docs, next, electronics);
    if |docs| == 0 && electronics.Some? {
      assert |once| == |DefaultProducts(8, electronics.value)|;
    }
  }

  datatype SeedOutcome = Seeded | SkippedNotEmpty | SkippedNoCategory

  /** `agregarProductosPorDefecto`: only an empty catalog is seeded, and only
      when the "Electrónica" category exists; its eight products go in. */
  method SeedProducts(store: ProductCollection, categories: CategoryCollection) returns (r: SeedOutcome)
    requires IdsBelow(store.docs, store.nextId) && categories.Valid()
    modifies store
    ensures IdsBelow(store.docs, store.nextId)
    ensures AllValid(old(store.docs)) ==> AllValid(store.docs)
    ensures var electronics := FindByName(categories.docs, ElectronicsName, categories.nextId);
      store.docs == SeedProductsResult(old(store.docs), old(store.nextId), electronics)
    ensures |old(store.docs)| != 0 ==> r == SkippedNotEmpty && store.docs == old(store.docs)
    ensures |old(store.docs)| == 0 && !HasName(categories.docs, ElectronicsName) ==>
      r == SkippedNoCategory && store.docs == old(store.docs)
    ensures |old(store.docs)| == 0 && HasName(categories.docs, ElectronicsName) ==> r == Seeded && |store.docs| == 8
  {
    FindByNameComplete(categories.docs, ElectronicsName, categories.nextId);
    if |store.docs| != 0 {
      return SkippedNotEmpty;
    }
    var electronics := FindByName(categories.docs, ElectronicsName, categories.nextId);
    if electronics.None? {
      return SkippedNoCategory;
    }
    var start := store.nextId;
    var seeded := Numbered(start, DefaultProducts(8, electronics.value));
    store.docs := seeded;
    store.nextId := start + 8;
    r := Seeded;
  }
}
