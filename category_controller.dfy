/** The category handlers: create with duplicate-name refusal, update and
    delete by id (deletion moves the category's products to "Default"), and
    seeding of the two default categories. */
module CategoryController {
  import opened Common
  import opened ProductModel
  import opened CategoryModel
  import ProductController

  datatype CategoryError = CategoryExists | CategoryNotFound | DefaultMissing

  /** No two categories share a name. */
  ghost predicate DistinctNames(docs: map<CategoryId, Category>) {
    forall a, b :: a in docs && b in docs && a != b ==> docs[a].name != docs[b].name
  }

  /** `createCategory`: a name already in use is refused; otherwise exactly
      one category is added, and distinct names stay distinct. */
  method CreateCategory(store: CategoryCollection, name: string, description: Option<string>)
    returns (r: Result<CategoryId, CategoryError>)
    requires store.Valid()
    modifies store
    ensures store.Valid()
    ensures DistinctNames(old(store.docs)) ==> DistinctNames(store.docs)
    ensures HasName(old(store.docs), name) ==>
      r == Err(CategoryExists) && store.docs == old(store.docs) && store.nextId == old(store.nextId)
    ensures !HasName(old(store.docs), name) ==>
      && r == Ok(old(store.nextId)) && r.value !in old(store.docs)
      && store.docs == old(store.docs)[r.value := Category(name, description)]
  {
    FindByNameComplete(store.docs, name, store.nextId);
    if FindByName(store.docs, name, store.nextId).Some? {
      return Err(CategoryExists);
    }
    var id := store.nextId;
    store.docs := store.docs[id := Category(name, description)];
    store.nextId := id + 1;
    r := Ok(id);
  }

  /** `findByIdAndUpdate(id, { name, description })`: a field the request
      leaves out keeps its value. */
  function ApplyCategoryUpdate(c: Category, name: Option<string>, description: Option<string>): (r: Category)
    ensures name.Some? ==> r.name == name.value
    ensures name.None? ==> r.name == c.name
    ensures description.Some? ==> r.description == description
    ensures description.None? ==> r.description == c.description
  {
    Category(name.GetOr(c.name), if description.Some? then description else c.description)
  }

  /** `updateCategory`: an unknown id is not found; otherwise the supplied
      fields replace the stored ones. The new name is not checked against
      the other categories. */
  method UpdateCategory(store: CategoryCollection, id: CategoryId, name: Option<string>, description: Option<string>)
    returns (r: Result<Category, CategoryError>)
    requires store.Valid()
    modifies store
    ensures store.Valid() && store.nextId == old(store.nextId)
    ensures id !in old(store.docs) ==> r == Err(CategoryNotFound) && store.docs == old(store.docs)
    ensures id in old(store.docs) ==>
      && r == Ok(ApplyCategoryUpdate(old(store.docs[id]), name, description))
      && store.docs == old(store.docs)[id := r.value]
  {
    if id !in store.docs {
      return Err(CategoryNotFound);
    }
    var c := ApplyCategoryUpdate(store.docs[id], name, description);
    store.docs := store.docs[id := c];
    r := Ok(c);
  }

  /** A rename can give two categories the same name. */
  lemma RenameCanDuplicate()
    ensures var docs := map[0 := Category(DefaultName, None), 1 := Category(ElectronicsName, None)];
      DistinctNames(docs) && !DistinctNames(docs[1 := ApplyCategoryUpdate(docs[1], Some(DefaultName), None)])
  {
    var docs := map[0 := Category(DefaultName, None), 1 := Category(ElectronicsName, None)];
    assert docs[0].name != docs[1].name;
    var d := docs[1 := ApplyCategoryUpdate(docs[1], Some(DefaultName), None)];
    assert d[0].name == d[1].name;
  }

  /** `Product.updateMany({ category: from }, { category: to })`. */
  function Reassign(docs: map<ProductId, Product>, from: CategoryId, to: CategoryId): (r: map<ProductId, Product>)
    ensures r.Keys == docs.Keys
    ensures forall id :: id in docs ==>
      && r[id].category == (if docs[id].category == from then to else docs[id].category)
      && r[id] == docs[id].(category := r[id].category)
  {
    map id | id in docs :: if docs[id].category == from then docs[id].(category := to) else docs[id]
  }

  /** After the move no product is left in the old category, the target
      category holds its own products and the moved ones, and the catalog
      stays valid. */
  lemma ReassignEmptiesCategory(docs: map<ProductId, Product>, from: CategoryId, to: CategoryId)
    requires from != to
    ensures ProductController.ByCategory(Reassign(docs, from, to), from) == map[]
    ensures ProductController.ByCategory(Reassign(docs, from, to), to).Keys ==
      ProductController.ByCategory(docs, to).Keys + ProductController.ByCategory(docs, from).Keys
    ensures AllValid(docs) ==> AllValid(Reassign(docs, from, to))
  {
    var r := Reassign(docs, from, to);
    var emptied := ProductController.ByCategory(r, from);
    forall id | id in r ensures id !in emptied {
      assert r[id].category != from;
    }
    assert emptied.Keys == {};
    var target := ProductController.ByCategory(r, to).Keys;
    var before := ProductController.ByCategory(docs, to).Keys + ProductController.ByCategory(docs, from).Keys;
    forall id ensures id in target <==> id in before {
      if id in docs {
        assert r[id].category == (if docs[id].category == from then to else docs[id].category);
      }
    }
    assert target == before;
  }

  /** `deleteCategory`: without a "Default" category nothing happens;
      otherwise the products of `id` move to "Default" first, and then the
      category is removed, or reported not found with the move already
      made. */
  method DeleteCategory(categories: CategoryCollection, products: ProductCollection, id: CategoryId)
    returns (r: Result<(), CategoryError>)
    requires categories.Valid() && IdsBelow(products.docs, products.nextId)
    modifies categories, products
    ensures categories.Valid() && IdsBelow(products.docs, products.nextId)
    ensures AllValid(old(products.docs)) ==> AllValid(products.docs)
    ensures categories.nextId == old(categories.nextId) && products.nextId == old(products.nextId)
    ensures !HasName(old(categories.docs), DefaultName) ==>
      && r == Err(DefaultMissing)
      && categories.docs == old(categories.docs) && products.docs == old(products.docs)
    ensures HasName(old(categories.docs), DefaultName) ==>
      var target := FindByName(old(categories.docs), DefaultName, old(categories.nextId)).value;
      && products.docs == Reassign(old(products.docs), id, target)
      && (id !in old(categories.docs) ==> r == Err(CategoryNotFound) && categories.docs == old(categories.docs))
      && (id in old(categories.docs) ==> r == Ok(()) && categories.docs == old(categories.docs) - {id})
  {
    FindByNameComplete(categories.docs, DefaultName, categories.nextId);
    var target := FindByName(categories.docs, DefaultName, categories.nextId);
    if target.None? {
      return Err(DefaultMissing);
    }
    products.docs := Reassign(products.docs, id, target.value);
    if id !in categories.docs {
      return Err(CategoryNotFound);
    }
    categories.docs := categories.docs - {id};
    r := Ok(());
  }

  /** The two default categories, in insertion order. */
  function DefaultCategories(): (r: seq<Category>)
    ensures |r| == 2 && r[0].name == DefaultName && r[1].name == ElectronicsName
  {
    [ Category(DefaultName, Some("Categoría para guardar productos sin categoría :(")),
      Category(ElectronicsName, Some("Categoría para artículos de electrónica")) ]
  }

  /** The categories after `agregarCategoriasPorDefecto`. */
  function SeedCategoriesResult(docs: map<CategoryId, Category>, next: nat): (r: map<CategoryId, Category>)
    ensures |docs| != 0 ==> r == docs
    ensures |docs| == 0 ==> r.Keys == {next, next + 1} && r[next].name == DefaultName && r[next + 1].name == ElectronicsName
  {
    if |docs| != 0 then docs else map[next := DefaultCategories()[0], next + 1 := DefaultCategories()[1]]
  }

  /** Seeding twice adds nothing the second time, and seeding an empty
      collection makes "Default" and "Electrónica" findable, the two names
      that category deletion and product seeding look up. */
  lemma SeedCategoriesProperties(docs: map<CategoryId, Category>, next: nat, next': nat)
    ensures SeedCategoriesResult(SeedCategoriesResult(docs, next), next') == SeedCategoriesResult(docs, next)
    ensures |docs| == 0 ==>
      var seeded := SeedCategoriesResult(docs, next);
      && FindByName(seeded, DefaultName, next + 2) == Some(next)
      && FindByName(seeded, ElectronicsName, next + 2) == Some(next + 1)
      && DistinctNames(seeded)
  {
    if |docs| == 0 {
      var seeded := SeedCategoriesResult(docs, next);
      assert next in seeded;
      assert seeded.Keys == {next, next + 1};
      assert FindByName(seeded, DefaultName, next) == None;
      assert FindByName(seeded, ElectronicsName, next) == None;
      assert DefaultName != ElectronicsName;
    }
  }

  /** `agregarCategoriasPorDefecto`: only an empty collection is seeded, with
      "Default" and "Electrónica". */
  method SeedCategories(store: CategoryCollection) returns (seeded: bool)
    requires store.Valid()
    modifies store
    ensures store.Valid()
    ensures store.docs == SeedCategoriesResult(old(store.docs), old(store.nextId))
    ensures seeded <==> |old(store.docs)| == 0
    ensures !seeded ==> store.nextId == old(store.nextId)
  {
    if |store.docs| != 0 {
      return false;
    }
    var next := store.nextId;
    var defaults := DefaultCategories();
    store.docs := map[next := defaults[0], next + 1 := defaults[1]];
    store.nextId := next + 2;
    seeded := true;
  }
}
