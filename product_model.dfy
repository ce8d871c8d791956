/** The `Product` schema and its collection. */
module ProductModel {
  import opened Common

  /** A catalog entry. Name, price, stock and category are required (they
      are plain fields here); `price` is in cents; `salesCount` counts the
      units sold through invoices. */
  datatype Product = Product(
    name: string,
    description: Option<string>,
    price: int,
    stock: int,
    category: CategoryId,
    salesCount: int)

  /** The schema validators that `save()` runs: `required` on the name,
      which an empty string fails, and `min: 0` on price and stock. */
  predicate ProductValid(p: Product) {
    p.name != "" && p.price >= 0 && p.stock >= 0
  }

  /** A product as `new Product({...})` builds it from a request without a
      `salesCount`: the schema default 0 applies. */
  function NewProduct(name: string, description: Option<string>, price: int, stock: int, category: CategoryId): (p: Product)
    ensures p.salesCount == 0
    ensures ProductValid(p) <==> name != "" && price >= 0 && stock >= 0
  {
    Product(name, description, price, stock, category, 0)
  }

  predicate AllValid(docs: map<ProductId, Product>) {
    forall id :: id in docs ==> ProductValid(docs[id])
  }

  /** The `products` collection. */
  class ProductCollection {
    var docs: map<ProductId, Product>
    var nextId: ProductId

    ghost predicate Valid()
      reads this
    {
      IdsBelow(docs, nextId) && AllValid(docs)
    }

    constructor ()
      ensures Valid() && docs == map[] && nextId == 0
    {
      docs := map[];
      nextId := 0;
    }
  }
}
