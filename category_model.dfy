/** The `Category` record and its collection. The schema file is not part of
    this model; the record has the two fields the controllers read and
    write, `name` and `description`. */
module CategoryModel {
  import opened Common

  datatype Category = Category(name: string, description: Option<string>)

  const DefaultName: string := "Default"
  const ElectronicsName: string := "Electrónica"

  predicate HasName(docs: map<CategoryId, Category>, name: string) {
    exists id :: id in docs && docs[id].name == name
  }

  /** `Category.findOne({ name })`: the first document in insertion order
      (the least id below `n`) whose name matches. */
  function FindByName(docs: map<CategoryId, Category>, name: string, n: nat): (r: Option<CategoryId>)
    ensures r.Some? ==> r.value < n && r.value in docs && docs[r.value].name == name
    ensures r.Some? ==> forall id :: id < r.value && id in docs ==> docs[id].name != name
    ensures r.None? ==> forall id :: id < n && id in docs ==> docs[id].name != name
  {
    if n == 0 then None
    else match FindByName(docs, name, n - 1)
      case Some(id) => Some(id)
      case None => if n - 1 in docs && docs[n - 1].name == name then Some(n - 1) else None
  }

  /** With every id below `n`, the lookup finds a document exactly when one
      has that name. */
  lemma FindByNameComplete(docs: map<CategoryId, Category>, name: string, n: nat)
    requires IdsBelow(docs, n)
    ensures FindByName(docs, name, n).Some? <==> HasName(docs, name)
  {
    if HasName(docs, name) {
      var id :| id in docs && docs[id].name == name;
      assert id < n;
    }
  }

  /** The `categories` collection. */
  class CategoryCollection {
    var docs: map<CategoryId, Category>
    var nextId: CategoryId

    ghost predicate Valid()
      reads this
    {
      IdsBelow(docs, nextId)
    }

    constructor ()
      ensures Valid() && docs == map[] && nextId == 0
    {
      docs := map[];
      nextId := 0;
    }
  }
}
