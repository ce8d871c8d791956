/** The `Invoice` schema and its collection. */
module InvoiceModel {
  import opened Common

  /** The status enum. */
  datatype Status = Created | Paid | Cancelled

  function StatusName(s: Status): string {
    match s
    case Created => "CREATED"
    case Paid => "PAID"
    case Cancelled => "CANCELLED"
  }

  /** The status a request string names, if it is on the whitelist. */
  function ParseStatus(s: string): (r: Option<Status>)
    ensures r.Some? <==> s == "CREATED" || s == "PAID" || s == "CANCELLED"
    ensures r.Some? ==> StatusName(r.value) == s
  {
    if s == "CREATED" then Some(Created)
    else if s == "PAID" then Some(Paid)
    else if s == "CANCELLED" then Some(Cancelled)
    else None
  }

  /** Every status is written as a whitelisted string that parses back to it. */
  lemma StatusNameParses(s: Status)
    ensures ParseStatus(StatusName(s)) == Some(s)
  {
  }

  /** A purchased line: product reference, quantity, and the unit price (in
      cents) at the time of purchase. */
  datatype InvoiceItem = InvoiceItem(product: ProductId, quantity: int, price: int)

  /** An issued invoice: owner, ordered lines, total and status. */
  datatype Invoice = Invoice(user: UserId, items: seq<InvoiceItem>, total: int, status: Status)

  /** Sum of quantity × price over the lines. */
  function Total(items: seq<InvoiceItem>): (r: int)
    ensures (forall k :: 0 <= k < |items| ==> items[k].price >= 0 && items[k].quantity >= 0) ==> r >= 0
  {
    if items == [] then 0
    else Total(items[..|items| - 1]) + items[|items| - 1].price * items[|items| - 1].quantity
  }

  /** An invoice as `new Invoice({ user, items, total })` builds it: the
      schema default gives status CREATED. */
  function NewInvoice(user: UserId, items: seq<InvoiceItem>, total: int): (inv: Invoice)
    ensures inv.status == Created
    ensures inv.user == user && inv.items == items && inv.total == total
  {
    Invoice(user, items, total, Created)
  }

  /** The stored total is the sum over the invoice's own lines. */
  predicate Consistent(inv: Invoice) {
    inv.total == Total(inv.items)
  }

  /** The `invoices` collection. */
  class InvoiceCollection {
    var docs: map<InvoiceId, Invoice>
    var nextId: InvoiceId

    ghost predicate Valid()
      reads this
    {
      IdsBelow(docs, nextId) && forall id :: id in docs ==> Consistent(docs[id])
    }

    constructor ()
      ensures Valid() && docs == map[] && nextId == 0
    {
      docs := map[];
      nextId := 0;
    }
  }
}
