/** The `User` schema, its collection, and the identity the token gate
    attaches to a request. */
module UserModel {
  import opened Common

  /** The role enum; a user without one gets `ClientRole`. */
  datatype Role = ClientRole | AdminRole

  function RoleName(r: Role): string {
    match r
    case ClientRole => "CLIENT_ROLE"
    case AdminRole => "ADMIN_ROLE"
  }

  /** The role a string names, if it is one of the two enum values. */
  function ParseRole(s: string): (r: Option<Role>)
    ensures r.Some? <==> s == "CLIENT_ROLE" || s == "ADMIN_ROLE"
    ensures r.Some? ==> RoleName(r.value) == s
  {
    if s == "ADMIN_ROLE" then Some(AdminRole)
    else if s == "CLIENT_ROLE" then Some(ClientRole)
    else None
  }

  lemma RoleNameParses(r: Role)
    ensures ParseRole(RoleName(r)) == Some(r)
  {
  }

  /** A value of the free-form preferences object. */
  datatype PrefValue = Flag(flag: bool) | Text(text: string)

  /** A free-form preferences object (`{ newsletter: true, theme: "dark" }`). */
  type Preferences = map<string, PrefValue>

  /** A stored user. `password` holds the hash; `invoices` is the ordered
      purchase history; `active` and `deletedAt` implement soft deletion. */
  datatype User = User(
    name: string,
    surname: string,
    username: string,
    email: string,
    password: string,
    phone: Option<string>,
    role: Role,
    invoices: seq<InvoiceId>,
    preferences: Preferences,
    active: bool,
    deletedAt: Option<Time>)

  /** A user as `new User({...})` stores it: the schema defaults give an
      active account, no deletion date and an empty purchase history. */
  function NewUser(name: string, surname: string, username: string, email: string, password: string,
                   phone: Option<string>, role: Role, preferences: Preferences): (u: User)
    ensures u.active && u.deletedAt == None && u.invoices == []
    ensures u.username == username && u.email == email && u.role == role && u.password == password
  {
    User(name, surname, username, email, password, phone, role, [], preferences, true, None)
  }

  /** The schema's `required` validators on name, surname, username, email
      and the stored password: an empty string fails them. */
  predicate RequiredPresent(u: User) {
    u.name != "" && u.surname != "" && u.username != "" && u.email != "" && u.password != ""
  }

  /** The identity and role the token gate attaches to a request. */
  datatype Caller = Caller(id: UserId, role: Role)

  /** One entry of the append-only audit log. */
  datatype AuditEntry = AuditEntry(user: UserId, action: string)

  /** The unique indexes on `username` and `email`. */
  ghost predicate UniqueAccounts(docs: map<UserId, User>) {
    forall a, b :: a in docs && b in docs && a != b ==>
      docs[a].username != docs[b].username && docs[a].email != docs[b].email
  }

  /** Some user holds this username or this email. */
  predicate Taken(docs: map<UserId, User>, username: string, email: string) {
    exists id :: id in docs && (docs[id].username == username || docs[id].email == email)
  }

  /** `$push: { invoices: id }` on the user's document; no-op for an unknown user. */
  function RecordInvoice(docs: map<UserId, User>, user: UserId, invoice: InvoiceId): (r: map<UserId, User>)
    ensures r.Keys == docs.Keys
    ensures user in docs ==> r[user].invoices == docs[user].invoices + [invoice]
    ensures forall id :: id in docs && id != user ==> r[id] == docs[id]
  {
    if user in docs then docs[user := docs[user].(invoices := docs[user].invoices + [invoice])] else docs
  }

  /** Replacing one user by a record with the same username and email keeps
      both indexes unique. */
  lemma ReplaceKeepsUnique(docs: map<UserId, User>, id: UserId, u: User)
    requires UniqueAccounts(docs) && id in docs
    requires u.username == docs[id].username && u.email == docs[id].email
    ensures UniqueAccounts(docs[id := u])
  {
    var d := docs[id := u];
    forall a, b | a in d && b in d && a != b
      ensures d[a].username != d[b].username && d[a].email != d[b].email
    {
      assert d[a].username == docs[a].username && d[a].email == docs[a].email;
      assert d[b].username == docs[b].username && d[b].email == docs[b].email;
    }
  }

  /** Pushing an invoice id changes no username or email. */
  lemma RecordInvoiceKeepsUnique(docs: map<UserId, User>, user: UserId, invoice: InvoiceId)
    requires UniqueAccounts(docs)
    ensures UniqueAccounts(RecordInvoice(docs, user, invoice))
  {
    if user in docs {
      ReplaceKeepsUnique(docs, user, docs[user].(invoices := docs[user].invoices + [invoice]));
    }
  }

  /** The `users` collection; `audit` is the audit log collection. */
  class UserCollection {
    var docs: map<UserId, User>
    var nextId: UserId
    ghost var audit: seq<AuditEntry>

    ghost predicate Valid()
      reads this
    {
      IdsBelow(docs, nextId) && UniqueAccounts(docs)
    }

    constructor ()
      ensures Valid() && docs == map[] && nextId == 0 && audit == []
    {
      docs := map[];
      nextId := 0;
      audit := [];
    }
  }
}
