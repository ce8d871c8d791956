/** The user handlers: registration and admin creation with the
    username/email uniqueness check, profile update, soft self-deletion with
    an audit entry, admin update and hard deletion, the purchase history, and
    seeding of the two default accounts. Password hashing (`encrypt`) and
    checking (`checkPassword`) are parameters of the model. */
module UserController {
  import opened Common
  import opened UserModel
  import opened InvoiceModel

  datatype UserError =
    | AccountTaken
    | EmailTaken
    | UsernameTaken
    | UserNotFound
    | InvalidRole
    | AdminCannotDelete
    | PasswordRequired
    | WrongPassword
    | LookupFailed
    | ValidationFailed

  /** Adding a record whose username and email nobody holds keeps both
      indexes unique. */
  lemma InsertKeepsUnique(docs: map<UserId, User>, id: UserId, u: User)
    requires UniqueAccounts(docs) && id !in docs
    requires !Taken(docs, u.username, u.email)
    ensures UniqueAccounts(docs[id := u])
  {
    var d := docs[id := u];
    forall a, b | a in d && b in d && a != b
      ensures d[a].username != d[b].username && d[a].email != d[b].email
    {
      if a == id {
        assert d[b] == docs[b];
      } else if b == id {
        assert d[a] == docs[a];
      }
    }
  }

  /** `new User({...}).save()` under a fresh id. */
  method AddAccount(users: UserCollection, u: User) returns (id: UserId)
    requires users.Valid()
    requires !Taken(users.docs, u.username, u.email)
    modifies users
    ensures users.Valid() && users.audit == old(users.audit)
    ensures id == old(users.nextId) && id !in old(users.docs)
    ensures users.docs == old(users.docs)[id := u] && users.nextId == id + 1
  {
    id := users.nextId;
    InsertKeepsUnique(users.docs, id, u);
    users.docs := users.docs[id := u];
    users.nextId := id + 1;
  }

  /** `registerUser`: refused when the username or the email is held by any
      user; a record with an empty required field fails the schema validators
      on save; otherwise one client account is added, whatever role the
      request names, with preferences defaulting to the empty object. */
  method RegisterUser(users: UserCollection, encrypt: string -> string,
                      name: string, surname: string, username: string, email: string, password: string,
                      phone: Option<string>, preferences: Option<Preferences>)
    returns (r: Result<UserId, UserError>)
    requires users.Valid()
    modifies users
    ensures users.Valid() && users.audit == old(users.audit)
    ensures Taken(old(users.docs), username, email) ==>
      r == Err(AccountTaken) && users.docs == old(users.docs) && users.nextId == old(users.nextId)
    ensures !Taken(old(users.docs), username, email) && !RequiredPresent(NewUser(name, surname, username, email, encrypt(password), phone, ClientRole, preferences.GetOr(map[]))) ==>
      r == Err(ValidationFailed) && users.docs == old(users.docs) && users.nextId == old(users.nextId)
    ensures !Taken(old(users.docs), username, email) && RequiredPresent(NewUser(name, surname, username, email, encrypt(password), phone, ClientRole, preferences.GetOr(map[]))) ==>
      && r == Ok(old(users.nextId)) && r.value !in old(users.docs)
      && users.docs == old(users.docs)[r.value := NewUser(name, surname, username, email, encrypt(password), phone, ClientRole, preferences.GetOr(map[]))]
  {
    if Taken(users.docs, username, email) {
      return Err(AccountTaken);
    }
    var u := NewUser(name, surname, username, email, encrypt(password), phone, ClientRole, preferences.GetOr(map[]));
    if !RequiredPresent(u) {
      return Err(ValidationFailed);
    }
    var id := AddAccount(users, u);
    r := Ok(id);
  }

  /** The role `createUserByAdmin` stores: the requested one when it is one
      of the two enum values, otherwise the client role. */
  function NormalizeRole(role: Option<string>): (r: Role)
    ensures r == AdminRole <==> role == Some("ADMIN_ROLE")
    ensures role.Some? && ParseRole(role.value).Some? ==> RoleName(r) == role.value
  {
    if Truthy(role) && ParseRole(role.value).Some? then ParseRole(role.value).value else ClientRole
  }

  /** `createUserByAdmin`: the same uniqueness check and schema validators as
      registration; the role is normalised. */
  method CreateUserByAdmin(users: UserCollection, caller: Caller, encrypt: string -> string,
                           name: string, surname: string, username: string, email: string, password: string,
                           phone: Option<string>, role: Option<string>, preferences: Option<Preferences>)
    returns (r: Result<UserId, UserError>)
    requires caller.role == AdminRole
    requires users.Valid()
    modifies users
    ensures users.Valid() && users.audit == old(users.audit)
    ensures Taken(old(users.docs), username, email) ==>
      r == Err(AccountTaken) && users.docs == old(users.docs) && users.nextId == old(users.nextId)
    ensures !Taken(old(users.docs), username, email) && !RequiredPresent(NewUser(name, surname, username, email, encrypt(password), phone, NormalizeRole(role), preferences.GetOr(map[]))) ==>
      r == Err(ValidationFailed) && users.docs == old(users.docs) && users.nextId == old(users.nextId)
    ensures !Taken(old(users.docs), username, email) && RequiredPresent(NewUser(name, surname, username, email, encrypt(password), phone, NormalizeRole(role), preferences.GetOr(map[]))) ==>
      && r == Ok(old(users.nextId)) && r.value !in old(users.docs)
      && users.docs == old(users.docs)[r.value := NewUser(name, surname, username, email, encrypt(password), phone, NormalizeRole(role), preferences.GetOr(map[]))]
  {
    if Taken(users.docs, username, email) {
      return Err(AccountTaken);
    }
    var u := NewUser(name, surname, username, email, encrypt(password), phone, NormalizeRole(role), preferences.GetOr(map[]));
    if !RequiredPresent(u) {
      return Err(ValidationFailed);
    }
    var id := AddAccount(users, u);
    r := Ok(id);
  }

  // ---------------------------------------------------------------------------
  // Profile

  /** The fields of a profile update; `None` is a field the request leaves out. */
  datatype ProfileUpdate = ProfileUpdate(
    name: Option<string>,
    surname: Option<string>,
    username: Option<string>,
    email: Option<string>,
    phone: Option<string>,
    preferences: Option<Preferences>)

  /** The profile after the update: each truthy field replaces the stored
      one; role, password, history and deletion state never change. */
  function ApplyProfile(u: User, p: ProfileUpdate): (r: User)
    ensures r.name == Pick(p.name, u.name) && r.surname == Pick(p.surname, u.surname)
    ensures r.username == Pick(p.username, u.username) && r.email == Pick(p.email, u.email)
    ensures r.phone == (if Truthy(p.phone) then p.phone else u.phone)
    ensures r.preferences == p.preferences.GetOr(u.preferences)
    ensures r.role == u.role && r.password == u.password && r.invoices == u.invoices
    ensures r.active == u.active && r.deletedAt == u.deletedAt
  {
    u.(name := Pick(p.name, u.name),
       surname := Pick(p.surname, u.surname),
       username := Pick(p.username, u.username),
       email := Pick(p.email, u.email),
       phone := if Truthy(p.phone) then p.phone else u.phone,
       preferences := p.preferences.GetOr(u.preferences))
  }

  /** Sending the same profile update twice changes nothing the second time. */
  lemma ApplyProfileIdempotent(u: User, p: ProfileUpdate)
    ensures ApplyProfile(ApplyProfile(u, p), p) == ApplyProfile(u, p)
  {
  }

  predicate EmailHeldByOther(docs: map<UserId, User>, self: UserId, email: string) {
    exists id :: id in docs && id != self && docs[id].email == email
  }

  predicate UsernameHeldByOther(docs: map<UserId, User>, self: UserId, username: string) {
    exists id :: id in docs && id != self && docs[id].username == username
  }

  /** The new email is supplied, differs from the current one, and another user holds it. */
  predicate EmailClash(docs: map<UserId, User>, self: UserId, p: ProfileUpdate)
    requires self in docs
  {
    Truthy(p.email) && p.email.value != docs[self].email && EmailHeldByOther(docs, self, p.email.value)
  }

  predicate UsernameClash(docs: map<UserId, User>, self: UserId, p: ProfileUpdate)
    requires self in docs
  {
    Truthy(p.username) && p.username.value != docs[self].username && UsernameHeldByOther(docs, self, p.username.value)
  }

  /** A profile update that passed both checks keeps both indexes unique. */
  lemma ProfileKeepsUnique(docs: map<UserId, User>, self: UserId, p: ProfileUpdate)
    requires UniqueAccounts(docs) && self in docs
    requires !EmailClash(docs, self, p) && !UsernameClash(docs, self, p)
    ensures UniqueAccounts(docs[self := ApplyProfile(docs[self], p)])
  {
    var cur := docs[self];
    var d := docs[self := ApplyProfile(cur, p)];
    forall a, b | a in d && b in d && a != b
      ensures d[a].username != d[b].username && d[a].email != d[b].email
    {
      if a == self {
        assert d[b] == docs[b];
        assert d[a].username == cur.username || !UsernameHeldByOther(docs, self, d[a].username);
        assert d[a].email == cur.email || !EmailHeldByOther(docs, self, d[a].email);
      } else if b == self {
        assert d[a] == docs[a];
        assert d[b].username == cur.username || !UsernameHeldByOther(docs, self, d[b].username);
        assert d[b].email == cur.email || !EmailHeldByOther(docs, self, d[b].email);
      }
    }
  }

  /** `updateUserProfile`: not found first; then a clashing email, then a
      clashing username, is refused; otherwise the truthy fields are applied. */
  method UpdateUserProfile(users: UserCollection, caller: Caller, p: ProfileUpdate)
    returns (r: Result<User, UserError>)
    requires users.Valid()
    modifies users
    ensures users.Valid() && users.nextId == old(users.nextId) && users.audit == old(users.audit)
    ensures r.Err? ==> users.docs == old(users.docs)
    ensures caller.id !in old(users.docs) ==> r == Err(UserNotFound)
    ensures caller.id in old(users.docs) && EmailClash(old(users.docs), caller.id, p) ==> r == Err(EmailTaken)
    ensures caller.id in old(users.docs) && !EmailClash(old(users.docs), caller.id, p) ==>
      (UsernameClash(old(users.docs), caller.id, p) ==> r == Err(UsernameTaken))
    ensures caller.id in old(users.docs) && !EmailClash(old(users.docs), caller.id, p) ==>
      (!UsernameClash(old(users.docs), caller.id, p) ==>
         && r == Ok(ApplyProfile(old(users.docs[caller.id]), p))
         && users.docs == old(users.docs)[caller.id := r.value])
  {
    if caller.id !in users.docs {
      return Err(UserNotFound);
    }
    if EmailClash(users.docs, caller.id, p) {
      return Err(EmailTaken);
    }
    if UsernameClash(users.docs, caller.id, p) {
      return Err(UsernameTaken);
    }
    var u := ApplyProfile(users.docs[caller.id], p);
    ProfileKeepsUnique(users.docs, caller.id, p);
    users.docs := users.docs[caller.id := u];
    r := Ok(u);
  }

  // ---------------------------------------------------------------------------
  // Deletion

  const DeletionAction: string := "Account Deletion Request (Soft Delete)"

  /** The record kept after a soft delete: disabled and stamped, otherwise as it was. */
  function SoftDeleted(u: User, now: Time): (r: User)
    ensures !r.active && r.deletedAt == Some(now)
    ensures r.(active := u.active, deletedAt := u.deletedAt) == u
  {
    u.(active := false, deletedAt := Some(now))
  }

  /** `deleteUser`: an admin is refused; then a missing password; then an
      unknown user; then a password that does not check against the stored
      hash. Otherwise the record stays, disabled and stamped with `now`, and
      exactly one audit entry is appended. */
  method DeleteUser(users: UserCollection, caller: Caller, currentPassword: Option<string>, now: Time,
                    checkPassword: (string, string) -> bool)
    returns (r: Result<User, UserError>)
    requires users.Valid()
    modifies users
    ensures users.Valid() && users.nextId == old(users.nextId)
    ensures r.Err? ==> users.docs == old(users.docs) && users.audit == old(users.audit)
    ensures caller.role == AdminRole ==> r == Err(AdminCannotDelete)
    ensures caller.role == ClientRole && !Truthy(currentPassword) ==> r == Err(PasswordRequired)
    ensures caller.role == ClientRole && Truthy(currentPassword) && caller.id !in old(users.docs) ==>
      r == Err(UserNotFound)
    ensures caller.role == ClientRole && Truthy(currentPassword) && caller.id in old(users.docs) ==>
      var stored := old(users.docs[caller.id]);
      && (!checkPassword(stored.password, currentPassword.value) ==> r == Err(WrongPassword))
      && (checkPassword(stored.password, currentPassword.value) ==>
            && r == Ok(SoftDeleted(stored, now))
            && users.docs == old(users.docs)[caller.id := r.value]
            && users.audit == old(users.audit) + [AuditEntry(caller.id, DeletionAction)])
  {
    if caller.role == AdminRole {
      return Err(AdminCannotDelete);
    }
    if !Truthy(currentPassword) {
      return Err(PasswordRequired);
    }
    if caller.id !in users.docs {
      return Err(UserNotFound);
    }
    var stored := users.docs[caller.id];
    if !checkPassword(stored.password, currentPassword.value) {
      return Err(WrongPassword);
    }
    var u := SoftDeleted(stored, now);
    ReplaceKeepsUnique(users.docs, caller.id, u);
    users.docs := users.docs[caller.id := u];
    users.audit := users.audit + [AuditEntry(caller.id, DeletionAction)];
    r := Ok(u);
  }

  /** `deleteUserByAdmin`: an admin cannot remove their own account;
      otherwise the record is removed entirely, or reported not found. */
  method DeleteUserByAdmin(users: UserCollection, caller: Caller, id: UserId) returns (r: Result<(), UserError>)
    requires caller.role == AdminRole
    requires users.Valid()
    modifies users
    ensures users.Valid() && users.nextId == old(users.nextId) && users.audit == old(users.audit)
    ensures caller.id == id ==> r == Err(AdminCannotDelete) && users.docs == old(users.docs)
    ensures caller.id != id && id !in old(users.docs) ==> r == Err(UserNotFound) && users.docs == old(users.docs)
    ensures caller.id != id && id in old(users.docs) ==> r == Ok(()) && users.docs == old(users.docs) - {id}
  {
    if caller.id == id {
      return Err(AdminCannotDelete);
    }
    if id !in users.docs {
      return Err(UserNotFound);
    }
    users.docs := users.docs - {id};
    r := Ok(());
  }

  // ---------------------------------------------------------------------------
  // Admin update

  /** The fields an admin may change; `None` is a field the request leaves out. */
  datatype AdminUpdate = AdminUpdate(
    name: Option<string>,
    surname: Option<string>,
    phone: Option<string>,
    role: Option<string>,
    password: Option<string>,
    preferences: Option<Preferences>)

  /** A role is supplied and is not one of the two enum values. */
  predicate RoleRejected(a: AdminUpdate) {
    Truthy(a.role) && ParseRole(a.role.value).None?
  }

  /** The record after an admin update: each truthy field replaces the
      stored one, a new password is stored hashed; username, email, history
      and deletion state never change. */
  function ApplyAdminUpdate(u: User, a: AdminUpdate, encrypt: string -> string): (r: User)
    ensures r.name == Pick(a.name, u.name) && r.surname == Pick(a.surname, u.surname)
    ensures r.phone == (if Truthy(a.phone) then a.phone else u.phone)
    ensures Truthy(a.role) && ParseRole(a.role.value).Some? ==> RoleName(r.role) == a.role.value
    ensures !Truthy(a.role) ==> r.role == u.role
    ensures r.password == (if Truthy(a.password) then encrypt(a.password.value) else u.password)
    ensures r.preferences == a.preferences.GetOr(u.preferences)
    ensures r.username == u.username && r.email == u.email && r.invoices == u.invoices
    ensures r.active == u.active && r.deletedAt == u.deletedAt
  {
    u.(name := Pick(a.name, u.name),
       surname := Pick(a.surname, u.surname),
       phone := if Truthy(a.phone) then a.phone else u.phone,
       role := if Truthy(a.role) && ParseRole(a.role.value).Some? then ParseRole(a.role.value).value else u.role,
       password := if Truthy(a.password) then encrypt(a.password.value) else u.password,
       preferences := a.preferences.GetOr(u.preferences))
  }

  /** `updateUserByAdmin`: an invalid role is refused before the lookup;
      then an unknown id is not found; otherwise the update is applied. */
  method UpdateUserByAdmin(users: UserCollection, caller: Caller, id: UserId, a: AdminUpdate,
                           encrypt: string -> string)
    returns (r: Result<User, UserError>)
    requires caller.role == AdminRole
    requires users.Valid()
    modifies users
    ensures users.Valid() && users.nextId == old(users.nextId) && users.audit == old(users.audit)
    ensures RoleRejected(a) ==> r == Err(InvalidRole) && users.docs == old(users.docs)
    ensures !RoleRejected(a) && id !in old(users.docs) ==> r == Err(UserNotFound) && users.docs == old(users.docs)
    ensures !RoleRejected(a) && id in old(users.docs) ==>
      && r == Ok(ApplyAdminUpdate(old(users.docs[id]), a, encrypt))
      && users.docs == old(users.docs)[id := r.value]
  {
    if RoleRejected(a) {
      return Err(InvalidRole);
    }
    if id !in users.docs {
      return Err(UserNotFound);
    }
    var u := ApplyAdminUpdate(users.docs[id], a, encrypt);
    ReplaceKeepsUnique(users.docs, id, u);
    users.docs := users.docs[id := u];
    r := Ok(u);
  }

  // ---------------------------------------------------------------------------
  // Purchase history

  /** `.populate("invoices")`: the referenced invoices in history order; a
      reference to a missing invoice is dropped. */
  function Populate(ids: seq<InvoiceId>, docs: map<InvoiceId, Invoice>): (r: seq<Invoice>)
    ensures |r| <= |ids|
    ensures forall inv :: inv in r ==> exists k :: 0 <= k < |ids| && ids[k] in docs && docs[ids[k]] == inv
    ensures (forall k :: 0 <= k < |ids| ==> ids[k] in docs) ==>
      |r| == |ids| && forall k :: 0 <= k < |ids| ==> r[k] == docs[ids[k]]
  {
    if ids == [] then []
    else
      var init := ids[..|ids| - 1];
      var last := ids[|ids| - 1];
      var prefix := Populate(init, docs);
      assert forall k :: 0 <= k < |init| ==> init[k] == ids[k];
      if last in docs then prefix + [docs[last]] else prefix
  }

  /** After a commit stores invoice `id` and appends it to the history, the
      history shows the earlier invoices followed by the new one. */
  lemma {:induction false} PopulateAfterCommit(ids: seq<InvoiceId>, docs: map<InvoiceId, Invoice>, id: InvoiceId, inv: Invoice)
    requires id !in docs
    requires forall k :: 0 <= k < |ids| ==> ids[k] in docs
    ensures Populate(ids + [id], docs[id := inv]) == Populate(ids, docs) + [inv]
  {
    PopulateUnaffected(ids, docs, id, inv);
    assert (ids + [id])[..|ids|] == ids;
  }

  /** Storing an invoice nobody in `ids` refers to does not change their population. */
  lemma {:induction false} PopulateUnaffected(ids: seq<InvoiceId>, docs: map<InvoiceId, Invoice>, id: InvoiceId, inv: Invoice)
    requires id !in docs
    requires forall k :: 0 <= k < |ids| ==> ids[k] in docs
    ensures Populate(ids, docs[id := inv]) == Populate(ids, docs)
  {
    if ids != [] {
      PopulateUnaffected(ids[..|ids| - 1], docs, id, inv);
      assert ids[|ids| - 1] in docs;
    }
  }

  /** `getUserInvoices`: the caller's populated purchase history; a caller
      whose record is gone makes the handler fail. */
  function GetUserInvoices(users: map<UserId, User>, invoices: map<InvoiceId, Invoice>, caller: Caller)
    : (r: Result<seq<Invoice>, UserError>)
    requires caller.role == ClientRole
    ensures caller.id !in users ==> r == Err(LookupFailed)
    ensures caller.id in users ==> r == Ok(Populate(users[caller.id].invoices, invoices))
    ensures caller.id in users ==> |r.value| <= |users[caller.id].invoices|
  {
    if caller.id !in users then Err(LookupFailed) else Ok(Populate(users[caller.id].invoices, invoices))
  }

  /** After a commit by the caller stores invoice `inv` and records it on
      the caller, the purchase history is the earlier one followed by `inv`. */
  lemma HistoryAfterCommit(users: map<UserId, User>, invoices: map<InvoiceId, Invoice>, caller: Caller,
                           id: InvoiceId, inv: Invoice)
    requires caller.role == ClientRole && caller.id in users && id !in invoices
    requires forall k :: 0 <= k < |users[caller.id].invoices| ==> users[caller.id].invoices[k] in invoices
    ensures GetUserInvoices(RecordInvoice(users, caller.id, id), invoices[id := inv], caller) ==
      Ok(GetUserInvoices(users, invoices, caller).value + [inv])
  {
    PopulateAfterCommit(users[caller.id].invoices, invoices, id, inv);
  }

  // ---------------------------------------------------------------------------
  // Seeding

  const SeedPassword: string := "12345678Aa!"

  /** The two default accounts: an admin and a client. */
  function DefaultUsers(encrypt: string -> string): (r: seq<User>)
    ensures |r| == 2 && r[0].role == AdminRole && r[1].role == ClientRole
    ensures r[0].username != r[1].username && r[0].email != r[1].email
    ensures forall k :: 0 <= k < 2 ==> r[k].active && r[k].password == encrypt(SeedPassword)
  {
    DefaultUsersDistinct(encrypt);
    [DefaultUser(0, encrypt), DefaultUser(1, encrypt)]
  }

  /** The `k`-th default account. */
  function DefaultUser(k: nat, encrypt: string -> string): (u: User)
    requires k < 2
    ensures u.role == (if k == 0 then AdminRole else ClientRole)
    ensures u.active && u.password == encrypt(SeedPassword)
    ensures u.name != "" && u.surname != "" && u.username != "" && u.email != ""
  {
    if k == 0 then
      NewUser("Marla", "Pérez", "mperez", "mperez@gmail.com", encrypt(SeedPassword), Some("55986458"), AdminRole,
              map["newsletter" := Flag(true), "theme" := Text("pink")])
    else
      NewUser("Alberto", "Pérez", "aperez", "aperez@gmail.com", encrypt(SeedPassword), Some("55986458"), ClientRole,
              map["newsletter" := Flag(true), "theme" := Text("dark")])
  }

  /** The two default accounts hold different usernames and different emails. */
  lemma DefaultUsersDistinct(encrypt: string -> string)
    ensures DefaultUser(0, encrypt).username != DefaultUser(1, encrypt).username
    ensures DefaultUser(0, encrypt).email != DefaultUser(1, encrypt).email
  {
    assert DefaultUser(0, encrypt).username[0] == 'm' && DefaultUser(1, encrypt).username[0] == 'a';
    assert DefaultUser(0, encrypt).email[0] == 'm' && DefaultUser(1, encrypt).email[0] == 'a';
  }

  function SeedUsersResult(docs: map<UserId, User>, next: nat, encrypt: string -> string): (r: map<UserId, User>)
    ensures |docs| != 0 ==> r == docs
    ensures |docs| == 0 ==>
      && r.Keys == {next, next + 1} && r[next].role == AdminRole && r[next + 1].role == ClientRole
      && forall id :: id in r ==> r[id].active && r[id].password == encrypt(SeedPassword)
  {
    if |docs| != 0 then docs else map[next := DefaultUsers(encrypt)[0], next + 1 := DefaultUsers(encrypt)[1]]
  }

  /** Seeding twice adds nothing the second time, and the seeded accounts
      satisfy the uniqueness of usernames and emails. */
  lemma SeedUsersProperties(docs: map<UserId, User>, next: nat, next': nat, encrypt: string -> string)
    requires UniqueAccounts(docs)
    ensures SeedUsersResult(SeedUsersResult(docs, next, encrypt), next', encrypt) == SeedUsersResult(docs, next, encrypt)
    ensures UniqueAccounts(SeedUsersResult(docs, next, encrypt))
  {
    if |docs| == 0 {
      var seeded := SeedUsersResult(docs, next, encrypt);
      assert next in seeded;
      assert seeded.Keys == {next, next + 1};
    }
  }

  /** `agregarUsuariosPorDefecto`: only an empty user store is seeded. */
  method SeedUsers(users: UserCollection, encrypt: string -> string) returns (seeded: bool)
    requires users.Valid()
    modifies users
    ensures users.Valid() && users.audit == old(users.audit)
    ensures users.docs == SeedUsersResult(old(users.docs), old(users.nextId), encrypt)
    ensures seeded <==> |old(users.docs)| == 0
    ensures !seeded ==> users.nextId == old(users.nextId)
  {
    SeedUsersProperties(users.docs, users.nextId, users.nextId, encrypt);
    if |users.docs| != 0 {
      return false;
    }
    var next := users.nextId;
    users.docs := SeedUsersResult(users.docs, next, encrypt);
    assert users.docs.Keys == {next, next + 1};
    users.nextId := next + 2;
    seeded := true;
  }
}
