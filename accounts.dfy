/** The Postgres tables `companies` and `users` behind both API handlers,
    and the pooled client a handler checks out to talk to them.

    The store keeps the rows. A client keeps the statements sent over it,
    so that "the handler sent exactly these statements" can be stated, and
    the snapshot taken at BEGIN, which ROLLBACK restores. */
module Accounts {

  import opened Wrappers
  import opened Text

  /** A row of `companies`. */
  datatype Company = Company(
    id: nat,
    name: string,
    vatTaxId: Option<string>,
    billingAddress: Option<string>,
    lifecycleStage: string,
    portalEnabled: bool)

  /** A row of `users`. */
  datatype User = User(
    id: nat,
    companyId: nat,
    firstName: string,
    lastName: string,
    email: string,
    passwordHash: string,
    userRole: string,
    isActive: bool,
    verificationToken: Option<string>,
    verificationExpires: Option<int>)

  /** The parameters of the company INSERT (pages/api/register.js:53-58). */
  datatype NewCompany = NewCompany(name: string, vatTaxId: Option<string>, billingAddress: Option<string>)

  /** The parameters of the user INSERT (pages/api/register.js:61-66). */
  datatype NewUser = NewUser(
    companyId: nat,
    firstName: string,
    lastName: string,
    email: string,
    passwordHash: string,
    token: string,
    expires: int)

  /** The columns the login handler selects (pages/api/login.js:27). */
  datatype LoginRow = LoginRow(id: nat, passwordHash: string, userRole: string, isActive: bool)

  /** The statements the handlers send, as the server receives them. */
  datatype Statement =
    | Begin
    | SelectUserId(email: string)
    | SelectLoginRow(email: string)
    | InsertCompany(company: NewCompany)
    | InsertUser(user: NewUser)
    | Commit
    | Rollback

  /** The whole contents of both tables, with the next value of each
      `id` sequence. Users are keyed by their `email` column. */
  datatype Tables = Tables(
    companies: seq<Company>,
    users: map<string, User>,
    nextCompanyId: nat,
    nextUserId: nat)

  function CompanyIds(companies: seq<Company>): set<nat> {
    set i | 0 <= i < |companies| :: companies[i].id
  }

  function UserCompanyIds(users: map<string, User>): set<nat> {
    set e | e in users :: users[e].companyId
  }

  /** What the registration handler keeps true of the tables between
      requests: ids come from their sequences and are distinct, the key of
      a user is its lower-case email, every user belongs to an existing
      company and every company has a user (no orphan company). */
  ghost predicate WellFormed(t: Tables) {
    && (forall i :: 0 <= i < |t.companies| ==> t.companies[i].id < t.nextCompanyId)
    && (forall i, j :: 0 <= i < j < |t.companies| ==> t.companies[i].id < t.companies[j].id)
    && (forall e :: e in t.users ==> t.users[e].email == e && IsLower(e) && t.users[e].id < t.nextUserId)
    && (forall e, f :: e in t.users && f in t.users && e != f ==> t.users[e].id != t.users[f].id)
    && CompanyIds(t.companies) == UserCompanyIds(t.users)
  }

  /** The row `INSERT INTO companies ... VALUES ($1, $2, $3, 'Customer', TRUE)`
      adds, with the id the sequence hands out. */
  function AddCompany(t: Tables, c: NewCompany): (r: Tables)
    ensures r.companies == t.companies + [Company(t.nextCompanyId, c.name, c.vatTaxId, c.billingAddress, "Customer", true)]
    ensures r.users == t.users && r.nextUserId == t.nextUserId
    ensures r.nextCompanyId == t.nextCompanyId + 1
  {
    var row := Company(t.nextCompanyId, c.name, c.vatTaxId, c.billingAddress, "Customer", true);
    t.(companies := t.companies + [row], nextCompanyId := t.nextCompanyId + 1)
  }

  /** The row `INSERT INTO users ... VALUES ($1, $2, $3, $4, $5, 'Companies',
      FALSE, $6, $7)` adds, with the id the sequence hands out. */
  function AddUser(t: Tables, u: NewUser): (r: Tables)
    ensures r.users == t.users[u.email := User(t.nextUserId, u.companyId, u.firstName, u.lastName, u.email,
                                               u.passwordHash, "Companies", false, Some(u.token), Some(u.expires))]
    ensures r.companies == t.companies && r.nextCompanyId == t.nextCompanyId
    ensures r.nextUserId == t.nextUserId + 1
  {
    var row := User(t.nextUserId, u.companyId, u.firstName, u.lastName, u.email,
                    u.passwordHash, "Companies", false, Some(u.token), Some(u.expires));
    t.(users := t.users[u.email := row], nextUserId := t.nextUserId + 1)
  }

  /** `SELECT id, password_hash, user_role, is_active FROM users WHERE email = $1`. */
  function FindUserForLogin(users: map<string, User>, email: string): (r: Option<LoginRow>)
    ensures r.None? <==> email !in users
    ensures r.Some? ==> var u := users[email];
      r.value.id == u.id && r.value.passwordHash == u.passwordHash
      && r.value.userRole == u.userRole && r.value.isActive == u.isActive
  {
    if email in users then
      var u := users[email];
      Some(LoginRow(u.id, u.passwordHash, u.userRole, u.isActive))
    else None
  }

  lemma CompanyIdsAppend(cs: seq<Company>, c: Company)
    ensures CompanyIds(cs + [c]) == CompanyIds(cs) + {c.id}
  {
    var cs' := cs + [c];
    forall x | x in CompanyIds(cs') ensures x in CompanyIds(cs) + {c.id} {
      var i :| 0 <= i < |cs'| && cs'[i].id == x;
      if i < |cs| { assert cs'[i] == cs[i]; }
    }
    forall x | x in CompanyIds(cs) ensures x in CompanyIds(cs') {
      var i :| 0 <= i < |cs| && cs[i].id == x;
      assert cs'[i] == cs[i];
    }
    assert cs'[|cs|] == c;
  }

  lemma UserCompanyIdsInsert(us: map<string, User>, e: string, u: User)
    requires e !in us
    ensures UserCompanyIds(us[e := u]) == UserCompanyIds(us) + {u.companyId}
  {
    var us' := us[e := u];
    forall x | x in UserCompanyIds(us') ensures x in UserCompanyIds(us) + {u.companyId} {
      var k :| k in us' && us'[k].companyId == x;
      if k != e { assert us'[k] == us[k]; }
    }
    forall x | x in UserCompanyIds(us) ensures x in UserCompanyIds(us') {
      var k :| k in us && us[k].companyId == x;
      assert us'[k] == us[k];
    }
    assert us'[e] == u;
  }

  /** A company inserted on its own leaves the tables ill-formed: it has no
      user. This is why the two INSERTs must commit or roll back together. */
  lemma {:induction false} LoneCompanyIsOrphan(t: Tables, c: NewCompany)
    requires WellFormed(t)
    ensures !WellFormed(AddCompany(t, c))
  {
    var t' := AddCompany(t, c);
    CompanyIdsAppend(t.companies, t'.companies[|t.companies|]);
    assert t.nextCompanyId in CompanyIds(t'.companies);
    assert t.nextCompanyId !in CompanyIds(t.companies);
  }

  /** A company and a user pointing to it, inserted together under a fresh
      lower-case email, keep the tables well-formed. */
  lemma {:induction false} CompanyWithUserWellFormed(t: Tables, c: NewCompany, u: NewUser)
    requires WellFormed(t)
    requires u.companyId == t.nextCompanyId
    requires u.email !in t.users && IsLower(u.email)
    ensures WellFormed(AddUser(AddCompany(t, c), u))
  {
    var t1 := AddCompany(t, c);
    var t2 := AddUser(t1, u);
    CompanyIdsAppend(t.companies, t1.companies[|t.companies|]);
    UserCompanyIdsInsert(t1.users, u.email, t2.users[u.email]);
    assert forall i :: 0 <= i < |t.companies| ==> t2.companies[i] == t.companies[i];
  }

  /** In well-formed tables no two users have emails that differ only in
      letter case. */
  lemma EmailsUniqueIgnoringCase(t: Tables, e: string, f: string)
    requires WellFormed(t)
    requires e in t.users && f in t.users
    requires Lower(e) == Lower(f)
    ensures e == f
  {
    LowerFixesLower(e);
    LowerFixesLower(f);
  }

  /** The database: both tables. */
  class AccountStore {
    var companies: seq<Company>
    var users: map<string, User>
    var nextCompanyId: nat
    var nextUserId: nat

    function Contents(): Tables
      reads this
    {
      Tables(companies, users, nextCompanyId, nextUserId)
    }

    ghost predicate Valid()
      reads this
    {
      WellFormed(Contents())
    }

    constructor ()
      ensures Valid()
      ensures companies == [] && users == map[]
    {
      companies, users := [], map[];
      nextCompanyId, nextUserId := 1, 1;
    }

    /** Sets the tables to `t`. */
    method Restore(t: Tables)
      modifies this
      ensures Contents() == t
    {
      companies, users := t.companies, t.users;
      nextCompanyId, nextUserId := t.nextCompanyId, t.nextUserId;
    }
  }

  /** A client checked out of the pool. `sent` lists the statements sent
      over it; `snapshot` is Some while a transaction is open and holds the
      tables as they were at BEGIN. A statement that `fails` (the server
      raises an error) changes no row. */
  class Client {
    const store: AccountStore
    var sent: seq<Statement>
    var snapshot: Option<Tables>
    var released: bool

    /** `pool.connect()`. */
    constructor (store: AccountStore)
      ensures this.store == store && sent == [] && snapshot == None && !released
    {
      this.store := store;
      sent := [];
      snapshot := None;
      released := false;
    }

    /** `client.query('BEGIN')`. */
    method Begin(fails: bool) returns (ok: bool)
      modifies this
      ensures sent == old(sent) + [Statement.Begin]
      ensures ok == !fails && released == old(released)
      ensures snapshot == if ok then Some(store.Contents()) else old(snapshot)
    {
      sent := sent + [Statement.Begin];
      ok := !fails;
      if ok {
        snapshot := Some(store.Contents());
      }
    }

    /** `SELECT id FROM users WHERE email = $1`. */
    method SelectUserId(email: string, fails: bool) returns (ok: bool, rows: seq<nat>)
      modifies this`sent
      ensures sent == old(sent) + [Statement.SelectUserId(email)]
      ensures ok == !fails
      ensures ok ==> rows == if email in store.users then [store.users[email].id] else []
    {
      sent := sent + [Statement.SelectUserId(email)];
      ok := !fails;
      rows := if ok && email in store.users then [store.users[email].id] else [];
    }

    /** `SELECT id, password_hash, user_role, is_active FROM users WHERE email = $1`. */
    method SelectLoginRow(email: string, fails: bool) returns (ok: bool, row: Option<LoginRow>)
      modifies this`sent
      ensures sent == old(sent) + [Statement.SelectLoginRow(email)]
      ensures ok == !fails
      ensures ok ==> row == FindUserForLogin(store.users, email)
    {
      sent := sent + [Statement.SelectLoginRow(email)];
      ok := !fails;
      row := if ok then FindUserForLogin(store.users, email) else None;
    }

    /** `INSERT INTO companies ... RETURNING id`. */
    method InsertCompany(c: NewCompany, fails: bool) returns (ok: bool, id: nat)
      modifies this`sent, store
      ensures sent == old(sent) + [Statement.InsertCompany(c)]
      ensures ok == !fails
      ensures store.Contents() == if ok then AddCompany(old(store.Contents()), c) else old(store.Contents())
      ensures ok ==> id == old(store.nextCompanyId)
    {
      sent := sent + [Statement.InsertCompany(c)];
      ok := !fails;
      id := store.nextCompanyId;
      if ok {
        var t := AddCompany(store.Contents(), c);
        store.Restore(t);
      }
    }

    /** `INSERT INTO users ... RETURNING id, first_name`. The insert also
        fails when it would break the schema's constraints: `email UNIQUE`
        and `company_id` referencing an existing company. */
    method InsertUser(u: NewUser, fails: bool) returns (ok: bool, id: nat, firstName: string)
      modifies this`sent, store
      ensures sent == old(sent) + [Statement.InsertUser(u)]
      ensures ok == (!fails && u.email !in old(store.users) && u.companyId in CompanyIds(old(store.companies)))
      ensures store.Contents() == if ok then AddUser(old(store.Contents()), u) else old(store.Contents())
      ensures ok ==> id == old(store.nextUserId) && firstName == u.firstName
    {
      sent := sent + [Statement.InsertUser(u)];
      ok := !fails && u.email !in store.users && u.companyId in CompanyIds(store.companies);
      id, firstName := store.nextUserId, u.firstName;
      if ok {
        var t := AddUser(store.Contents(), u);
        store.Restore(t);
      }
    }

    /** `client.query('COMMIT')`. A COMMIT the server refuses ends the
        transaction by rolling it back. */
    method Commit(fails: bool) returns (ok: bool)
      requires snapshot.Some?
      modifies this`sent, this`snapshot, store
      ensures sent == old(sent) + [Statement.Commit]
      ensures ok == !fails && snapshot == None
      ensures store.Contents() == if ok then old(store.Contents()) else old(snapshot.value)
    {
      sent := sent + [Statement.Commit];
      ok := !fails;
      if !ok {
        store.Restore(snapshot.value);
      }
      snapshot := None;
    }

    /** `client.query('ROLLBACK')`: back to the snapshot taken at BEGIN, or
        nothing when no transaction is open. */
    method Rollback()
      modifies this`sent, this`snapshot, store
      ensures sent == old(sent) + [Statement.Rollback]
      ensures snapshot == None
      ensures store.Contents() == if old(snapshot).Some? then old(snapshot.value) else old(store.Contents())
    {
      sent := sent + [Statement.Rollback];
      if snapshot.Some? {
        store.Restore(snapshot.value);
      }
      snapshot := None;
    }

    /** `client.release()`: the client goes back to the pool, with whatever
        transaction is still open on it. */
    method Release()
      modifies this`released
      ensures released
    {
      released := true;
    }
  }
}
