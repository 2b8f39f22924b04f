/** `POST /api/register`: validates the sign-up form, then inside one
    transaction rejects a known email, inserts a company and its first user,
    sends the verification email and commits, or rolls back on any error.

    bcrypt, `crypto.randomBytes`, `Date.now()`, the application URL and the
    mail client are inputs (Env and the `fault` argument). */
module RegisterApi {

  import opened Wrappers
  import opened Text
  import opened Http
  import opened Accounts

  /** `req.body` of a registration; an absent or null field is None. */
  datatype RegisterBody = RegisterBody(
    companyName: Option<string>,
    vatTaxId: Option<string>,
    billingAddress: Option<string>,
    firstName: Option<string>,
    lastName: Option<string>,
    email: Option<string>,
    password: Option<string>)

  /** What the handler draws from its environment: `NEXT_PUBLIC_APP_URL`,
      `bcrypt.hash` (its random salt folded into the function), the bytes
      `crypto.randomBytes(32)` returns and `Date.now()` in milliseconds. */
  datatype Env = Env(appUrl: string, hash: (string, nat) -> string, randomBytes: RandomBytes, now: int)

  /** What `crypto.randomBytes(32)` returns: 32 bytes. */
  type RandomBytes = s: seq<Byte> | |s| == 32 witness seq(32, _ => 0)

  /** The operations inside the `try` that can throw. `Hashing` stands for
      lines 49-51 (bcrypt, random bytes, date). */
  datatype Step = BeginStep | SelectStep | Hashing | CompanyStep | UserStep | SendStep | CommitStep

  /** The message handed to `resend.emails.send` (lines 71-76): a fixed
      template filled with the recipients, the user's first name and the
      verification link. */
  datatype Email = VerificationEmail(to: seq<string>, firstName: string, url: string) {

    function From(): string {
      "Onboarding <onboarding@your-domain.com>"
    }

    function Subject(): string {
      "Welcome! Please Verify Your Email Address"
    }

    /** Where the link starts in the HTML: after the greeting, the name and
        the sentence that opens the anchor. */
    function LinkOffset(): nat {
      |Greeting| + |firstName| + |Invitation|
    }

    /** The HTML body: the greeting names the user, and the anchor's target
        is exactly the verification link. */
    function Html(): (r: string)
      ensures |r| > LinkOffset() + |url|
      ensures r[|Greeting|..|Greeting| + |firstName|] == firstName
      ensures r[LinkOffset() - 1] == '"' && r[LinkOffset()..LinkOffset() + |url|] == url
      ensures r[LinkOffset() + |url|] == '"'
    {
      var head := Greeting + firstName + Invitation;
      assert head[|Greeting|..|Greeting| + |firstName|] == firstName;
      var r := head + url + Closing;
      assert r[..|head|] == head;
      assert r[|head|..|head| + |url|] == url;
      r
    }
  }

  const Greeting := "<h1>Welcome, "
  const Invitation := "!</h1><p>Thank you for registering. Please click the link below"
                      + " to verify your email address and activate your account:</p><a href=" + "\""
  const Closing := "\"" + ">Verify Email</a><p>This link will expire in one hour.</p>"

  const BcryptSaltRounds := 12
  const TokenLifetimeMs := 3600000
  const VerifyPath := "/api/verify-email?token="

  const MissingFields := "Missing required fields."
  const PasswordTooShort := "Password must be at least 8 characters long."

  const Conflict := Response(409, Error("A user with this email address already exists."), None)
  const Created := Response(201, Message("Registration successful! Please check your email to verify your account."), None)

  predicate AnyMissing(b: RegisterBody) {
    IsFalsy(b.email) || IsFalsy(b.password) || IsFalsy(b.companyName)
    || IsFalsy(b.firstName) || IsFalsy(b.lastName)
  }

  /** The error message of the validation at lines 32-37, or None when the
      body passes it. */
  function ValidationError(b: RegisterBody): (r: Option<string>)
    ensures r.None? <==> !AnyMissing(b) && |b.password.value| >= 8
    ensures r == Some(MissingFields) <==> AnyMissing(b)
    ensures r == Some(PasswordTooShort) <==> !AnyMissing(b) && |b.password.value| < 8
  {
    if AnyMissing(b) then Some(MissingFields)
    else if |b.password.value| < 8 then Some(PasswordTooShort)
    else None
  }

  /** A POST whose body passes validation: the only requests that reach
      the store. */
  predicate Admitted(httpMethod: string, b: RegisterBody) {
    httpMethod == "POST" && ValidationError(b).None?
  }

  /** With every field present, a password of exactly eight characters
      passes and one of seven does not. */
  lemma PasswordLengthBoundary(b: RegisterBody)
    requires !AnyMissing(b)
    ensures |b.password.value| == 8 ==> ValidationError(b).None?
    ensures |b.password.value| == 7 ==> ValidationError(b) == Some(PasswordTooShort)
  {
  }

  function EmailKey(b: RegisterBody): string
    requires !AnyMissing(b)
  {
    Lower(b.email.value)
  }

  /** `crypto.randomBytes(32).toString('hex')`. */
  function VerificationToken(bytes: seq<Byte>): (r: string)
    ensures |r| == 2 * |bytes|
    ensures HexDecode(r) == Some(bytes)
  {
    HexRoundTrip(bytes);
    HexEncode(bytes)
  }

  /** `${NEXT_PUBLIC_APP_URL}/api/verify-email?token=${verificationToken}`. */
  function VerificationUrl(appUrl: string, token: string): (r: string)
    ensures |r| == |appUrl| + |VerifyPath| + |token|
    ensures r[..|appUrl|] == appUrl
    ensures r[|appUrl|..|appUrl| + |VerifyPath|] == VerifyPath
    ensures r[|appUrl| + |VerifyPath|..] == token
  {
    appUrl + VerifyPath + token
  }

  /** The token of a verification link is the hex of 32 random bytes: 64
      hex digits, which the link carries unescaped and from which the bytes
      are recovered. */
  lemma VerificationLinkCarriesToken(appUrl: string, bytes: seq<Byte>)
    requires |bytes| == 32
    ensures var token := VerificationToken(bytes);
      && |token| == 64
      && (forall i :: 0 <= i < |token| ==> IsHexDigit(token[i]))
      && HexDecode(VerificationUrl(appUrl, token)[|appUrl| + |VerifyPath|..]) == Some(bytes)
  {
  }

  /** The email the handler sends for an admitted body: to the address as
      typed, not lower-cased. */
  function MailFor(b: RegisterBody, env: Env): (r: Email)
    requires !AnyMissing(b)
    ensures r.to == [b.email.value] && r.firstName == b.firstName.value
    ensures |r.url| == |env.appUrl| + |VerifyPath| + 64
    ensures r.url[..|env.appUrl|] == env.appUrl
    ensures r.url[|env.appUrl|..|env.appUrl| + |VerifyPath|] == VerifyPath
    ensures r.url[|env.appUrl| + |VerifyPath|..] == VerificationToken(env.randomBytes)
  {
    VerificationEmail([b.email.value], b.firstName.value,
                      VerificationUrl(env.appUrl, VerificationToken(env.randomBytes)))
  }

  /** The parameters of the company INSERT (line 58): the optional fields
      are passed as they came, absent or not. */
  function CompanyValues(b: RegisterBody): (r: NewCompany)
    requires !AnyMissing(b)
    ensures r.name == b.companyName.value && |r.name| > 0
    ensures r.vatTaxId == b.vatTaxId && r.billingAddress == b.billingAddress
  {
    NewCompany(b.companyName.value, b.vatTaxId, b.billingAddress)
  }

  /** The parameters of the user INSERT (line 66). */
  function UserValues(b: RegisterBody, env: Env, companyId: nat): (r: NewUser)
    requires !AnyMissing(b)
    ensures r.companyId == companyId
    ensures r.email == Lower(b.email.value) && IsLower(r.email) && |r.email| == |b.email.value|
    ensures r.passwordHash == env.hash(b.password.value, BcryptSaltRounds)
    ensures |r.token| == 64 && HexDecode(r.token) == Some(env.randomBytes)
    ensures r.expires == env.now + 3600000
  {
    NewUser(companyId, b.firstName.value, b.lastName.value, EmailKey(b),
            env.hash(b.password.value, BcryptSaltRounds), VerificationToken(env.randomBytes),
            env.now + TokenLifetimeMs)
  }

  /** The tables after a committed registration: one more company, and one
      more user under the lower-cased email. */
  function Registered(t: Tables, b: RegisterBody, env: Env): (r: Tables)
    requires !AnyMissing(b)
    ensures |r.companies| == |t.companies| + 1
    ensures r.users.Keys == t.users.Keys + {Lower(b.email.value)}
  {
    AddUser(AddCompany(t, CompanyValues(b)), UserValues(b, env, t.nextCompanyId))
  }

  /** A committed registration adds exactly one company and one user that
      points to it, with the columns the two INSERTs write; everything else
      is as before. */
  lemma RegisteredRows(t: Tables, b: RegisterBody, env: Env)
    requires !AnyMissing(b)
    ensures var r := Registered(t, b, env);
      && |r.companies| == |t.companies| + 1 && r.companies[..|t.companies|] == t.companies
      && r.users.Keys == t.users.Keys + {Lower(b.email.value)}
      && (forall e :: e in t.users && e != Lower(b.email.value) ==> r.users[e] == t.users[e])
      && r.nextCompanyId == t.nextCompanyId + 1 && r.nextUserId == t.nextUserId + 1
    ensures var c := Registered(t, b, env).companies[|t.companies|];
      && c.id == t.nextCompanyId && c.name == b.companyName.value
      && c.vatTaxId == b.vatTaxId && c.billingAddress == b.billingAddress
      && c.lifecycleStage == "Customer" && c.portalEnabled
    ensures var u := Registered(t, b, env).users[Lower(b.email.value)];
      && u.id == t.nextUserId && u.companyId == t.nextCompanyId
      && u.firstName == b.firstName.value && u.lastName == b.lastName.value
      && u.email == Lower(b.email.value)
      && u.passwordHash == env.hash(b.password.value, BcryptSaltRounds)
      && u.userRole == "Companies" && !u.isActive
      && u.verificationToken == Some(HexEncode(env.randomBytes))
      && |u.verificationToken.value| == 64
      && u.verificationExpires == Some(env.now + 3600000)
  {
  }

  /** Registering a new email keeps the tables well-formed. */
  lemma RegisteredWellFormed(t: Tables, b: RegisterBody, env: Env)
    requires WellFormed(t) && !AnyMissing(b)
    requires Lower(b.email.value) !in t.users
    ensures WellFormed(Registered(t, b, env))
  {
    CompanyWithUserWellFormed(t, CompanyValues(b), UserValues(b, env, t.nextCompanyId));
  }

  /** Lookup or statement failures that happen before the duplicate check
      has an answer. */
  predicate FailsBeforeLookup(fault: Option<Step>) {
    fault == Some(BeginStep) || fault == Some(SelectStep)
  }

  /** Lines 53-66: the company INSERT, then the user INSERT pointing to
      the company's new id. */
  method InsertAccount(client: Client, body: RegisterBody, env: Env, companyFails: bool, userFails: bool)
    returns (ok: bool, newUserName: string)
    requires !AnyMissing(body)
    requires EmailKey(body) !in client.store.users
    modifies client`sent, client.store
    ensures ok <==> !companyFails && !userFails
    ensures ok ==> client.store.Contents() == Registered(old(client.store.Contents()), body, env)
    ensures ok ==> newUserName == body.firstName.value
    ensures ok ==> client.sent == old(client.sent) + [Statement.InsertCompany(CompanyValues(body)),
                                                      Statement.InsertUser(UserValues(body, env, old(client.store.nextCompanyId)))]
    ensures old(client.sent) <= client.sent
  {
    newUserName := "";
    var companyId;
    ok, companyId := client.InsertCompany(CompanyValues(body), companyFails);
    if !ok {
      return;
    }
    ghost var t := client.store.Contents();
    assert t.companies[|t.companies| - 1].id == companyId;
    assert companyId in CompanyIds(t.companies);
    var userId;
    ok, userId, newUserName := client.InsertUser(UserValues(body, env, companyId), userFails);
  }

  /** Lines 48-78, once the SELECT found no user: hash, token and expiry,
      the two INSERTs, the email, and the COMMIT. On failure the transaction
      is either still open on its snapshot or was ended by a refused COMMIT,
      which left the tables at that snapshot. */
  method Provision(client: Client, body: RegisterBody, env: Env, fault: Option<Step>)
    returns (ok: bool, mail: Option<Email>)
    requires !AnyMissing(body) && !FailsBeforeLookup(fault)
    requires client.snapshot.Some?
    requires EmailKey(body) !in client.store.users
    modifies client`sent, client`snapshot, client.store
    ensures ok <==> fault.None?
    ensures ok ==>
      && client.store.Contents() == Registered(old(client.store.Contents()), body, env)
      && client.snapshot.None?
      && client.sent == old(client.sent) + [Statement.InsertCompany(CompanyValues(body)),
                                            Statement.InsertUser(UserValues(body, env, old(client.store.nextCompanyId))),
                                            Statement.Commit]
    ensures !ok ==>
      || client.snapshot == old(client.snapshot)
      || (client.snapshot.None? && client.store.Contents() == old(client.snapshot.value))
    ensures old(client.sent) <= client.sent
    ensures mail.Some? <==> fault.None? || fault == Some(SendStep) || fault == Some(CommitStep)
    ensures mail.Some? ==> mail == Some(MailFor(body, env))
  {
    mail := None;
    ok := fault != Some(Hashing);
    if !ok {
      return;
    }
    var newUserName;
    ok, newUserName := InsertAccount(client, body, env, fault == Some(CompanyStep), fault == Some(UserStep));
    if !ok {
      return;
    }
    var url := VerificationUrl(env.appUrl, VerificationToken(env.randomBytes));
    mail := Some(VerificationEmail([body.email.value], newUserName, url));
    ok := fault != Some(SendStep);
    if !ok {
      return;
    }
    ok := client.Commit(fault == Some(CommitStep));
    assert ok ==> fault.None? by {
      if ok && fault.Some? {
        match fault.value
        case BeginStep =>
        case SelectStep =>
        case Hashing =>
        case CompanyStep =>
        case UserStep =>
        case SendStep =>
        case CommitStep =>
      }
    }
  }

  /** What an admitted request leaves behind, given the tables before and
      after, the statements `sent` over the client, the transaction still
      open on it (`open`) and the email handed to the mail client. */
  ghost predicate Settled(before: Tables, after: Tables, sent: seq<Statement>,
                          b: RegisterBody, env: Env, fault: Option<Step>,
                          resp: Response, open: Option<Tables>, mail: Option<Email>)
    requires !AnyMissing(b)
  {
    var known := EmailKey(b) in before.users;
    && resp.status in {409, 201, 500}
    // A known email: 409 after BEGIN and the SELECT, the transaction left open.
    && (resp.status == 409 <==> !FailsBeforeLookup(fault) && known)
    && (resp.status == 409 ==>
          && resp == Conflict && after == before && open == Some(before)
          && sent == [Statement.Begin, Statement.SelectUserId(EmailKey(b))])
    // Success: exactly the two rows, committed.
    && (resp.status == 201 <==> fault.None? && !known)
    && (resp.status == 201 ==>
          && resp == Created && after == Registered(before, b, env) && open.None?
          && sent == [Statement.Begin, Statement.SelectUserId(EmailKey(b)),
                      Statement.InsertCompany(CompanyValues(b)),
                      Statement.InsertUser(UserValues(b, env, before.nextCompanyId)),
                      Statement.Commit])
    // Any other failure after BEGIN: ROLLBACK, 500, tables as before.
    && (resp.status == 500 ==>
          && resp == InternalError && after == before && open.None?
          && |sent| > 1 && sent[0] == Statement.Begin && sent[|sent| - 1] == Statement.Rollback)
    // The email goes out on success, and also when only the send or the
    // COMMIT after it fails.
    && (mail.Some? <==> !known && (fault.None? || fault == Some(SendStep) || fault == Some(CommitStep)))
    && (mail.Some? ==> mail == Some(MailFor(b, env)))
  }

  lemma SettledOnConflict(before: Tables, after: Tables, sent: seq<Statement>,
                          b: RegisterBody, env: Env, fault: Option<Step>, open: Option<Tables>)
    requires !AnyMissing(b) && !FailsBeforeLookup(fault) && EmailKey(b) in before.users
    requires after == before && open == Some(before)
    requires sent == [Statement.Begin, Statement.SelectUserId(EmailKey(b))]
    ensures Settled(before, after, sent, b, env, fault, Conflict, open, None)
  {
  }

  lemma SettledOnCreated(before: Tables, after: Tables, sent: seq<Statement>,
                         b: RegisterBody, env: Env, fault: Option<Step>, open: Option<Tables>, mail: Option<Email>)
    requires !AnyMissing(b) && EmailKey(b) !in before.users && fault.None?
    requires after == Registered(before, b, env) && open.None? && mail == Some(MailFor(b, env))
    requires sent == [Statement.Begin, Statement.SelectUserId(EmailKey(b)),
                      Statement.InsertCompany(CompanyValues(b)),
                      Statement.InsertUser(UserValues(b, env, before.nextCompanyId)),
                      Statement.Commit]
    ensures Settled(before, after, sent, b, env, fault, Created, open, mail)
  {
  }

  lemma SettledOnFailure(before: Tables, after: Tables, sent: seq<Statement>,
                         b: RegisterBody, env: Env, fault: Option<Step>, open: Option<Tables>, mail: Option<Email>)
    requires !AnyMissing(b) && fault.Some?
    requires FailsBeforeLookup(fault) || EmailKey(b) !in before.users
    requires after == before && open.None?
    requires |sent| > 1 && sent[0] == Statement.Begin && sent[|sent| - 1] == Statement.Rollback
    requires mail.Some? <==> EmailKey(b) !in before.users && (fault == Some(SendStep) || fault == Some(CommitStep))
    requires mail.Some? ==> mail == Some(MailFor(b, env))
    ensures Settled(before, after, sent, b, env, fault, InternalError, open, mail)
  {
  }

  /** The handler. `conn` is the pooled client (null when none was checked
      out) and `mail` the message handed to the mail client, if any. */
  method Handler(store: AccountStore, httpMethod: string, body: RegisterBody, env: Env, fault: Option<Step>)
    returns (resp: Response, conn: Client?, mail: Option<Email>)
    modifies store
    ensures old(store.Valid()) ==> store.Valid()
    // Validation happens before the store is touched.
    ensures httpMethod != "POST" ==> resp == MethodNotAllowed
    ensures httpMethod == "POST" && ValidationError(body).Some? ==>
      resp == Response(400, Error(ValidationError(body).value), None)
    ensures !Admitted(httpMethod, body) ==> conn == null && mail.None? && unchanged(store)
    // Every client checked out is released; the rest is Settled.
    ensures Admitted(httpMethod, body) ==>
      && conn != null && fresh(conn) && conn.store == store && conn.released
      && Settled(old(store.Contents()), store.Contents(), conn.sent, body, env, fault, resp, conn.snapshot, mail)
  {
    conn, mail := null, None;
    if httpMethod != "POST" {
      return MethodNotAllowed, conn, mail;
    }
    var invalid := ValidationError(body);
    if invalid.Some? {
      return Response(400, Error(invalid.value), None), conn, mail;
    }
    ghost var before := store.Contents();
    conn := new Client(store);
    resp, mail := Transaction(conn, body, env, fault);
    if resp.status == 201 && WellFormed(before) {
      RegisteredWellFormed(before, body, env);
    }
  }

  /** Lines 39-87 on a client fresh from the pool. */
  method Transaction(client: Client, body: RegisterBody, env: Env, fault: Option<Step>)
    returns (resp: Response, mail: Option<Email>)
    requires !AnyMissing(body) && |body.password.value| >= 8
    requires client.sent == [] && client.snapshot.None? && !client.released
    modifies client, client.store
    ensures client.released
    ensures Settled(old(client.store.Contents()), client.store.Contents(), client.sent,
                    body, env, fault, resp, client.snapshot, mail)
  {
    mail := None;
    var key := EmailKey(body);
    ghost var before := client.store.Contents();
    var ok := client.Begin(fault == Some(BeginStep));
    if !ok {
      resp := Abort(client);
      SettledOnFailure(before, client.store.Contents(), client.sent, body, env, fault, client.snapshot, mail);
      return;
    }
    var rows;
    ok, rows := client.SelectUserId(key, fault == Some(SelectStep));
    if !ok {
      resp := Abort(client);
      SettledOnFailure(before, client.store.Contents(), client.sent, body, env, fault, client.snapshot, mail);
      return;
    }
    if |rows| > 0 {
      resp := Conflict;
      client.Release();
      SettledOnConflict(before, client.store.Contents(), client.sent, body, env, fault, client.snapshot);
      return;
    }
    ok, mail := Provision(client, body, env, fault);
    if !ok {
      resp := Abort(client);
      SettledOnFailure(before, client.store.Contents(), client.sent, body, env, fault, client.snapshot, mail);
      return;
    }
    resp := Created;
    client.Release();
    SettledOnCreated(before, client.store.Contents(), client.sent, body, env, fault, client.snapshot, mail);
  }

  /** The `catch` and `finally` blocks (lines 81-87): ROLLBACK, 500, release. */
  method Abort(client: Client) returns (resp: Response)
    modifies client, client.store
    ensures resp == InternalError && client.released && client.snapshot.None?
    ensures client.sent == old(client.sent) + [Statement.Rollback]
    ensures client.store.Contents() == if old(client.snapshot).Some? then old(client.snapshot.value) else old(client.store.Contents())
  {
    client.Rollback();
    resp := InternalError;
    client.Release();
  }
}
