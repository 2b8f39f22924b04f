/** `POST /api/login`: checks the method and the two required fields, looks
    the user up by lower-cased email, refuses unknown emails, inactive
    accounts and wrong passwords, and on success sets a session cookie
    holding a signed token.

    `bcrypt.compare` and `jwt.sign` (with `JWT_SECRET` folded in) are
    function parameters; `fault` picks the awaited call that throws. */
module LoginApi {

  import opened Wrappers
  import opened Text
  import opened Http
  import opened Accounts

  /** `req.body` of a login; an absent or null field is None. */
  datatype LoginBody = LoginBody(email: Option<string>, password: Option<string>)

  /** The payload `jwt.sign` receives. */
  datatype SessionClaims = SessionClaims(userId: nat, userRole: string)

  /** The awaited calls inside the `try` that can throw. */
  datatype LoginStep = Query | Compare | Sign

  const SessionLifetime := "7d"
  const SessionMaxAgeSeconds := 7 * 24 * 60 * 60
  const CookieName := "auth_token="
  const CookieAttributes := ";" + " HttpOnly; Secure; Path=/; SameSite=Strict; Max-Age="

  const MissingCredentials := Response(400, Error("Email and password are required."), None)
  const InvalidCredentials := Response(401, Error("Invalid credentials."), None)
  const NotActivated := Response(403, Error("Account not activated. Please verify your email address."), None)
  const LoggedIn := "Login successful."

  predicate AnyMissing(b: LoginBody) {
    IsFalsy(b.email) || IsFalsy(b.password)
  }

  /** A POST with both fields: the only requests that check out a client. */
  predicate Admitted(httpMethod: string, b: LoginBody) {
    httpMethod == "POST" && !AnyMissing(b)
  }

  /** The `Set-Cookie` header of line 47: the token, the attributes, and
      the lifetime in seconds rendered in decimal. */
  function SessionCookie(token: string): (r: string)
    ensures |r| == |CookieName| + |token| + |CookieAttributes| + |DecimalString(SessionMaxAgeSeconds)|
    ensures r[..|CookieName|] == CookieName
    ensures r[|CookieName|..|CookieName| + |token|] == token
    ensures r[|CookieName| + |token|] == ';'
    ensures r[|CookieName| + |token| + |CookieAttributes|..] == DecimalString(SessionMaxAgeSeconds)
  {
    var head := CookieName + token + CookieAttributes;
    var r := head + DecimalString(SessionMaxAgeSeconds);
    assert r[..|head|] == head;
    assert CookieAttributes[0] == ';';
    r
  }

  /** The lifetime reads back as seven days in seconds... */
  lemma SessionCookieMaxAge(token: string)
    ensures var c := SessionCookie(token);
      DecimalValue(c[|CookieName| + |token| + |CookieAttributes|..]) == 604800
  {
    DecimalRoundTrip(SessionMaxAgeSeconds);
  }

  /** ...and is written `604800`. */
  lemma SessionCookieText(token: string)
    ensures SessionCookie(token) == CookieName + token + CookieAttributes + "604800"
  {
    // Rendering 604800 one digit at a time keeps the evaluation cheap.
    assert DecimalString(6) == "6";
    assert DecimalString(60) == "60";
    assert DecimalString(604) == "604";
    assert DecimalString(6048) == "6048";
    assert DecimalString(60480) == "60480";
    assert DecimalString(604800) == "604800";
  }

  /** The text of `s` before its first `;`. */
  function UpToSemicolon(s: string): (r: string)
    ensures r <= s
    ensures forall i :: 0 <= i < |r| ==> r[i] != ';'
    ensures |r| < |s| ==> s[|r|] == ';'
  {
    if s == [] || s[0] == ';' then [] else [s[0]] + UpToSemicolon(s[1..])
  }

  /** The session token a `Set-Cookie` header carries, as a browser reads
      it back: the value of `auth_token` up to the first attribute. */
  function CookieToken(header: string): (r: Option<string>)
    ensures r.Some? <==> CookieName <= header
    ensures r.Some? ==> r.value <= header[|CookieName|..]
  {
    if CookieName <= header then Some(UpToSemicolon(header[|CookieName|..])) else None
  }

  lemma {:induction false} UpToSemicolonStops(t: string, rest: string)
    requires forall i :: 0 <= i < |t| ==> t[i] != ';'
    ensures UpToSemicolon(t + ";" + rest) == t
  {
    if t != [] {
      assert (t + ";" + rest)[1..] == t[1..] + ";" + rest;
      UpToSemicolonStops(t[1..], rest);
    }
  }

  /** A token without `;` (a JWT never holds one) is read back from the
      cookie unchanged. */
  lemma CookieTokenRoundTrip(token: string)
    requires forall i :: 0 <= i < |token| ==> token[i] != ';'
    ensures CookieToken(SessionCookie(token)) == Some(token)
  {
    var c := SessionCookie(token);
    var rest := c[|CookieName| + |token| + 1..];
    assert c[|CookieName|..] == c[|CookieName|..|CookieName| + |token|] + [c[|CookieName| + |token|]] + rest;
    UpToSemicolonStops(token, rest);
  }

  /** Lines 29-49: the answer once the SELECT returned `row`. */
  function Decide(b: LoginBody, row: Option<LoginRow>, compare: (string, string) -> bool,
                  sign: (SessionClaims, string) -> string, fault: Option<LoginStep>): (r: Response)
    requires !AnyMissing(b)
    ensures r.status in {200, 401, 403, 500}
    ensures r.setCookie.Some? <==> r.status == 200
    ensures row.None? ==> r == InvalidCredentials
    ensures row.Some? && !row.value.isActive ==> r == NotActivated
  {
    if row.None? then InvalidCredentials
    else if !row.value.isActive then NotActivated
    else if fault == Some(Compare) then InternalError
    else if !compare(b.password.value, row.value.passwordHash) then InvalidCredentials
    else if fault == Some(Sign) then InternalError
    else
      var token := sign(SessionClaims(row.value.id, row.value.userRole), SessionLifetime);
      Response(200, Message(LoggedIn), Some(SessionCookie(token)))
  }

  /** The whole handler as a function of the request and the users table. */
  function LoginResponse(httpMethod: string, b: LoginBody, users: map<string, User>,
                         compare: (string, string) -> bool, sign: (SessionClaims, string) -> string,
                         fault: Option<LoginStep>): (r: Response)
    ensures httpMethod != "POST" ==> r == MethodNotAllowed
    ensures httpMethod == "POST" && AnyMissing(b) ==> r == MissingCredentials
    ensures Admitted(httpMethod, b) && fault == Some(Query) ==> r == InternalError
    ensures r.setCookie.Some? <==> r.status == 200
  {
    if httpMethod != "POST" then MethodNotAllowed
    else if AnyMissing(b) then MissingCredentials
    else if fault == Some(Query) then InternalError
    else Decide(b, FindUserForLogin(users, Lower(b.email.value)), compare, sign, fault)
  }

  /** 400 is decided from the body alone: no table, hasher, signer or
      fault can change it. */
  lemma MissingFieldsIgnoreStore(b: LoginBody, users1: map<string, User>, users2: map<string, User>,
                                 compare1: (string, string) -> bool, compare2: (string, string) -> bool,
                                 sign1: (SessionClaims, string) -> string, sign2: (SessionClaims, string) -> string,
                                 fault1: Option<LoginStep>, fault2: Option<LoginStep>)
    requires AnyMissing(b)
    ensures LoginResponse("POST", b, users1, compare1, sign1, fault1)
         == LoginResponse("POST", b, users2, compare2, sign2, fault2)
         == MissingCredentials
  {
  }

  /** An unknown email gets 401 (the email is looked up lower-cased). */
  lemma UnknownEmailRejected(b: LoginBody, users: map<string, User>,
                             compare: (string, string) -> bool, sign: (SessionClaims, string) -> string,
                             fault: Option<LoginStep>)
    requires !AnyMissing(b) && fault != Some(Query)
    requires Lower(b.email.value) !in users
    ensures LoginResponse("POST", b, users, compare, sign, fault) == InvalidCredentials
  {
  }

  /** An inactive account gets 403 whatever the password and whatever the
      comparison would have said or done: the password is never compared. */
  lemma InactiveIgnoresPassword(b1: LoginBody, b2: LoginBody, users: map<string, User>,
                                compare1: (string, string) -> bool, compare2: (string, string) -> bool,
                                sign: (SessionClaims, string) -> string,
                                fault1: Option<LoginStep>, fault2: Option<LoginStep>)
    requires !AnyMissing(b1) && !AnyMissing(b2) && Lower(b1.email.value) == Lower(b2.email.value)
    requires fault1 != Some(Query) && fault2 != Some(Query)
    requires Lower(b1.email.value) in users && !users[Lower(b1.email.value)].isActive
    ensures LoginResponse("POST", b1, users, compare1, sign, fault1)
         == LoginResponse("POST", b2, users, compare2, sign, fault2)
         == NotActivated
  {
  }

  /** A wrong password for an active account gets exactly the response an
      unknown email gets, so the two cannot be told apart. */
  lemma WrongPasswordLooksUnknown(b: LoginBody, users: map<string, User>, other: map<string, User>,
                                  compare: (string, string) -> bool, sign: (SessionClaims, string) -> string,
                                  fault: Option<LoginStep>)
    requires !AnyMissing(b) && fault != Some(Query) && fault != Some(Compare)
    requires Lower(b.email.value) in users && users[Lower(b.email.value)].isActive
    requires !compare(b.password.value, users[Lower(b.email.value)].passwordHash)
    requires Lower(b.email.value) !in other
    ensures LoginResponse("POST", b, users, compare, sign, fault)
         == LoginResponse("POST", b, other, compare, sign, fault)
         == InvalidCredentials
  {
  }

  /** Success: an active account and a matching password, with no call
      failing, get 200 and a cookie whose token is signed over exactly the
      user's id and role for seven days. */
  lemma SuccessSetsSessionCookie(b: LoginBody, users: map<string, User>,
                                 compare: (string, string) -> bool, sign: (SessionClaims, string) -> string)
    requires !AnyMissing(b)
    requires Lower(b.email.value) in users
    requires users[Lower(b.email.value)].isActive
    requires compare(b.password.value, users[Lower(b.email.value)].passwordHash)
    ensures var u := users[Lower(b.email.value)];
      var token := sign(SessionClaims(u.id, u.userRole), "7d");
      LoginResponse("POST", b, users, compare, sign, None)
        == Response(200, Message(LoggedIn), Some(CookieName + token + CookieAttributes + "604800"))
  {
    var u := users[Lower(b.email.value)];
    SessionCookieText(sign(SessionClaims(u.id, u.userRole), "7d"));
  }

  /** The order of the checks: 200 exactly when every check passes and no
      call throws. */
  lemma LoggedInIff(httpMethod: string, b: LoginBody, users: map<string, User>,
                    compare: (string, string) -> bool, sign: (SessionClaims, string) -> string,
                    fault: Option<LoginStep>)
    ensures LoginResponse(httpMethod, b, users, compare, sign, fault).status == 200
        <==> && Admitted(httpMethod, b) && fault.None?
             && Lower(b.email.value) in users
             && users[Lower(b.email.value)].isActive
             && compare(b.password.value, users[Lower(b.email.value)].passwordHash)
  {
    if Admitted(httpMethod, b) && fault != Some(Query) {
      var key := Lower(b.email.value);
      var row := FindUserForLogin(users, key);
      assert LoginResponse(httpMethod, b, users, compare, sign, fault) == Decide(b, row, compare, sign, fault);
      if row.Some? {
        assert row.value.isActive == users[key].isActive;
        assert row.value.passwordHash == users[key].passwordHash;
      }
      if fault.Some? {
        match fault.value
        case Query =>
        case Compare =>
        case Sign =>
      }
    }
  }

  /** The handler. `conn` is the pooled client (null when none was checked
      out). The store is not in any `modifies` clause: login writes
      nothing, and its one statement is the SELECT. */
  method Handler(store: AccountStore, httpMethod: string, body: LoginBody,
                 compare: (string, string) -> bool, sign: (SessionClaims, string) -> string,
                 fault: Option<LoginStep>)
    returns (resp: Response, conn: Client?)
    ensures resp == LoginResponse(httpMethod, body, store.users, compare, sign, fault)
    ensures !Admitted(httpMethod, body) ==> conn == null
    ensures Admitted(httpMethod, body) ==>
      && conn != null && fresh(conn) && conn.store == store && conn.released
      && conn.sent == [Statement.SelectLoginRow(Lower(body.email.value))]
  {
    conn := null;
    if httpMethod != "POST" {
      return MethodNotAllowed, conn;
    }
    if IsFalsy(body.email) || IsFalsy(body.password) {
      return MissingCredentials, conn;
    }
    conn := new Client(store);
    var ok, row := conn.SelectLoginRow(Lower(body.email.value), fault == Some(Query));
    if !ok {
      resp := InternalError;
    } else {
      resp := Decide(body, row, compare, sign, fault);
    }
    conn.Release();
  }
}
