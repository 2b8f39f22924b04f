/** How the two API handlers meet over the same users table: a fresh
    registration cannot log in until its account is activated, the same
    email in any letter case cannot register twice, and an activated
    account logs in with the password it registered with. */
module Pipeline {

  import opened Wrappers
  import opened Text
  import opened Http
  import opened Accounts
  import RegisterApi
  import LoginApi

  /** bcrypt as the two handlers rely on it: a password matches its own
      hash at the cost the registration uses. */
  ghost predicate SoundHasher(hash: (string, nat) -> string, compare: (string, string) -> bool) {
    forall p :: compare(p, hash(p, RegisterApi.BcryptSaltRounds))
  }

  /** A login with the registered email, typed in any letter case and with
      any password, is refused with 403 until the account is activated. */
  lemma NewAccountNotActivated(t: Tables, b: RegisterApi.RegisterBody, env: RegisterApi.Env,
                               lb: LoginApi.LoginBody, compare: (string, string) -> bool,
                               sign: (LoginApi.SessionClaims, string) -> string, fault: Option<LoginApi.LoginStep>)
    requires !RegisterApi.AnyMissing(b) && !LoginApi.AnyMissing(lb)
    requires Lower(lb.email.value) == Lower(b.email.value)
    requires fault != Some(LoginApi.Query)
    ensures LoginApi.LoginResponse("POST", lb, RegisterApi.Registered(t, b, env).users, compare, sign, fault)
         == LoginApi.NotActivated
  {
    RegisterApi.RegisteredRows(t, b, env);
  }

  /** Once registered, the same email in any letter case is a conflict for
      every later registration that gets past its lookup. */
  lemma SecondRegistrationConflicts(t: Tables, b: RegisterApi.RegisterBody, env: RegisterApi.Env,
                                    b2: RegisterApi.RegisterBody, env2: RegisterApi.Env,
                                    fault: Option<RegisterApi.Step>, after: Tables, sent: seq<Statement>,
                                    resp: Response, open: Option<Tables>, mail: Option<RegisterApi.Email>)
    requires !RegisterApi.AnyMissing(b) && !RegisterApi.AnyMissing(b2)
    requires Lower(b2.email.value) == Lower(b.email.value)
    requires !RegisterApi.FailsBeforeLookup(fault)
    requires RegisterApi.Settled(RegisterApi.Registered(t, b, env), after, sent, b2, env2, fault, resp, open, mail)
    ensures resp == RegisterApi.Conflict && mail.None?
    ensures after == RegisterApi.Registered(t, b, env)
  {
    RegisterApi.RegisteredRows(t, b, env);
  }

  /** If the registered row is later marked active, the password it was
      registered with logs in and the cookie carries a token signed over
      the new user's id and role. */
  lemma ActivatedAccountLogsIn(t: Tables, b: RegisterApi.RegisterBody, env: RegisterApi.Env,
                               compare: (string, string) -> bool,
                               sign: (LoginApi.SessionClaims, string) -> string)
    requires !RegisterApi.AnyMissing(b) && |b.password.value| >= 8
    requires SoundHasher(env.hash, compare)
    ensures var users := RegisterApi.Registered(t, b, env).users;
      var key := Lower(b.email.value);
      var active := users[key := users[key].(isActive := true)];
      var lb := LoginApi.LoginBody(b.email, b.password);
      var token := sign(LoginApi.SessionClaims(t.nextUserId, "Companies"), "7d");
      LoginApi.LoginResponse("POST", lb, active, compare, sign, None)
        == Response(200, Message(LoginApi.LoggedIn),
                    Some(LoginApi.CookieName + token + LoginApi.CookieAttributes + "604800"))
  {
    RegisterApi.RegisteredRows(t, b, env);
    var users := RegisterApi.Registered(t, b, env).users;
    var key := Lower(b.email.value);
    var active := users[key := users[key].(isActive := true)];
    var lb := LoginApi.LoginBody(b.email, b.password);
    assert compare(b.password.value, active[key].passwordHash);
    LoginApi.SuccessSetsSessionCookie(lb, active, compare, sign);
  }

  /** A first sign-up on an empty store: the registration succeeds, the
      same address typed in another letter case is then a conflict, and
      logging in with it before activation is refused. */
  method FirstSignUp(body: RegisterApi.RegisterBody, retyped: string, env: RegisterApi.Env,
                     compare: (string, string) -> bool, sign: (LoginApi.SessionClaims, string) -> string)
    returns (first: Response, second: Response, login: Response)
    requires RegisterApi.ValidationError(body).None?
    requires Lower(retyped) == Lower(body.email.value)
    ensures first == RegisterApi.Created
    ensures second == RegisterApi.Conflict
    ensures login == LoginApi.NotActivated
  {
    var store := new AccountStore();
    ghost var empty := store.Contents();
    var conn, mail;
    first, conn, mail := RegisterApi.Handler(store, "POST", body, env, None);
    ghost var registered := store.Contents();
    NewAccountRegistered(empty, registered, conn.sent, body, env, first, conn.snapshot, mail);
    assert registered == RegisterApi.Registered(empty, body, env);

    var again := body.(email := Some(retyped));
    second, conn, mail := RegisterApi.Handler(store, "POST", again, env, None);
    SecondRegistrationConflicts(empty, body, env, again, env, None, store.Contents(), conn.sent,
                                second, conn.snapshot, mail);
    assert store.Contents() == registered;

    var lb := LoginApi.LoginBody(again.email, body.password);
    var lconn;
    login, lconn := LoginApi.Handler(store, "POST", lb, compare, sign, None);
    NewAccountNotActivated(empty, body, env, lb, compare, sign, None);
  }

  /** An empty store has no user with the email, so nothing fails and the
      registration is committed. */
  lemma NewAccountRegistered(empty: Tables, after: Tables, sent: seq<Statement>, b: RegisterApi.RegisterBody,
                             env: RegisterApi.Env, resp: Response, open: Option<Tables>, mail: Option<RegisterApi.Email>)
    requires !RegisterApi.AnyMissing(b) && empty.users == map[]
    requires RegisterApi.Settled(empty, after, sent, b, env, None, resp, open, mail)
    ensures resp == RegisterApi.Created && after == RegisterApi.Registered(empty, b, env)
    ensures mail == Some(RegisterApi.MailFor(b, env))
  {
  }
}
