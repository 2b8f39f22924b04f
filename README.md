# Account provisioning and login, modelled in Dafny

This project models the account pipeline of a customer portal for an
importer-of-record service. It proves properties of the model. Three pieces of
the Next.js application make up the core:

- `POST /api/register` (`pages/api/register.js`) validates a sign-up form.
  Inside one Postgres transaction it rejects an email that is already
  registered, inserts a company and its first user, and sends a verification
  email. Then it commits. Any error rolls the transaction back.
- `POST /api/login` (`pages/api/login.js`) looks the user up by lower-cased
  email. It refuses unknown emails, inactive accounts and wrong passwords.
  Otherwise it sets an `auth_token` cookie holding a signed session token.
- The lead-qualification wizard of `pages/register.js` asks four button
  questions, one per step. Three answers disqualify the lead, who then sees
  only a message. Qualifying leads reach the details form at step 5.

Modules:

- `Wrappers` holds `Option`.
- `Text` holds ASCII lower-casing, hex encoding and decimal rendering. Each
  comes with its inverse or, for lower-casing, the fixed-point fact.
- `Http` holds the response datatype and JavaScript falsiness of a body field.
- `Accounts` holds the two tables as values (`Tables`) and their
  well-formedness. It also holds the database as a class (`AccountStore`) and
  a pooled connection as a class (`Client`).
  - `Client` keeps the statements it has sent.
  - `Client` keeps the snapshot taken at `BEGIN`, which `ROLLBACK` restores.
  - `Client` records whether it has been released.
- `RegisterApi` holds the registration handler, a method over a store. The
  tables a committed registration leaves are written as a pure function
  (`Registered`).
- `LoginApi` holds the login decision chain as a pure function
  (`LoginResponse`) and a handler method that is proved to compute it.
- `LeadWizard` holds the wizard's state as a value with a pure step function
  and, in `RegisterPage`, as a class whose two handler methods update it in
  place.
- `Pipeline` holds the properties that join the two handlers over one users
  table.

The environment becomes inputs:

- bcrypt's `hash` is a function parameter, with its random salt folded in.
  `compare` is another.
- `jwt.sign` is a function parameter, with `JWT_SECRET` folded in.
- `NEXT_PUBLIC_APP_URL`, the 32 bytes `crypto.randomBytes(32)` returns and
  `Date.now()` are values in `RegisterApi.Env`. The bytes have a type of
  their own, `RegisterApi.RandomBytes`, that fixes their length.
- An exception becomes an explicit `fault` argument that names the call
  inside the `try` that throws. Both handlers are proved for every fault.

Two behaviours are modelled as the code has them, although a design would
usually want otherwise:

- The verification email is not a best-effort notice sent after the
  registration is committed. In the code the email is sent inside
  the transaction, before `COMMIT` (`pages/api/register.js:71-78`). So a failed
  send rolls the account back and answers 500. A failed `COMMIT` after a
  successful send leaves an email in the user's inbox for an account that does
  not exist. `RegisterApi.Settled` states both cases.
- The 409 path returns after `BEGIN` and the `SELECT` with neither `COMMIT` nor
  `ROLLBACK` (`pages/api/register.js:44-46`). The model releases the client
  with its transaction still open: `open == Some(before)` in
  `RegisterApi.Settled`. Nothing was written, so the tables are unchanged.

## Model

| member | source | states |
|---|---|---|
| Text.Lower | pages/api/register.js:43 | `toLowerCase` keeps the length, maps each character through ASCII lower-casing and yields a lower-case string |
| Text.LowerFixesLower | pages/api/register.js:43-66 | a string with no upper-case letter is its own lower-case form, so a stored lower-cased email is found again by the lower-cased lookup |
| Text.HexEncode | pages/api/register.js:50 | `toString('hex')` gives two hex digits per byte |
| Text.HexRoundTrip | pages/api/register.js:50 | decoding the hex of any byte string gives the bytes back |
| Text.DecimalString | pages/api/login.js:47 | a number in a template literal is a non-empty string of decimal digits without a leading zero |
| Text.DecimalRoundTrip | pages/api/login.js:47 | reading the rendered digits back gives the number |
| Http.IsFalsy | pages/api/register.js:32 | JavaScript's `!field` for a field that is absent, null or a string: a field that is not falsy is present and non-empty |
| Accounts.AddCompany | pages/api/register.js:53-59 | the company INSERT appends one row with the sequence's next id, lifecycle stage 'Customer' and portal enabled, and leaves the users alone |
| Accounts.AddUser | pages/api/register.js:61-67 | the user INSERT adds one row under its email: the next id, the columns given, role 'Companies', inactive, with the token and its expiry; the companies are left alone |
| Accounts.FindUserForLogin | pages/api/login.js:27 | the login SELECT finds a row exactly when the email is a key, and returns its id, hash, role and active flag |
| Accounts.LoneCompanyIsOrphan | pages/api/register.js:53-84 | a company inserted without its user breaks well-formedness (it is an orphan), which is why both INSERTs commit or roll back together |
| Accounts.CompanyWithUserWellFormed | pages/api/register.js:53-66 | a company together with a user pointing to it, under a fresh lower-case email, keeps the tables well-formed |
| Accounts.EmailsUniqueIgnoringCase | pages/api/register.js:43-66 | in well-formed tables two emails that differ only in letter case are the same key |
| Accounts.Client.constructor | pages/api/register.js:39 | `pool.connect()` gives a client on the store with nothing sent, no transaction open and not yet released |
| Accounts.Client.Begin | pages/api/register.js:41 | `BEGIN` is sent and, unless it throws, the current tables are the snapshot |
| Accounts.Client.SelectUserId | pages/api/register.js:43 | the duplicate check is sent and returns the id under the email, or no rows |
| Accounts.Client.SelectLoginRow | pages/api/login.js:27 | the login query is sent and returns `FindUserForLogin` of the users |
| Accounts.Client.InsertCompany | pages/api/register.js:58-59 | the INSERT is sent; unless it throws, the tables become `AddCompany` of the old ones and the new id is returned |
| Accounts.Client.InsertUser | pages/api/register.js:66-67 | the INSERT is sent; it succeeds exactly when it does not throw, the email is new and the company exists, and then the tables become `AddUser` of the old ones and the first name is returned |
| Accounts.Client.Commit | pages/api/register.js:78 | `COMMIT` keeps the tables and ends the transaction; a refused `COMMIT` restores the snapshot |
| Accounts.Client.Rollback | pages/api/register.js:82 | `ROLLBACK` restores the snapshot of the open transaction, if there is one, and ends it |
| Accounts.Client.Release | pages/api/register.js:86 | the client is marked released |
| RegisterApi.ValidationError | pages/api/register.js:32-37 | 'Missing required fields.' exactly when one of the five fields is falsy, the password message exactly when all are present and the password is shorter than 8, no error otherwise |
| RegisterApi.PasswordLengthBoundary | pages/api/register.js:35-37 | a password of exactly 8 characters passes and one of 7 fails |
| RegisterApi.VerificationToken | pages/api/register.js:50 | the token is twice as long as the random bytes and decodes back to them |
| RegisterApi.VerificationUrl | pages/api/register.js:70 | the link is the app URL, then `/api/verify-email?token=`, then the token |
| RegisterApi.VerificationLinkCarriesToken | pages/api/register.js:50-70 | from 32 random bytes the token is 64 hex digits, and the tail of the link decodes back to the bytes |
| RegisterApi.Email.Html | pages/api/register.js:75 | the HTML greets the user by first name, and the anchor's target is exactly the verification link, between the two quotes of `href="…"` |
| RegisterApi.MailFor | pages/api/register.js:71-76 | the email goes to the address as typed, not lower-cased, and greets the first name. Its link is the app URL, then `/api/verify-email?token=`, then the token made from the same random bytes as the stored token. Sender and subject are the template's fixed `Email.From` and `Email.Subject` |
| RegisterApi.CompanyValues | pages/api/register.js:58 | the company INSERT gets the non-empty company name, and the tax id and billing address exactly as they came, even when absent |
| RegisterApi.UserValues | pages/api/register.js:66 | the user INSERT gets the new company's id and the lower-cased email. It gets the password's hash at cost 12, a 64-character token that decodes to the random bytes, and an expiry of now + 3600000 ms |
| RegisterApi.Registered | pages/api/register.js:53-79 | a committed registration leaves one more company, and one more user key: the lower-cased email |
| RegisterApi.RegisteredRows | pages/api/register.js:53-66 | a committed registration adds exactly one company and one user pointing to it, with every column as written: lower-cased email, the password's hash at cost 12 in place of the password, 'Companies', inactive, the hex token of 64 characters, expiry now + 3600000 ms; nothing else changes |
| RegisterApi.RegisteredWellFormed | pages/api/register.js:53-79 | committing a registration for a new email keeps the tables well-formed |
| RegisterApi.InsertAccount | pages/api/register.js:53-67 | both INSERTs succeed exactly when neither throws, and then the tables are `Registered` and the two statements were sent |
| RegisterApi.Provision | pages/api/register.js:48-78 | after the lookup: success exactly when nothing throws, then tables `Registered`, transaction closed; on failure the transaction is still open on its snapshot or was closed by a refused `COMMIT` at that snapshot; the email is handed over exactly when both INSERTs succeeded |
| RegisterApi.SettledOnConflict | pages/api/register.js:44-46 | a known email after a working lookup settles as 409 with the tables unchanged and the transaction left open |
| RegisterApi.SettledOnCreated | pages/api/register.js:78-79 | a committed registration settles as 201 with the tables `Registered` and the email sent |
| RegisterApi.SettledOnFailure | pages/api/register.js:81-84 | a failure after `BEGIN` settles as 500 after `ROLLBACK` with the tables as before |
| RegisterApi.Handler | pages/api/register.js:16-88 | non-POST is 405 and a failed validation is 400 with its message, both with no client and the store unchanged; an admitted request checks out a client, always releases it, and ends `Settled`: 409 iff the lower-cased email is known and neither `BEGIN` nor the lookup threw, 201 iff the email is new and nothing throws, else 500 with the tables as before; this holds for every table state, and well-formed tables stay well-formed |
| RegisterApi.Transaction | pages/api/register.js:39-87 | the `try`/`catch`/`finally` on a fresh client releases it and ends `Settled` |
| RegisterApi.Abort | pages/api/register.js:81-87 | the `catch` path sends `ROLLBACK`, restores the snapshot, answers 500 and releases the client |
| LoginApi.SessionCookie | pages/api/login.js:47 | the cookie is `auth_token=`, the token, the attributes starting with `;`, then the lifetime in decimal |
| LoginApi.SessionCookieMaxAge | pages/api/login.js:47 | the Max-Age reads back as 604800 seconds |
| LoginApi.SessionCookieText | pages/api/login.js:47 | the cookie is exactly `auth_token=<token>; HttpOnly; Secure; Path=/; SameSite=Strict; Max-Age=604800` |
| LoginApi.CookieToken | pages/api/login.js:47 | a header yields a token exactly when it starts with `auth_token=`, and the token is taken from what follows |
| LoginApi.CookieTokenRoundTrip | pages/api/login.js:47 | a token without `;` is read back from its cookie unchanged |
| LoginApi.Decide | pages/api/login.js:29-49 | after the lookup: a missing row is 401 and an inactive row is 403; only 200 carries a cookie |
| LoginApi.LoginResponse | pages/api/login.js:14-57 | non-POST is 405, a missing field is 400, a failed query is 500, and a cookie is set exactly on 200 |
| LoginApi.MissingFieldsIgnoreStore | pages/api/login.js:21-23 | 400 does not depend on the table, the crypto or any fault: it comes before the lookup |
| LoginApi.UnknownEmailRejected | pages/api/login.js:27-31 | an email whose lower-cased form is not a key gets 401 'Invalid credentials.' |
| LoginApi.InactiveIgnoresPassword | pages/api/login.js:35-37 | an inactive account gets 403 for any password and any comparison function, even one that throws: the password is never compared |
| LoginApi.WrongPasswordLooksUnknown | pages/api/login.js:29-43 | a wrong password for an active account gets exactly the response an unknown email gets |
| LoginApi.SuccessSetsSessionCookie | pages/api/login.js:45-49 | an active account with a matching password gets 200 'Login successful.' and the exact cookie, its token signed over exactly the row's id and role with lifetime '7d' |
| LoginApi.LoggedInIff | pages/api/login.js:15-49 | 200 exactly when it is a POST with both fields, the lower-cased email is known, the account is active, the password matches and nothing throws |
| LoginApi.Handler | pages/api/login.js:14-57 | the response is `LoginResponse` of the store's users; the store is not modified; an admitted request checks out a client, sends only the SELECT on the lower-cased email and releases it; otherwise no client is used |
| LeadWizard.Disqualification | pages/register.js:60-74 | exactly the three answers service OTHER, healthCertificate YES and vatRefund YES disqualify; they give 'Sorry, we only provide IOR services.', the Health Cargo message and the VAT refund message respectively |
| LeadWizard.Next | pages/register.js:56-77 | the answer is always recorded; a disqualifying answer sets the flag and its message and keeps the step; any other answer adds one to the step and keeps flag and message |
| LeadWizard.Buttons | pages/register.js:118-150 | no button is shown once disqualified, nor outside steps 1 to 4 |
| LeadWizard.Render | pages/register.js:112-170 | only the message is shown exactly when disqualified; the details form is shown exactly at step 5 when not disqualified |
| LeadWizard.DisqualifiedStays | pages/register.js:56-77 | once set, the flag is never reset, whatever `handleNext` is called with |
| LeadWizard.DisqualifiedIsTerminal | pages/register.js:112-114 | a disqualified lead has no valid click, so its state and its screen never change |
| LeadWizard.ProgressStep | pages/register.js:118-152 | clicking a shown button keeps the progress invariant: each step passed was passed with a qualifying answer |
| LeadWizard.ProgressRun | pages/register.js:118-152 | the progress invariant holds after any run of shown-button clicks |
| LeadWizard.DetailsFormNeedsQualifyingAnswers | pages/register.js:118-152 | from the start, step 5 is reached only with service IMPORT_DIRECT, IMPORT_INDIRECT or EXPORT_DIRECT, healthCertificate NO, vatRefund NO and serviceType ONE_TIME or MONTHLY; a disqualified lead stopped before step 4 with one of the three messages |
| LeadWizard.QualifyingAnswersReachDetails | pages/register.js:118-152 | conversely, each qualifying set of answers reaches the details form in four shown-button clicks |
| LeadWizard.RegisterPage.constructor | pages/register.js:38-53 | the page starts at step 1 with all nine fields empty and not disqualified |
| LeadWizard.RegisterPage.HandleNext | pages/register.js:56-77 | the fields are updated in place to `Next` of the old state |
| LeadWizard.RegisterPage.HandleFormChange | pages/register.js:79-82 | only the named field of `formData` changes |
| Pipeline.NewAccountNotActivated | pages/api/login.js:35-37 | right after registering, a login with the same email in any letter case and any password gets 403 |
| Pipeline.SecondRegistrationConflicts | pages/api/register.js:43-46 | once an email is registered, any later registration with it in any letter case that gets past its lookup is 409, sends no email and writes nothing |
| Pipeline.ActivatedAccountLogsIn | pages/api/login.js:39-49 | if the new row is later marked active, and the comparison accepts each password against its own hash, the registered password logs in with a token signed over the new user's id and role 'Companies' |
| Pipeline.NewAccountRegistered | pages/api/register.js:41-79 | on an empty store a registration with no fault is 201 and commits exactly `Registered`, with the verification email sent |
| Pipeline.FirstSignUp | pages/api/register.js:16-88 | on a fresh store: sign-up is 201, the same address re-typed in another case is then 409, and logging in with it is 403 |

## Left out

- `pool.connect()` failing is not modelled. It happens outside the `try`, and the pool is I/O. Every checked-out client is modelled as valid.
- `ROLLBACK` failing inside the `catch` is not modelled. In the code that exception would escape the handler.
- `console.error` logging is left out.
- JSON field types are not modelled. Every body field is a string or absent. Non-string values (numbers, arrays) that JavaScript would coerce are left out.
- Text.Lower: `toLowerCase` is modelled on ASCII letters only. Unicode case mapping, which can change a string's length, is not modelled.
- RegisterApi.ValidationError: `password.length` counts UTF-16 code units. The model counts characters.
- bcrypt's random salt is folded into the `hash` parameter. The model does not capture that two hashes of one password differ.
- No property of JWT tokens themselves is modelled: signature checks, expiry, and the session reader. Those lie outside these files.
- Email activation (`/api/verify-email`) is not part of this model. So `Pipeline.ActivatedAccountLogsIn` takes an activated row as its hypothesis.
- Concurrency is not modelled. Two registrations racing between the SELECT and the INSERT are out of scope, as is what the database's unique constraint then decides.
- Postgres sequences are restored on `ROLLBACK` in the model, so a failed registration leaves the id counters as they were. A real sequence does not give back ids it handed out.
- The mail client's `send` is a call that either returns or throws (`SendStep`). An error reported in its return value rather than thrown is not modelled.
- A pooled client that is handed out again after the 409 path, with its transaction still open, is not modelled. The model ends at `release`.
- The React rendering, `useRouter`, and `handleSubmit` with its `fetch` call are not modelled.
- The `error` and `isSubmitting` state and the text inputs of the details form are left out. `HandleFormChange` models what those inputs call.
- The `Set-Cookie` header and the status are returned in `Http.Response` rather than set on a mutable response object.
