/** The admin credential handlers of the backend: registration and login over
    the admin table, with bcrypt and jsonwebtoken as uninterpreted functions. */
module AuthController {
  import opened Wrappers

  /** A row of the admin table. */
  datatype Admin = Admin(id: nat, username: string, email: string, passwordHash: string)

  /** `{id, username, email}`: what a response shows of an admin, and the claims of a token. */
  datatype AdminView = AdminView(id: nat, username: string, email: string)

  function View(a: Admin): (v: AdminView)
    ensures v.id == a.id && v.username == a.username && v.email == a.email
  {
    AdminView(a.id, a.username, a.email)
  }

  /** JSON bodies of the two handlers. */
  datatype Body =
    | Message(message: string)
    | Registered(message: string, admin: AdminView)
    | LoggedIn(message: string, token: string, admin: AdminView)

  datatype Response = Response(status: int, body: Body)

  /** `bcrypt.hash`, `bcrypt.compare` and `jwt.sign(claims, secret, {expiresIn})`. */
  datatype Crypto = Crypto(
    hash: string -> string,
    compare: (string, string) -> bool,
    sign: (AdminView, string, nat) -> string)

  /** The one thing assumed of bcrypt: a password matches its own hash. */
  ghost predicate HashAgrees(c: Crypto) {
    forall p :: c.compare(p, c.hash(p))
  }

  const DEV_SECRET := "dev_secret"

  /** `expiresIn: "1h"`, in seconds. */
  const TOKEN_LIFETIME: nat := 3600

  /** `process.env.JWT_SECRET || "dev_secret"`: an unset or empty variable falls back. */
  function JwtSecret(env: Option<string>): (secret: string)
    ensures secret != ""
    ensures Truthy(env) ==> secret == env.value
    ensures !Truthy(env) ==> secret == DEV_SECRET
  {
    if Truthy(env) then env.value else DEV_SECRET
  }

  /** The admin table is keyed by email, so no two admins share one; ids are
      positive, distinct and below the next id the database hands out. */
  ghost predicate TableValid(rows: map<string, Admin>, nextId: nat) {
    && 0 < nextId
    && (forall e :: e in rows ==> rows[e].email == e && 0 < rows[e].id < nextId)
    && (forall e1, e2 :: e1 in rows && e2 in rows && e1 != e2 ==> rows[e1].id != rows[e2].id)
  }

  // ---------------------------------------------------------------- register

  datatype RegisterRequest = RegisterRequest(username: Option<string>, email: Option<string>, password: Option<string>)

  predicate HasAllFields(req: RegisterRequest) {
    Truthy(req.username) && Truthy(req.email) && Truthy(req.password)
  }

  /** The response and the admin table after one registration. */
  datatype RegisterOutcome = RegisterOutcome(response: Response, rows: map<string, Admin>, nextId: nat)

  const ALL_FIELDS_REQUIRED := Response(400, Message("All fields are required"))
  const EMAIL_IN_USE := Response(400, Message("Email already in use"))

  /** `registerAdmin`: the missing-field check, then the duplicate-email check, then the insert. */
  function Register(rows: map<string, Admin>, nextId: nat, req: RegisterRequest, hash: string -> string): (out: RegisterOutcome)
    requires TableValid(rows, nextId)
    ensures TableValid(out.rows, out.nextId)
    ensures out.response.status == 201 <==> HasAllFields(req) && req.email.value !in rows
    ensures out.response.status != 201 ==> out.rows == rows && out.nextId == nextId
    ensures out.response.status == 201 ==>
      && out.rows.Keys == rows.Keys + {req.email.value}
      && (forall e :: e in rows ==> out.rows[e] == rows[e])
      && out.rows[req.email.value] == Admin(nextId, req.username.value, req.email.value, hash(req.password.value))
      && out.response.body == Registered("Admin registered", View(out.rows[req.email.value]))
  {
    if !HasAllFields(req) then
      RegisterOutcome(ALL_FIELDS_REQUIRED, rows, nextId)
    else if req.email.value in rows then
      RegisterOutcome(EMAIL_IN_USE, rows, nextId)
    else
      var admin := Admin(nextId, req.username.value, req.email.value, hash(req.password.value));
      RegisterOutcome(Response(201, Registered("Admin registered", View(admin))), rows[req.email.value := admin], nextId + 1)
  }

  /** The two rejections of a registration, with their messages. */
  lemma RegisterRejections(rows: map<string, Admin>, nextId: nat, req: RegisterRequest, hash: string -> string)
    requires TableValid(rows, nextId)
    ensures !HasAllFields(req) ==> Register(rows, nextId, req, hash).response == ALL_FIELDS_REQUIRED
    ensures HasAllFields(req) && req.email.value in rows ==> Register(rows, nextId, req, hash).response == EMAIL_IN_USE
  {
  }

  /** The response of a registration does not depend on the password hash:
      the hash is stored, never returned. */
  lemma RegisterResponseHidesHash(rows: map<string, Admin>, nextId: nat, req: RegisterRequest, h1: string -> string, h2: string -> string)
    requires TableValid(rows, nextId)
    ensures Register(rows, nextId, req, h1).response == Register(rows, nextId, req, h2).response
  {
  }

  /** A second registration with an email already registered fails, whatever its other fields. */
  lemma RegisterTwiceConflicts(rows: map<string, Admin>, nextId: nat, first: RegisterRequest, second: RegisterRequest, hash: string -> string)
    requires TableValid(rows, nextId)
    requires Register(rows, nextId, first, hash).response.status == 201
    requires HasAllFields(second) && second.email == first.email
    ensures var out := Register(rows, nextId, first, hash);
      Register(out.rows, out.nextId, second, hash).response == EMAIL_IN_USE
  {
  }

  // ------------------------------------------------------------------- login

  datatype LoginRequest = LoginRequest(email: Option<string>, password: Option<string>)

  const CREDENTIALS_REQUIRED := Response(400, Message("Email and password required"))
  const INVALID_CREDENTIALS := Response(401, Message("Invalid credentials"))

  /** `loginAdmin`: reads the table, never changes it. */
  function Login(rows: map<string, Admin>, req: LoginRequest, crypto: Crypto, secret: string): (r: Response)
    ensures r.status == 200 <==>
      Truthy(req.email) && Truthy(req.password) && req.email.value in rows
      && crypto.compare(req.password.value, rows[req.email.value].passwordHash)
    ensures r.status == 200 ==>
      var v := View(rows[req.email.value]);
      r.body == LoggedIn("Login successful", crypto.sign(v, secret, TOKEN_LIFETIME), v)
    ensures r.status != 200 ==> r.body.Message?
  {
    if !Truthy(req.email) || !Truthy(req.password) then
      CREDENTIALS_REQUIRED
    else if req.email.value !in rows then
      INVALID_CREDENTIALS
    else
      var admin := rows[req.email.value];
      if !crypto.compare(req.password.value, admin.passwordHash) then
        INVALID_CREDENTIALS
      else
        Response(200, LoggedIn("Login successful", crypto.sign(View(admin), secret, TOKEN_LIFETIME), View(admin)))
  }

  /** The three rejections of a login; an unknown email and a wrong password give the same response. */
  lemma LoginRejections(rows: map<string, Admin>, req: LoginRequest, crypto: Crypto, secret: string)
    ensures !Truthy(req.email) || !Truthy(req.password) ==> Login(rows, req, crypto, secret) == CREDENTIALS_REQUIRED
    ensures Truthy(req.email) && Truthy(req.password) && req.email.value !in rows ==>
      Login(rows, req, crypto, secret) == INVALID_CREDENTIALS
    ensures (Truthy(req.email) && Truthy(req.password) && req.email.value in rows
             && !crypto.compare(req.password.value, rows[req.email.value].passwordHash)) ==>
      Login(rows, req, crypto, secret) == INVALID_CREDENTIALS
  {
  }

  /** A caller cannot tell an unknown email from a wrong password. */
  lemma LoginFailuresIndistinguishable(rows: map<string, Admin>, unknown: LoginRequest, wrong: LoginRequest, crypto: Crypto, secret: string)
    requires Truthy(unknown.email) && Truthy(unknown.password) && unknown.email.value !in rows
    requires Truthy(wrong.email) && Truthy(wrong.password) && wrong.email.value in rows
    requires !crypto.compare(wrong.password.value, rows[wrong.email.value].passwordHash)
    ensures Login(rows, unknown, crypto, secret) == Login(rows, wrong, crypto, secret)
  {
  }

  /** Registering and then logging in with the same email and password succeeds,
      and the token's claims are the registered admin's id, username and email. */
  lemma RegisterThenLogin(rows: map<string, Admin>, nextId: nat, req: RegisterRequest, crypto: Crypto, secret: string)
    requires TableValid(rows, nextId)
    requires HashAgrees(crypto)
    requires HasAllFields(req) && req.email.value !in rows
    ensures var out := Register(rows, nextId, req, crypto.hash);
      var claims := AdminView(nextId, req.username.value, req.email.value);
      Login(out.rows, LoginRequest(req.email, req.password), crypto, secret)
        == Response(200, LoggedIn("Login successful", crypto.sign(claims, secret, TOKEN_LIFETIME), claims))
  {
    var out := Register(rows, nextId, req, crypto.hash);
    assert crypto.compare(req.password.value, crypto.hash(req.password.value));
    assert out.rows[req.email.value].passwordHash == crypto.hash(req.password.value);
  }

  /** The alice scenario: on an empty table she gets id 1, logs in with her
      password and is refused with the wrong one. */
  lemma AliceScenario(crypto: Crypto, secret: string)
    requires HashAgrees(crypto)
    requires !crypto.compare("wrong", crypto.hash("secret123"))
    ensures var out := Register(map[], 1, RegisterRequest(Some("alice"), Some("a@x.com"), Some("secret123")), crypto.hash);
      && out.response == Response(201, Registered("Admin registered", AdminView(1, "alice", "a@x.com")))
      && Login(out.rows, LoginRequest(Some("a@x.com"), Some("secret123")), crypto, secret).status == 200
      && Login(out.rows, LoginRequest(Some("a@x.com"), Some("secret123")), crypto, secret).body.admin
           == AdminView(1, "alice", "a@x.com")
      && Login(out.rows, LoginRequest(Some("a@x.com"), Some("wrong")), crypto, secret) == INVALID_CREDENTIALS
  {
    RegisterThenLogin(map[], 1, RegisterRequest(Some("alice"), Some("a@x.com"), Some("secret123")), crypto, secret);
  }

  // ------------------------------------------------------------------- state

  /** The admin table as the database holds it. Only registration writes it. */
  class AdminStore {
    var rows: map<string, Admin>
    var nextId: nat

    ghost predicate Valid()
      reads this
    {
      TableValid(rows, nextId)
    }

    constructor ()
      ensures Valid() && rows == map[] && nextId == 1
    {
      rows := map[];
      nextId := 1;
    }

    /** `registerAdmin`, inserting into the table in place. */
    method RegisterAdmin(req: RegisterRequest, hash: string -> string) returns (r: Response)
      requires Valid()
      modifies this
      ensures Valid()
      ensures var out := Register(old(rows), old(nextId), req, hash);
        r == out.response && rows == out.rows && nextId == out.nextId
    {
      if !Truthy(req.username) || !Truthy(req.email) || !Truthy(req.password) {
        return ALL_FIELDS_REQUIRED;
      }
      var email := req.email.value;
      if email in rows {
        return EMAIL_IN_USE;
      }
      var hashed := hash(req.password.value);
      var admin := Admin(nextId, req.username.value, email, hashed);
      rows := rows[email := admin];
      nextId := nextId + 1;
      r := Response(201, Registered("Admin registered", View(admin)));
    }
  }
}
