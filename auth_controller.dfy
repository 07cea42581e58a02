/**
 * The two account endpoints, `registeruser` and `loginuser`, over the
 * users collection.
 *
 * The collection is a map from email to record. Its collaborators — the
 * password hash, the password comparison, the token signer, the id the
 * database assigns, and which of these calls throws — are given as an
 * `Env` value, so their internals stay unknown.
 */
module AuthController {
  import opened Wrappers

  /** The `_id` the database assigns to a new record. */
  type UserId = nat

  /** A stored user. `password` holds whatever the hash produced. */
  datatype UserRecord = UserRecord(id: UserId, email: string, username: string, password: string)

  /** The users collection, by email. */
  type Store = map<string, UserRecord>

  /** The `user` object of a success response: no password field. */
  datatype PublicUser = PublicUser(username: string, email: string, id: UserId)

  /**
   * The HTTP response: status, `message`, the optional `user` object, the
   * value of the optional cookie, and the `error` field of a 500 response.
   * The cookie is always named `token` and set with `httpOnly: true`, so
   * only its value is kept.
   */
  datatype Response = Response(status: int, message: string, user: Option<PublicUser>,
                               cookie: Option<string>, error: Option<string>)

  /** The calls the controllers make to code outside them, each of which may throw. */
  datatype Collaborator = FindOne | Hash | Create | Compare | Sign

  /** The payload of a token: the user id and its lifetime. */
  datatype Claims = Claims(id: UserId, expiresIn: string)

  const TokenLifetime := "24h"
  const SaltRounds: nat := 10

  /**
   * The collaborators. `failing` lists the calls that throw, all with the
   * message `errorMessage`.
   */
  datatype Env = Env(
    hash: (string, nat) -> string,
    compare: (string, string) -> bool,
    sign: Claims -> string,
    newId: UserId,
    failing: set<Collaborator>,
    errorMessage: string)

  datatype RegisterBody = RegisterBody(email: string, username: string, password: string)
  datatype LoginBody = LoginBody(email: string, password: string)

  const AlreadyExists := Response(400, "User already exists!", None, None, None)
  const InvalidCredentials := Response(400, "Invalid Credentials!", None, None, None)

  /** The `catch` of both controllers: 500 with the thrown message. */
  function ServerError(env: Env): Response {
    Response(500, "Server Error", None, None, Some(env.errorMessage))
  }

  function Public(u: UserRecord): PublicUser {
    PublicUser(u.username, u.email, u.id)
  }

  /** `generateToken`: the signer over the id claim with a 24 hour lifetime; `None` when it throws. */
  function GenerateToken(env: Env, id: UserId): Option<string> {
    if Sign in env.failing then None else Some(env.sign(Claims(id, TokenLifetime)))
  }

  /**
   * Whether `usermodel.create` throws: the collaborator fails, or the
   * schema's `required` check rejects an empty email or username.
   */
  predicate CreateThrows(b: RegisterBody, env: Env) {
    Create in env.failing || b.email == "" || b.username == ""
  }

  /** The record `registeruser` creates: the hashed password, never the plaintext argument. */
  function NewRecord(b: RegisterBody, env: Env): UserRecord {
    UserRecord(env.newId, b.email, b.username, env.hash(b.password, SaltRounds))
  }

  /** Every record is stored under its own email. */
  predicate KeyedByEmail(store: Store) {
    forall e :: e in store ==> store[e].email == e
  }

  /** `registeruser`: the collection afterwards and the response. */
  function Register(store: Store, b: RegisterBody, env: Env): (r: (Store, Response))
    ensures r.1.status == 201 || r.1.status == 400 || r.1.status == 500
    ensures r.1.status == 400 <==> FindOne !in env.failing && b.email in store
    ensures r.1.status == 400 ==> r == (store, AlreadyExists)
    ensures r.0 == store || (b.email !in store && r.0 == store[b.email := NewRecord(b, env)])
    ensures r.0 != store ==> !CreateThrows(b, env) && env.failing * {FindOne, Hash} == {}
    ensures r.1.status == 201 <==> env.failing !! {FindOne, Hash, Sign} && b.email !in store && !CreateThrows(b, env)
    ensures r.1.status == 201 ==>
      && r.0 == store[b.email := NewRecord(b, env)]
      && r.1.message == "User Registered successfully"
      && r.1.user == Some(Public(NewRecord(b, env)))
      && r.1.cookie == Some(env.sign(Claims(env.newId, TokenLifetime)))
    ensures r.1.cookie.Some? <==> r.1.status == 201
    ensures r.1.status == 500 ==> r.1 == ServerError(env)
  {
    if FindOne in env.failing then (store, ServerError(env))
    else if b.email in store then (store, AlreadyExists)
    else if Hash in env.failing then (store, ServerError(env))
    else if CreateThrows(b, env) then (store, ServerError(env))
    else
      var user := NewRecord(b, env);
      var store' := store[b.email := user];
      match GenerateToken(env, user.id)
      case None => (store', ServerError(env))
      case Some(token) =>
        (store', Response(201, "User Registered successfully", Some(Public(user)), Some(token), None))
  }

  /** Whether the credentials match a stored record, by the comparison collaborator. */
  predicate Matches(store: Store, b: LoginBody, env: Env) {
    b.email in store && env.compare(b.password, store[b.email].password)
  }

  /** `loginuser`: the response; the collection is only read. */
  function Login(store: Store, b: LoginBody, env: Env): (r: Response)
    ensures r.status == 200 || r.status == 400 || r.status == 500
    ensures r.status == 400 ==> r == InvalidCredentials
    ensures r.status == 400 <==>
      FindOne !in env.failing && (b.email !in store || (Compare !in env.failing && !Matches(store, b, env)))
    ensures r.status == 200 <==> env.failing !! {FindOne, Compare, Sign} && Matches(store, b, env)
    ensures r.status == 200 ==>
      && r.message == "User logged in successfully!"
      && r.user == Some(Public(store[b.email]))
      && r.cookie == Some(env.sign(Claims(store[b.email].id, TokenLifetime)))
    ensures r.cookie.Some? <==> r.status == 200
    ensures r.status == 500 ==> r == ServerError(env)
  {
    if FindOne in env.failing then ServerError(env)
    else if b.email !in store then InvalidCredentials
    else
      var user := store[b.email];
      if Compare in env.failing then ServerError(env)
      else if !env.compare(b.password, user.password) then InvalidCredentials
      else
        match GenerateToken(env, user.id)
        case None => ServerError(env)
        case Some(token) =>
          Response(200, "User logged in successfully!", Some(Public(user)), Some(token), None)
  }

  /** Registering keeps every record under its own email, so no two records share one. */
  lemma RegisterKeepsEmailsUnique(store: Store, b: RegisterBody, env: Env)
    requires KeyedByEmail(store)
    ensures var s' := Register(store, b, env).0;
      KeyedByEmail(s') && forall e :: e in store ==> e in s' && s'[e] == store[e]
  {
  }

  /** A sequence of registrations, each with its own collaborators. */
  function RegisterAll(store: Store, reqs: seq<(RegisterBody, Env)>): Store
    decreases |reqs|
  {
    if reqs == [] then store
    else RegisterAll(Register(store, reqs[0].0, reqs[0].1).0, reqs[1..])
  }

  /** The number of registrations in the sequence that respond 201. */
  function Created(store: Store, reqs: seq<(RegisterBody, Env)>): nat
    decreases |reqs|
  {
    if reqs == [] then 0
    else
      var r := Register(store, reqs[0].0, reqs[0].1);
      (if r.1.status == 201 then 1 else 0) + Created(r.0, reqs[1..])
  }

  /**
   * After any registrations no two records share an email, no existing
   * record was altered or removed, and at least one record was added per
   * 201 response.
   */
  lemma {:induction false} RegistrationsKeepEmailsUnique(store: Store, reqs: seq<(RegisterBody, Env)>)
    requires KeyedByEmail(store)
    ensures var s' := RegisterAll(store, reqs);
      && KeyedByEmail(s')
      && (forall e :: e in store ==> e in s' && s'[e] == store[e])
      && |s'.Keys| >= |store.Keys| + Created(store, reqs)
    decreases |reqs|
  {
    if reqs != [] {
      var r := Register(store, reqs[0].0, reqs[0].1);
      RegisterKeepsEmailsUnique(store, reqs[0].0, reqs[0].1);
      if r.1.status == 201 {
        assert r.0.Keys == store.Keys + {reqs[0].0.email};
        assert |r.0.Keys| == |store.Keys| + 1;
      }
      assert store.Keys <= r.0.Keys;
      RegistrationsKeepEmailsUnique(r.0, reqs[1..]);
    }
  }

  /** An unknown email and a wrong password get the same response. */
  lemma LoginFailuresIndistinguishable(store: Store, unknown: LoginBody, wrong: LoginBody, env: Env)
    requires env.failing !! {FindOne, Compare}
    requires unknown.email !in store
    requires wrong.email in store && !env.compare(wrong.password, store[wrong.email].password)
    ensures Login(store, unknown, env) == Login(store, wrong, env) == InvalidCredentials
  {
  }

  /**
   * Registering and then logging in with the same email and password
   * succeeds with the registered user, whenever the comparison accepts the
   * password against its own hash.
   */
  lemma RegisterThenLogin(store: Store, b: RegisterBody, reg: Env, log: Env)
    requires reg.failing == {} && log.failing == {}
    requires b.email !in store && b.email != "" && b.username != ""
    requires log.compare(b.password, reg.hash(b.password, SaltRounds))
    ensures var (s', r1) := Register(store, b, reg);
      var r2 := Login(s', LoginBody(b.email, b.password), log);
      && r1.status == 201 && r2.status == 200 && r2.user == r1.user
  {
  }

  /**
   * A signer that throws after the record was created gives the 500
   * response, yet the new record stays in the collection.
   */
  lemma TokenFailureAfterCreate(store: Store, b: RegisterBody, env: Env)
    requires env.failing !! {FindOne, Hash} && Sign in env.failing
    requires b.email !in store && !CreateThrows(b, env)
    ensures Register(store, b, env) == (store[b.email := NewRecord(b, env)], ServerError(env))
  {
  }

  // ---------------------------------------------------------------------
  // The controllers, with the collection changed in place

  /** The users collection of the database. */
  class UserCollection {
    var records: Store

    constructor (initial: Store)
      ensures records == initial
    {
      records := initial;
    }

    /** `registeruser`, call by call. */
    method RegisterUser(b: RegisterBody, env: Env) returns (res: Response)
      modifies this
      ensures (records, res) == Register(old(records), b, env)
    {
      if FindOne in env.failing {
        return ServerError(env);
      }
      if b.email in records {
        return AlreadyExists;
      }
      if Hash in env.failing {
        return ServerError(env);
      }
      var hashed := env.hash(b.password, SaltRounds);
      if Create in env.failing || b.email == "" || b.username == "" {
        return ServerError(env);
      }
      var user := UserRecord(env.newId, b.email, b.username, hashed);
      records := records[b.email := user];
      var token := GenerateToken(env, user.id);
      if token.None? {
        return ServerError(env);
      }
      res := Response(201, "User Registered successfully", Some(Public(user)), token, None);
    }

    /** `loginuser`, call by call; it only reads the collection. */
    method LoginUser(b: LoginBody, env: Env) returns (res: Response)
      ensures res == Login(records, b, env)
      ensures res.status == 200 <==> env.failing !! {FindOne, Compare, Sign} && Matches(records, b, env)
    {
      if FindOne in env.failing {
        return ServerError(env);
      }
      if b.email !in records {
        return InvalidCredentials;
      }
      var user := records[b.email];
      if Compare in env.failing {
        return ServerError(env);
      }
      if !env.compare(b.password, user.password) {
        return InvalidCredentials;
      }
      var token := GenerateToken(env, user.id);
      if token.None? {
        return ServerError(env);
      }
      res := Response(200, "User logged in successfully!", Some(Public(user)), token, None);
    }
  }
}
