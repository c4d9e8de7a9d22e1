/** The two session stores of the server (end users and the partner
    dashboard), the login handlers that mint tokens into them, and the
    `verifySession` / `verifyDashboardSession` middleware that resolves a
    request's token. */
module Sessions {
  import opened Common

  /** An entry of a fixed login directory (`users` or `dashboardUsers`). */
  datatype Account = Account(key: string, name: string, password: string)

  /** A stored session: the identity's key (`userId` or `dashId`), its
      display name, and the creation time. */
  datatype Session = Session(identity: string, name: string, createdAt: int)

  type Store = map<string, Session>

  const Users: map<string, Account> := map["user" := Account("user", "Jack", "password")]

  /** The one dashboard account; its name is the slug of the partner it manages. */
  const DashboardUsers: map<string, Account> := map["admin" := Account("admin", "aldi", "admin")]

  /** `crypto.randomBytes(32).toString('hex')`: 64 lower-case hex digits. */
  predicate IsSessionToken(t: string) {
    |t| == 64 && forall k :: 0 <= k < |t| ==> ('0' <= t[k] <= '9' || 'a' <= t[k] <= 'f')
  }

  // ---------------------------------------------------------------------
  // Login

  datatype LoginError =
    | MissingCredentials   // 400: id or password missing or empty
    | InvalidCredentials   // 401: unknown id or wrong password

  function LoginStatus(e: LoginError): int {
    match e
    case MissingCredentials => 400
    case InvalidCredentials => 401
  }

  datatype LoginReply = Rejected(error: LoginError) | Accepted(token: string, session: Session)

  /** `POST /api/user/login` and `POST /api/dash/login` against `directory`,
      storing a session under the freshly drawn `token` at time `now`. */
  function Login(directory: map<string, Account>, store: Store,
                 id: Option<string>, password: Option<string>,
                 token: string, now: int): (r: (Store, LoginReply))
    ensures r.1 == Rejected(MissingCredentials) <==> !Truthy(id) || !Truthy(password)
    ensures r.1 == Rejected(InvalidCredentials) <==>
              Truthy(id) && Truthy(password)
              && (id.value !in directory || directory[id.value].password != password.value)
    ensures r.1.Rejected? ==> r.0 == store
    ensures r.1.Accepted? ==>
              && id.value in directory && directory[id.value].password == password.value
              && r.1.token == token
              && r.1.session == Session(directory[id.value].key, directory[id.value].name, now)
              && r.0.Keys == store.Keys + {token}
              && r.0[token] == r.1.session
              && (forall t :: t in store && t != token ==> r.0[t] == store[t])
  {
    if !Truthy(id) || !Truthy(password) then (store, Rejected(MissingCredentials))
    else if id.value !in directory then (store, Rejected(InvalidCredentials))
    else
      var account := directory[id.value];
      if account.password != password.value then (store, Rejected(InvalidCredentials))
      else
        var session := Session(account.key, account.name, now);
        (store[token := session], Accepted(token, session))
  }

  /** With a token not yet in use, a successful login adds exactly one
      session and keeps every earlier one. */
  lemma LoginAddsOneSession(directory: map<string, Account>, store: Store,
                            id: Option<string>, password: Option<string>,
                            token: string, now: int)
    requires token !in store
    requires Login(directory, store, id, password, token, now).1.Accepted?
    ensures var s := Login(directory, store, id, password, token, now).0;
            |s| == |store| + 1 && forall t :: t in store ==> t in s && s[t] == store[t]
  {
    var s := Login(directory, store, id, password, token, now).0;
    assert s.Keys == store.Keys + {token};
    assert |s.Keys| == |store.Keys| + 1;
  }

  // ---------------------------------------------------------------------
  // Token resolution

  /** Where a token can come from: the `Authorization` header, the
      `x-auth-cookie` header, `body.cookie` and `query.cookie`. */
  datatype Request = Request(
    authorization: Option<string>, cookieHeader: Option<string>,
    bodyCookie: Option<string>, queryCookie: Option<string>)

  const BearerPrefix: string := "Bearer "

  /** The trimmed remainder of an `Authorization` header that starts with
      `Bearer ` (the first occurrence is the one `replace` removes). */
  function BearerToken(auth: Option<string>): (r: Option<string>)
    ensures r.Some? <==> auth.Some? && |BearerPrefix| <= |auth.value|
                         && auth.value[..|BearerPrefix|] == BearerPrefix
  {
    if auth.Some? && |BearerPrefix| <= |auth.value| && auth.value[..|BearerPrefix|] == BearerPrefix
    then Some(Trim(auth.value[|BearerPrefix|..]))
    else None
  }

  /** The four token sources in precedence order. */
  function Candidates(req: Request): seq<Option<string>> {
    [BearerToken(req.authorization), req.cookieHeader, req.bodyCookie, req.queryCookie]
  }

  /** The token a request carries, before the final trim. */
  function SessionToken(req: Request): (r: Option<string>)
    ensures r.Some? ==> r.value != ""
    ensures r.Some? <==> exists k :: 0 <= k < 4 && Truthy(Candidates(req)[k])
    ensures r.Some? ==> exists k :: FirstTruthyAt(Candidates(req), k) && r.value == Candidates(req)[k].value
  {
    FirstTruthy(Candidates(req))
  }

  /** What `store[trimmedToken]` finds: a stored session, or an inherited
      property whose `userId`, `dashId` and (for `__proto__`) `name` are
      `undefined`. */
  datatype Lookup = Own(session: Session) | Inherited(property: string)

  /** The trimmed token the middleware looks up. */
  function LookupKey(req: Request): Option<string> {
    var token := SessionToken(req);
    if token.None? then None else Some(Trim(token.value))
  }

  /** `store[key]`: the stored session, else the inherited property of that
      name, else nothing. */
  function Find(store: Store, key: string): (r: Option<Lookup>)
    ensures r.None? <==> key !in store && key !in InheritedNames
    ensures key in store ==> r == Some(Own(store[key]))
    ensures key !in store && key in InheritedNames ==> r == Some(Inherited(key))
  {
    if key in store then Some(Own(store[key]))
    else if key in InheritedNames then Some(Inherited(key))
    else None
  }

  /** What the middleware attaches to the request, or `None` where it
      answers 404 `Not found`: no token at all, or a trimmed token that
      names neither a stored session nor an inherited property. */
  function Resolve(req: Request, store: Store): (r: Option<Lookup>)
    ensures r.None? <==> LookupKey(req).None?
                         || (LookupKey(req).value !in store && LookupKey(req).value !in InheritedNames)
    ensures r.Some? && LookupKey(req).value in store ==> r.value == Own(store[LookupKey(req).value])
    ensures r.Some? && LookupKey(req).value !in store ==> r.value == Inherited(LookupKey(req).value)
    ensures r.Some? && r.value.Inherited? ==> r.value.property in InheritedNames
  {
    var key := LookupKey(req);
    if key.None? then None else Find(store, key.value)
  }

  /** A request that carries its token as `Authorization: Bearer <token>`. */
  function BearerRequest(token: string): Request {
    Request(Some(BearerPrefix + token), None, None, None)
  }

  /** A request that carries its token in the `x-auth-cookie` header only. */
  function CookieRequest(token: string): Request {
    Request(None, Some(token), None, None)
  }

  lemma SessionTokenTrimmed(t: string)
    requires IsSessionToken(t)
    ensures IsTrimmed(t) && t != ""
  {
    assert '0' <= t[0] <= '9' || 'a' <= t[0] <= 'f';
    assert '0' <= t[63] <= '9' || 'a' <= t[63] <= 'f';
  }

  /** A token minted by a successful login authenticates the requests that
      carry it, as a bearer header or as the custom header, and resolves to
      the session the login created. */
  lemma LoginThenResolve(directory: map<string, Account>, store: Store,
                         id: Option<string>, password: Option<string>,
                         token: string, now: int)
    requires IsSessionToken(token)
    requires Login(directory, store, id, password, token, now).1.Accepted?
    ensures var (s, reply) := Login(directory, store, id, password, token, now);
            Resolve(BearerRequest(token), s) == Some(Own(reply.session))
            && Resolve(CookieRequest(token), s) == Some(Own(reply.session))
  {
    SessionTokenTrimmed(token);
    TrimOfTrimmed(token);
    var b := BearerRequest(token);
    assert b.authorization.value[|BearerPrefix|..] == token;
    assert Candidates(b)[0] == Some(token);
    assert FirstTruthyAt(Candidates(b), 0);
    var c := CookieRequest(token);
    assert FirstTruthyAt(Candidates(c), 1);
  }

  /** The user and dashboard stores never share a key. */
  predicate StoresDisjoint(users: Store, dash: Store) {
    users.Keys !! dash.Keys
  }

  /** A lookup that found a stored session rather than an inherited property. */
  predicate FoundOwn(r: Option<Lookup>) {
    r.Some? && r.value.Own?
  }

  /** With disjoint stores no token finds a stored session in both: a
      request that passes both middlewares owes at least one of them to an
      inherited property. */
  lemma NoTokenInBothStores(req: Request, users: Store, dash: Store)
    requires StoresDisjoint(users, dash)
    ensures !(FoundOwn(Resolve(req, users)) && FoundOwn(Resolve(req, dash)))
    ensures Resolve(req, users).Some? && Resolve(req, dash).Some? ==>
              Resolve(req, users).value.Inherited? || Resolve(req, dash).value.Inherited?
  {
  }

  /** No inherited name has whitespace at either end. */
  lemma InheritedNameTrimmed(p: string)
    requires p in InheritedNames
    ensures p != "" && IsTrimmed(p)
  {
  }

  /** A token that names an inherited property and is stored in neither
      store passes both middlewares, whatever the stores hold. */
  lemma InheritedTokenPassesBoth(users: Store, dash: Store, p: string)
    requires p in InheritedNames && p !in users && p !in dash
    ensures Resolve(BearerRequest(p), users) == Some(Inherited(p))
    ensures Resolve(BearerRequest(p), dash) == Some(Inherited(p))
  {
    InheritedNameTrimmed(p);
    TrimOfTrimmed(p);
    var b := BearerRequest(p);
    assert b.authorization.value[|BearerPrefix|..] == p;
    assert Candidates(b)[0] == Some(p);
    assert FirstTruthyAt(Candidates(b), 0);
  }

  /** Minting a token that is in neither store keeps the stores disjoint. */
  lemma LoginKeepsStoresDisjoint(directory: map<string, Account>, users: Store, dash: Store,
                                 id: Option<string>, password: Option<string>,
                                 token: string, now: int)
    requires StoresDisjoint(users, dash) && token !in users && token !in dash
    ensures StoresDisjoint(Login(directory, users, id, password, token, now).0, dash)
    ensures StoresDisjoint(users, Login(directory, dash, id, password, token, now).0)
  {
  }
}
