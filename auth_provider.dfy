/** The mobile app's `AuthProvider`: the route guard that runs whenever the
    session or the route changes, and the login it attempts on mount from
    what secure storage holds. */
module AuthProvider {
  import opened JsRuntime
  import opened AuthStore

  const AuthGroup: string := "(auth)"
  const LandingGroup: string := "(landing)"
  const DrawerGroup: string := "(drawer)"

  const LandingPath: string := "/(landing)"
  const HomePath: string := "/(drawer)/home"

  /** `segments[0] === '(auth)' || segments[0] === '(landing)'`; an empty
      route (`segments[0]` undefined) is in neither group. */
  predicate InPublicGroup(segment0: Option<string>) {
    segment0 == Some(AuthGroup) || segment0 == Some(LandingGroup)
  }

  /** The home route chosen for an authenticated user; both arms of the
      role test name the same path. */
  function HomeRoute(role: Option<string>): string {
    if role == Some("student") then HomePath else HomePath
  }

  /** The target of the `router.replace` call one run of the guard makes,
      if any. */
  function Redirect(isLoading: bool, isAuthenticated: bool, segment0: Option<string>, role: Option<string>): (r: Option<string>)
    ensures isLoading ==> r == None
    ensures r == Some(LandingPath) <==> !isLoading && !isAuthenticated && !InPublicGroup(segment0)
    ensures r == Some(HomePath) <==> !isLoading && isAuthenticated && InPublicGroup(segment0)
    ensures r == None || r == Some(LandingPath) || r == Some(HomePath)
  {
    if isLoading then None
    else if !isAuthenticated && !InPublicGroup(segment0) then Some(LandingPath)
    else if isAuthenticated && InPublicGroup(segment0) then Some(HomeRoute(role))
    else None
  }

  /** Where a session may stay: a signed-out user in the login and landing
      pages, a signed-in user everywhere else. */
  predicate Allowed(isAuthenticated: bool, segment0: Option<string>) {
    isAuthenticated != InPublicGroup(segment0)
  }

  /** Once loading has finished, the guard leaves a route alone exactly when
      the session is allowed there. */
  lemma RedirectIffNotAllowed(isAuthenticated: bool, segment0: Option<string>, role: Option<string>)
    ensures Redirect(false, isAuthenticated, segment0, role) == None <==> Allowed(isAuthenticated, segment0)
  {
  }

  /** The user's role never changes where the guard sends them. */
  lemma RedirectIgnoresRole(isLoading: bool, isAuthenticated: bool, segment0: Option<string>, role1: Option<string>, role2: Option<string>)
    ensures Redirect(isLoading, isAuthenticated, segment0, role1) == Redirect(isLoading, isAuthenticated, segment0, role2)
  {
  }

  /** The characters of `s` before its first `/`. */
  function UpToSlash(s: string): (r: string)
    ensures r <= s
    ensures '/' !in r
    ensures |r| < |s| ==> s[|r|] == '/'
    ensures s != [] && s[0] != '/' ==> r != []
  {
    if s == [] || s[0] == '/' then [] else [s[0]] + UpToSlash(s[1..])
  }

  /** The first segment of an absolute path (`segments[0]` once the router
      has moved there). */
  function FirstSegment(path: string): (r: Option<string>)
    ensures r.Some? <==> |path| > 1 && path[0] == '/' && path[1] != '/'
    ensures r.Some? ==> r.value <= path[1..] && '/' !in r.value && r.value != []
  {
    if |path| > 1 && path[0] == '/' && path[1] != '/' then Some(UpToSlash(path[1..])) else None
  }

  lemma {:induction false} UpToSlashOfSegment(seg: string, rest: string)
    requires '/' !in seg
    requires rest == [] || rest[0] == '/'
    ensures UpToSlash(seg + rest) == seg
    decreases |seg|
  {
    if seg != [] {
      assert (seg + rest)[1..] == seg[1..] + rest;
      UpToSlashOfSegment(seg[1..], rest);
    } else {
      assert seg + rest == rest;
    }
  }

  /** The first segment of `/seg` followed by nothing or by a further
      `/...` is `seg`. */
  lemma FirstSegmentOf(seg: string, rest: string)
    requires seg != [] && '/' !in seg
    requires rest == [] || rest[0] == '/'
    ensures FirstSegment("/" + seg + rest) == Some(seg)
  {
    var path := "/" + seg + rest;
    assert path[1] == seg[0];
    assert path[1..] == seg + rest;
    UpToSlashOfSegment(seg, rest);
  }

  /** The landing target lies in the landing group. */
  lemma LandingTargetSegment()
    ensures FirstSegment(LandingPath) == Some(LandingGroup)
  {
    assert '/' !in LandingGroup;
    assert LandingPath == "/" + LandingGroup + "";
    FirstSegmentOf(LandingGroup, "");
  }

  /** The home target lies in the drawer group. */
  lemma HomeTargetSegment()
    ensures FirstSegment(HomePath) == Some(DrawerGroup)
  {
    assert '/' !in DrawerGroup;
    assert HomePath == "/" + DrawerGroup + "/home";
    FirstSegmentOf(DrawerGroup, "/home");
  }

  /** A redirect settles: on the route it leads to, with the session
      unchanged, the guard makes no further redirect. */
  lemma RedirectSettles(isAuthenticated: bool, segment0: Option<string>, role: Option<string>)
    requires Redirect(false, isAuthenticated, segment0, role).Some?
    ensures Redirect(false, isAuthenticated, FirstSegment(Redirect(false, isAuthenticated, segment0, role).value), role) == None
  {
    LandingTargetSegment();
    HomeTargetSegment();
  }

  /** The result of `Promise.all` over the two storage reads on mount. */
  datatype StoredSession = ReadFails | Stored(token: Option<string>, userData: Option<User>)

  /** The call `login(userData.email, token)` the provider makes on mount,
      if any; a missing `email` field reads as `undefined`, which `login`
      treats as it treats the empty string. */
  function InitLogin(read: StoredSession): (r: Option<Credentials>)
    ensures r.Some? <==> read.Stored? && TruthyOpt(read.token) && read.userData.Some?
    ensures r.Some? ==> r.value.password == read.token.value
    ensures r.Some? && "email" in read.userData.value ==> r.value.email == read.userData.value["email"]
    ensures r.Some? && "email" !in read.userData.value ==> r.value.email == ""
  {
    if read.Stored? && TruthyOpt(read.token) && read.userData.Some? then
      var user := read.userData.value;
      Some(Credentials(if "email" in user then user["email"] else "", read.token.value))
    else None
  }

  /** The mount effect against a store: read storage and, when both values
      are there, log in with the stored email and the stored token. */
  method InitializeProvider(store: Store, readsOk: bool, tokenWriteOk: bool, userWriteOk: bool) returns (attempt: Option<Credentials>, outcome: Option<Outcome>)
    requires store.Valid()
    modifies store, store.storage
    ensures store.Valid()
    ensures attempt == InitLogin(if readsOk then Stored(old(store.storage.authToken), old(store.storage.userData)) else ReadFails)
    ensures attempt.None? ==> outcome.None? && unchanged(store) && unchanged(store.storage)
    ensures attempt.Some? ==> outcome.Some? && (outcome.value == Done <==>
      Truthy(attempt.value.email) && store.IsDemo(attempt.value) && tokenWriteOk && userWriteOk)
    ensures attempt.Some? ==> !store.isLoading
    ensures attempt.Some? && outcome.value == Done ==>
      store.IsDemo(attempt.value) && store.isAuthenticated &&
      store.token == Some(store.DemoSession(attempt.value).0) &&
      store.user == Some(store.DemoSession(attempt.value).1)
    ensures attempt.Some? && outcome.value != Done ==>
      store.isAuthenticated == old(store.isAuthenticated) && store.token == old(store.token) && store.user == old(store.user)
  {
    var read := if readsOk then Stored(store.storage.authToken, store.storage.userData) else ReadFails;
    attempt := InitLogin(read);
    if attempt.None? {
      return attempt, None;
    }
    var o := store.Login(attempt.value.email, attempt.value.password, tokenWriteOk, userWriteOk);
    outcome := Some(o);
  }

  /** After a demo login has been stored, the next mount logs in with the
      stored email and the stored token as password: that login succeeds
      only when the account's password is the token the demo login
      stored. */
  method RemountAfterDemoLogin(demo: DemoAccounts, c: Credentials) returns (loggedIn: bool, restoredNow: bool)
    requires Truthy(c.email) && Truthy(c.password)
    requires c == demo.student || c == demo.owner
    ensures loggedIn
    ensures restoredNow <==>
      (if c == demo.student then Credentials(c.email, StudentToken) else Credentials(c.email, OwnerToken)) in {demo.student, demo.owner}
  {
    var storage := new SecureStorage(None, None);
    var first := new Store(storage, demo);
    var o1 := first.Login(c.email, c.password, true, true);
    loggedIn := o1 == Done;
    var second := new Store(storage, demo);
    var attempt, o2 := InitializeProvider(second, true, true, true);
    restoredNow := o2 == Some(Done);
  }
}
