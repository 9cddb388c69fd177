/** The mobile app's session store: the fields `isAuthenticated`,
    `isLoading`, `user` and `token`, and the actions that change them.
    Secure storage is an object of its own; every call into it or into the
    API is given its outcome as a parameter. */
module AuthStore {
  import opened JsRuntime

  /** A user record as a JavaScript object: field name to value. Spreading
      one object over another (`{ ...a, ...b }`) is map union `a + b`. */
  type User = map<string, string>

  /** The user record the demo login builds (its `profileImage` is undefined). */
  function DemoUser(id: string, name: string, email: string, role: string): User {
    map["id" := id, "name" := name, "email" := email, "role" := role]
  }

  datatype Credentials = Credentials(email: string, password: string)

  /** The two demo accounts; defined outside the modelled files. */
  datatype DemoAccounts = DemoAccounts(student: Credentials, owner: Credentials)

  datatype Role = Student | Owner

  datatype SignupData = SignupData(name: string, email: string, password: string, role: Role)

  /** The reason an action throws. */
  datatype AuthError =
    | CredentialsRequired       // 'Email and password are required'
    | InvalidCredentials        // 'Invalid credentials. Please use the demo credentials provided.'
    | StorageFailed             // a secure-storage call rejected
    | RequestFailed             // the API call itself rejected
    | ServerRefused(message: string)  // `response.success` was false
    | InvalidServerResponse     // 'Invalid response from server'
    | MissingData               // `response.data` is undefined: reading a field of it throws

  datatype Outcome = Done | Fails(error: AuthError)

  /** The `data` of a signup response. */
  datatype SignupPayload = SignupPayload(accessToken: Option<string>, user: Option<User>)

  /** What `api.request` gives back to `register`: a rejection, or a
      response with `success`, `error` and `data`. */
  datatype SignupReply = SignupRejects | SignupResponse(success: bool, error: Option<string>, data: Option<SignupPayload>)

  /** The `data` of a profile response. */
  datatype ProfilePayload = ProfilePayload(user: Option<User>)

  /** What `api.request` gives back to `updateUser`. */
  datatype ProfileReply = ProfileRejects | ProfileResponse(success: bool, error: Option<string>, data: Option<ProfilePayload>)

  /** The message `register` throws when the server refuses: its `error`, or
      'Registration failed' when that is missing or empty. */
  function RefusalMessage(error: Option<string>, fallback: string): (m: string)
    ensures TruthyOpt(error) ==> m == error.value
    ensures !TruthyOpt(error) ==> m == fallback
  {
    if TruthyOpt(error) then error.value else fallback
  }

  /** `updateUser`'s merge `{ ...get().user, ...response.data.user }`. */
  function Merge(current: Option<User>, incoming: Option<User>): (u: User)
    ensures forall k :: k in u <==> (current.Some? && k in current.value) || (incoming.Some? && k in incoming.value)
    ensures forall k :: incoming.Some? && k in incoming.value ==> u[k] == incoming.value[k]
    ensures forall k :: current.Some? && k in current.value && !(incoming.Some? && k in incoming.value) ==>
      u[k] == current.value[k]
  {
    current.GetOr(map[]) + incoming.GetOr(map[])
  }

  const StudentToken: string := "mock-token-student"
  const OwnerToken: string := "mock-token-owner"

  /** The signup endpoint `register` posts to. */
  function SignupEndpoint(role: Role): string {
    if role == Student then "/auth/student/signup" else "/auth/owner/signup"
  }

  /** `secureStorage`: the persisted token and user record. */
  class SecureStorage {
    var authToken: Option<string>
    var userData: Option<User>

    constructor (authToken: Option<string>, userData: Option<User>)
      ensures this.authToken == authToken && this.userData == userData
    {
      this.authToken := authToken;
      this.userData := userData;
    }
  }

  class Store {
    var isAuthenticated: bool
    var isLoading: bool
    var user: Option<User>
    var token: Option<string>
    const storage: SecureStorage
    const demo: DemoAccounts

    /** An authenticated session always has a non-empty token and a user. */
    ghost predicate Valid()
      reads this
    {
      isAuthenticated ==> TruthyOpt(token) && user.Some?
    }

    /** The store's initial state. */
    constructor (storage: SecureStorage, demo: DemoAccounts)
      ensures Valid()
      ensures !isAuthenticated && isLoading && user == None && token == None
      ensures this.storage == storage && this.demo == demo
    {
      this.storage := storage;
      this.demo := demo;
      isAuthenticated := false;
      isLoading := true;
      user := None;
      token := None;
    }

    /** `initialize`: restore the session from storage. `readsOk` is whether
        both storage reads resolve. */
    method Initialize(readsOk: bool)
      modifies this
      ensures Valid()
      ensures !isLoading
      ensures isAuthenticated <==> readsOk && TruthyOpt(storage.authToken) && storage.userData.Some?
      ensures isAuthenticated ==> token == storage.authToken && user == storage.userData
      ensures !isAuthenticated ==> token == None && user == None
    {
      if readsOk {
        var storedToken := storage.authToken;
        var userData := storage.userData;
        if TruthyOpt(storedToken) && userData.Some? {
          isAuthenticated, token, user, isLoading := true, storedToken, userData, false;
        } else {
          isAuthenticated, token, user, isLoading := false, None, None, false;
        }
      } else {
        isAuthenticated, token, user, isLoading := false, None, None, false;
      }
    }

    /** Both `setAuthToken` and `setUserData` are started; each one that
        resolves takes effect, and the pair fails if either rejects. */
    method Persist(newToken: string, newUser: User, tokenWriteOk: bool, userWriteOk: bool) returns (ok: bool)
      modifies storage
      ensures ok <==> tokenWriteOk && userWriteOk
      ensures storage.authToken == if tokenWriteOk then Some(newToken) else old(storage.authToken)
      ensures storage.userData == if userWriteOk then Some(newUser) else old(storage.userData)
    {
      if tokenWriteOk {
        storage.authToken := Some(newToken);
      }
      if userWriteOk {
        storage.userData := Some(newUser);
      }
      ok := tokenWriteOk && userWriteOk;
    }

    /** `login`: only the two demo accounts are accepted. */
    method Login(email: string, password: string, tokenWriteOk: bool, userWriteOk: bool) returns (outcome: Outcome)
      requires Valid()
      modifies this, storage
      ensures Valid() && !isLoading
      ensures !Truthy(email) || !Truthy(password) ==>
        outcome == Fails(CredentialsRequired) && unchanged(storage) &&
        isAuthenticated == old(isAuthenticated) && user == old(user) && token == old(token)
      ensures Truthy(email) && Truthy(password) && !IsDemo(Credentials(email, password)) ==>
        outcome == Fails(InvalidCredentials) && unchanged(storage) &&
        isAuthenticated == old(isAuthenticated) && user == old(user) && token == old(token)
      ensures Truthy(email) && Truthy(password) && IsDemo(Credentials(email, password)) ==>
        var (t, u) := DemoSession(Credentials(email, password));
        storage.authToken == (if tokenWriteOk then Some(t) else old(storage.authToken)) &&
        storage.userData == (if userWriteOk then Some(u) else old(storage.userData)) &&
        if tokenWriteOk && userWriteOk then
          outcome == Done && isAuthenticated && token == Some(t) && user == Some(u)
        else
          outcome == Fails(StorageFailed) &&
          isAuthenticated == old(isAuthenticated) && user == old(user) && token == old(token)
    {
      isLoading := true;
      if email == "" || password == "" {
        isLoading := false;
        return Fails(CredentialsRequired);
      }
      var session: (string, User);
      if email == demo.student.email && password == demo.student.password {
        session := (StudentToken, DemoUser("s1", "Demo Student", email, "student"));
      } else if email == demo.owner.email && password == demo.owner.password {
        session := (OwnerToken, DemoUser("o1", "Demo Owner", email, "owner"));
      } else {
        isLoading := false;
        return Fails(InvalidCredentials);
      }
      var stored := Persist(session.0, session.1, tokenWriteOk, userWriteOk);
      if !stored {
        isLoading := false;
        return Fails(StorageFailed);
      }
      isAuthenticated, token, user, isLoading := true, Some(session.0), Some(session.1), false;
      outcome := Done;
    }

    /** The credentials match one of the demo accounts. */
    predicate IsDemo(c: Credentials) {
      c == demo.student || c == demo.owner
    }

    /** The token and the user a demo login stores; the student account is
        checked first. */
    function DemoSession(c: Credentials): (r: (string, User))
      requires IsDemo(c)
      ensures c == demo.student ==> r == (StudentToken, DemoUser("s1", "Demo Student", c.email, "student"))
      ensures c != demo.student ==> r == (OwnerToken, DemoUser("o1", "Demo Owner", c.email, "owner"))
    {
      if c == demo.student then (StudentToken, DemoUser("s1", "Demo Student", c.email, "student"))
      else (OwnerToken, DemoUser("o1", "Demo Owner", c.email, "owner"))
    }

    /** `register`: post the signup to the role's endpoint and, when the
        server returns a token and a user, store and adopt them. */
    method Register(data: SignupData, reply: SignupReply, tokenWriteOk: bool, userWriteOk: bool)
      returns (endpoint: string, outcome: Outcome)
      requires Valid()
      modifies this, storage
      ensures Valid() && !isLoading
      ensures endpoint == SignupEndpoint(data.role)
      ensures outcome == Done <==>
        reply.SignupResponse? && reply.success && reply.data.Some? &&
        TruthyOpt(reply.data.value.accessToken) && reply.data.value.user.Some? &&
        tokenWriteOk && userWriteOk
      ensures outcome == Done ==>
        isAuthenticated && token == reply.data.value.accessToken && user == reply.data.value.user &&
        storage.authToken == token && storage.userData == user
      ensures outcome != Done ==> isAuthenticated == old(isAuthenticated) && user == old(user) && token == old(token)
      ensures reply.SignupRejects? ==> outcome == Fails(RequestFailed) && unchanged(storage)
      ensures reply.SignupResponse? && !reply.success ==>
        outcome == Fails(ServerRefused(RefusalMessage(reply.error, "Registration failed"))) && unchanged(storage)
      ensures reply.SignupResponse? && reply.success && reply.data.None? ==>
        outcome == Fails(MissingData) && unchanged(storage)
      ensures (reply.SignupResponse? && reply.success && reply.data.Some? &&
               !(TruthyOpt(reply.data.value.accessToken) && reply.data.value.user.Some?)) ==>
        outcome == Fails(InvalidServerResponse) && unchanged(storage)
      ensures (reply.SignupResponse? && reply.success && reply.data.Some? &&
               TruthyOpt(reply.data.value.accessToken) && reply.data.value.user.Some?) ==>
        storage.authToken == (if tokenWriteOk then reply.data.value.accessToken else old(storage.authToken)) &&
        storage.userData == (if userWriteOk then reply.data.value.user else old(storage.userData))
    {
      isLoading := true;
      endpoint := SignupEndpoint(data.role);
      if reply.SignupRejects? {
        isLoading := false;
        return endpoint, Fails(RequestFailed);
      }
      if !reply.success {
        isLoading := false;
        return endpoint, Fails(ServerRefused(RefusalMessage(reply.error, "Registration failed")));
      }
      if reply.data.None? {
        isLoading := false;
        return endpoint, Fails(MissingData);
      }
      var payload := reply.data.value;
      if !TruthyOpt(payload.accessToken) || payload.user.None? {
        isLoading := false;
        return endpoint, Fails(InvalidServerResponse);
      }
      var stored := Persist(payload.accessToken.value, payload.user.value, tokenWriteOk, userWriteOk);
      if !stored {
        isLoading := false;
        return endpoint, Fails(StorageFailed);
      }
      isAuthenticated, token, user, isLoading := true, payload.accessToken, payload.user, false;
      outcome := Done;
    }

    /** `logout`: tell the server (its failure is only logged), then clear
        storage and the session in `finally`. If `clearAuth` itself rejects,
        the `finally` block stops there and the session is left as it was,
        still loading. */
    method Logout(serverOk: bool, clearOk: bool) returns (outcome: Outcome)
      requires Valid()
      modifies this, storage
      ensures Valid()
      ensures clearOk ==>
        outcome == Done && !isAuthenticated && token == None && user == None && !isLoading &&
        storage.authToken == None && storage.userData == None
      ensures !clearOk ==>
        outcome == Fails(StorageFailed) && isLoading && unchanged(storage) &&
        isAuthenticated == old(isAuthenticated) && user == old(user) && token == old(token)
    {
      isLoading := true;
      // the server call: `serverOk` only decides whether an error is logged
      if !clearOk {
        return Fails(StorageFailed);
      }
      storage.authToken, storage.userData := None, None;
      isAuthenticated, token, user, isLoading := false, None, None, false;
      outcome := Done;
    }

    /** `updateUser`: the profile is sent to the server and the user record
        becomes the current one with the server's fields spread over it. */
    method UpdateUser(reply: ProfileReply, writeOk: bool) returns (outcome: Outcome)
      requires Valid()
      modifies this, storage
      ensures Valid() && !isLoading
      ensures isAuthenticated == old(isAuthenticated) && token == old(token)
      ensures storage.authToken == old(storage.authToken)
      ensures outcome == Done <==> reply.ProfileResponse? && reply.success && reply.data.Some? && writeOk
      ensures outcome == Done ==>
        user == Some(Merge(old(user), reply.data.value.user)) && storage.userData == user
      ensures outcome != Done ==> unchanged(storage)
      ensures reply.ProfileResponse? && reply.success && reply.data.None? ==> outcome == Fails(MissingData)
      ensures reply.ProfileRejects? ==> outcome == Fails(RequestFailed)
      ensures reply.ProfileResponse? && reply.success && reply.data.Some? && !writeOk ==> outcome == Fails(StorageFailed)
      ensures outcome != Done ==> user == old(user)
      ensures reply.ProfileResponse? && !reply.success ==>
        outcome == Fails(ServerRefused(RefusalMessage(reply.error, "Failed to update profile"))) && unchanged(storage)
    {
      isLoading := true;
      if reply.ProfileRejects? {
        isLoading := false;
        return Fails(RequestFailed);
      }
      if !reply.success {
        isLoading := false;
        return Fails(ServerRefused(RefusalMessage(reply.error, "Failed to update profile")));
      }
      if reply.data.None? {
        isLoading := false;
        return Fails(MissingData);
      }
      var updated := Merge(user, reply.data.value.user);
      if !writeOk {
        isLoading := false;
        return Fails(StorageFailed);
      }
      storage.userData := Some(updated);
      user, isLoading := Some(updated), false;
      outcome := Done;
    }
  }

  /** A demo login that persists, followed by a restart of the app (a new
      store over the same storage) and `initialize`, restores exactly the
      session the login created. */
  method SessionSurvivesRestart(demo: DemoAccounts, c: Credentials) returns (restored: bool, sameSession: bool)
    ensures restored <==> Truthy(c.email) && Truthy(c.password) && (c == demo.student || c == demo.owner)
    ensures sameSession
  {
    var storage := new SecureStorage(None, None);
    var first := new Store(storage, demo);
    var outcome := first.Login(c.email, c.password, true, true);
    var second := new Store(storage, demo);
    second.Initialize(true);
    restored := second.isAuthenticated;
    sameSession := second.token == first.token && second.user == first.user;
  }
}
