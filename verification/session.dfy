/**
 * The Matrix session hook: connecting to the local homeserver with the
 * first available credentials, password login and registration with their
 * persistence, disconnecting, and the two effects that tie the session to
 * the node monitor.
 *
 * The HTTP probe, the login and registration calls and the client SDK are
 * replaced by their answers; a client is the handle the SDK would build.
 * Browser storage is a map from key to value.
 */
module SessionConnector {
  import opened Text
  import ConnectionMonitor

  const TokenKey := "swarmchat_access_token"
  const UserKey := "swarmchat_user_id"

  const NoPortError := "no-port"
  const ProbeFailedError := "server-probe-failed"
  const LoginFailedError := "login_failed"
  const RegisterFailedError := "register_failed"

  datatype ConnState = Idle | Connecting | Connected | Disconnected | Error

  /** A client handle: the local port it talks to and the credentials it was built with. */
  datatype Client = Client(port: int, accessToken: Option<string>, userId: Option<string>)

  /** Credentials handed to the hook by its caller. */
  datatype AuthConfig = AuthConfig(
    username: Option<string>, password: Option<string>,
    accessToken: Option<string>, userId: Option<string>)

  /** What a login or registration call did: threw with a message, or answered with these fields. */
  datatype AccountAnswer = Threw(message: string) | Answered(accessToken: Option<string>, userId: Option<string>)

  datatype CredentialSource = FromStorage | FromConfig | FromLogin

  /** The branch `connect` takes. */
  datatype ConnectPath =
    | NoPort
    | ProbeFailed
    | Failed(message: string)
    | Authenticated(source: CredentialSource, accessToken: string, userId: string)
    | Anonymous

  datatype SessionView = SessionView(
    client: Option<Client>,
    userId: Option<string>,
    state: ConnState,
    error: Option<string>,
    isAuthenticated: bool)

  const InitialSession := SessionView(None, None, Idle, None, false)

  function Lookup(store: map<string, string>, key: string): Option<string> {
    if key in store then Some(store[key]) else None
  }

  /** `!port`: an absent port and port zero both count as no port. */
  predicate HasPort(port: Option<int>) {
    port.Some? && port.value != 0
  }

  /**
   * The session the hook keeps: authenticated exactly when a user id is
   * known, and a known user id is non-empty and belongs to a client holding
   * an access token.
   */
  predicate Valid(v: SessionView) {
    && (v.isAuthenticated <==> v.userId.Some?)
    && (v.userId.Some? ==>
          v.userId.value != "" && v.client.Some? && v.client.value.userId == v.userId
          && v.client.value.accessToken.Some?)
  }

  /** Both persisted credential keys hold non-empty values. */
  predicate HasStoredCredentials(store: map<string, string>) {
    Truthy(Lookup(store, TokenKey)) && Truthy(Lookup(store, UserKey))
  }

  /** The caller configured a non-empty access token and user id. */
  predicate HasConfiguredToken(auth: AuthConfig) {
    Truthy(auth.accessToken) && Truthy(auth.userId)
  }

  /** The caller configured a non-empty username and password. */
  predicate HasPassword(auth: AuthConfig) {
    Truthy(auth.username) && Truthy(auth.password)
  }

  /** The login answer carries a non-empty access token and user id. */
  predicate LoginSucceeded(login: AccountAnswer) {
    login.Answered? && Truthy(login.accessToken) && Truthy(login.userId)
  }

  /**
   * Stored credentials, then configured token and user id, then a password
   * login, then anonymous: the first source that applies decides the path.
   */
  function PathOf(port: Option<int>, probeOk: bool, store: map<string, string>, auth: AuthConfig, login: AccountAnswer): (p: ConnectPath)
    ensures p == NoPort <==> !HasPort(port)
    ensures p == ProbeFailed <==> HasPort(port) && !probeOk
    ensures p.Authenticated? ==> p.accessToken != "" && p.userId != ""
    ensures (p.Authenticated? && p.source == FromStorage) <==>
      HasPort(port) && probeOk && HasStoredCredentials(store)
    ensures p.Authenticated? && p.source == FromStorage ==>
      p.accessToken == store[TokenKey] && p.userId == store[UserKey]
    ensures (p.Authenticated? && p.source == FromConfig) <==>
      HasPort(port) && probeOk && !HasStoredCredentials(store) && HasConfiguredToken(auth)
    ensures p.Authenticated? && p.source == FromConfig ==>
      Some(p.accessToken) == auth.accessToken && Some(p.userId) == auth.userId
    ensures (p.Authenticated? && p.source == FromLogin) <==>
      && HasPort(port) && probeOk && !HasStoredCredentials(store) && !HasConfiguredToken(auth)
      && HasPassword(auth) && LoginSucceeded(login)
    ensures p.Authenticated? && p.source == FromLogin ==>
      Some(p.accessToken) == login.accessToken && Some(p.userId) == login.userId
    ensures p.Failed? <==>
      && HasPort(port) && probeOk && !HasStoredCredentials(store) && !HasConfiguredToken(auth)
      && HasPassword(auth) && !LoginSucceeded(login)
    ensures p.Failed? ==> p.message == if login.Threw? then login.message else LoginFailedError
    ensures p == Anonymous <==>
      HasPort(port) && probeOk && !HasStoredCredentials(store) && !HasConfiguredToken(auth) && !HasPassword(auth)
  {
    if !HasPort(port) then NoPort
    else if !probeOk then ProbeFailed
    else if HasStoredCredentials(store) then
      Authenticated(FromStorage, store[TokenKey], store[UserKey])
    else if HasConfiguredToken(auth) then
      Authenticated(FromConfig, auth.accessToken.value, auth.userId.value)
    else if HasPassword(auth) then
      match login
      case Threw(message) => Failed(message)
      case Answered(token, uid) =>
        if Truthy(token) && Truthy(uid) then Authenticated(FromLogin, token.value, uid.value)
        else Failed(LoginFailedError)
    else Anonymous
  }

  datatype ConnectResult = ConnectResult(view: SessionView, client: Option<Client>)

  /**
   * `connect`: the error is cleared, then a missing port, a failed probe or a
   * failed login ends in the error state with its message and no client;
   * otherwise a client is built and, while mounted, becomes the session.
   */
  function ConnectEffect(v: SessionView, port: Option<int>, probeOk: bool, store: map<string, string>,
                         auth: ConnectAuth, mounted: bool): (r: ConnectResult)
    ensures var p := PathOf(port, probeOk, store, auth.config, auth.login);
      r.client.Some? <==> (p.Anonymous? || p.Authenticated?)
    ensures var p := PathOf(port, probeOk, store, auth.config, auth.login);
      && (p.NoPort? ==> r.view == v.(state := Error, error := Some(NoPortError)))
      && (p.ProbeFailed? ==> r.view == v.(state := Error, error := Some(ProbeFailedError)))
      && (p.Failed? ==> r.view == v.(state := Error, error := Some(p.message)))
    ensures var p := PathOf(port, probeOk, store, auth.config, auth.login);
      p.Authenticated? ==>
        && r.client == Some(Client(port.value, Some(p.accessToken), Some(p.userId)))
        && (mounted ==> r.view == SessionView(r.client, Some(p.userId), Connected, None, true))
    ensures var p := PathOf(port, probeOk, store, auth.config, auth.login);
      p.Anonymous? ==>
        && r.client == Some(Client(port.value, None, None))
        && (mounted ==> r.view == SessionView(r.client, None, Connected, None, false))
    ensures r.client.None? ==>
      && r.view.state == Error && r.view.error.Some?
      && r.view.client == v.client && r.view.userId == v.userId && r.view.isAuthenticated == v.isAuthenticated
    ensures r.client.Some? && mounted ==> r.view.client == r.client && r.view.state == Connected && r.view.error == None
    ensures r.client.Some? && !mounted ==> r.view == v.(state := Connecting, error := None)
    ensures Valid(v) ==> Valid(r.view)
  {
    var cleared := v.(error := None);
    match PathOf(port, probeOk, store, auth.config, auth.login)
    case NoPort => ConnectResult(cleared.(error := Some(NoPortError), state := Error), None)
    case ProbeFailed => ConnectResult(cleared.(state := Error, error := Some(ProbeFailedError)), None)
    case Failed(message) => ConnectResult(cleared.(state := Error, error := Some(message)), None)
    case Authenticated(_, token, uid) =>
      var c := Client(port.value, Some(token), Some(uid));
      if mounted
      then ConnectResult(cleared.(client := Some(c), userId := Some(uid), state := Connected, isAuthenticated := true), Some(c))
      else ConnectResult(cleared.(state := Connecting), Some(c))
    case Anonymous =>
      var c := Client(port.value, None, None);
      if mounted
      then ConnectResult(cleared.(client := Some(c), userId := None, isAuthenticated := false, state := Connected), Some(c))
      else ConnectResult(cleared.(state := Connecting), Some(c))
  }

  /** The caller's credentials together with the answer the password login would give. */
  datatype ConnectAuth = ConnectAuth(config: AuthConfig, login: AccountAnswer)

  /** Both credential keys written. */
  function Persisted(store: map<string, string>, token: string, uid: string): (r: map<string, string>)
    ensures Lookup(r, TokenKey) == Some(token) && Lookup(r, UserKey) == Some(uid)
    ensures forall k :: k != TokenKey && k != UserKey ==> Lookup(r, k) == Lookup(store, k)
  {
    store[TokenKey := token][UserKey := uid]
  }

  /** Both credential keys removed. */
  function Forgotten(store: map<string, string>): (r: map<string, string>)
    ensures TokenKey !in r && UserKey !in r
    ensures forall k :: k != TokenKey && k != UserKey ==> Lookup(r, k) == Lookup(store, k)
  {
    store - {TokenKey, UserKey}
  }

  datatype SignInResult = SignInResult(view: SessionView, client: Option<Client>, store: map<string, string>)

  /**
   * `login` and `register`: without a port only the error is set (the state
   * is left alone); a thrown call, or an answer missing the token or the user
   * id, ends in the error state; otherwise both credentials are persisted and
   * the new client becomes the session while mounted.
   */
  function SignInEffect(v: SessionView, store: map<string, string>, port: Option<int>, answer: AccountAnswer,
                        mounted: bool, failedMessage: string): (r: SignInResult)
    ensures !HasPort(port) ==> r == SignInResult(v.(error := Some(NoPortError)), None, store)
    ensures HasPort(port) && answer.Threw? ==>
      r == SignInResult(v.(state := Error, error := Some(answer.message)), None, store)
    ensures HasPort(port) && answer.Answered? && !(Truthy(answer.accessToken) && Truthy(answer.userId)) ==>
      r == SignInResult(v.(state := Error, error := Some(failedMessage)), None, store)
    ensures r.client.Some? ==>
      && HasPort(port) && answer.Answered? && Truthy(answer.accessToken) && Truthy(answer.userId)
      && r.client == Some(Client(port.value, answer.accessToken, answer.userId))
      && r.store == Persisted(store, answer.accessToken.value, answer.userId.value)
      && (mounted ==> r.view == SessionView(r.client, answer.userId, Connected, None, true))
      && (!mounted ==> r.view == v.(state := Connecting, error := None))
    ensures Valid(v) ==> Valid(r.view)
  {
    var cleared := v.(error := None);
    if !HasPort(port) then SignInResult(cleared.(error := Some(NoPortError)), None, store)
    else
      var connecting := cleared.(state := Connecting);
      match answer
      case Threw(message) => SignInResult(connecting.(state := Error, error := Some(message)), None, store)
      case Answered(token, uid) =>
        if !(Truthy(token) && Truthy(uid))
        then SignInResult(connecting.(state := Error, error := Some(failedMessage)), None, store)
        else
          var saved := Persisted(store, token.value, uid.value);
          var c := Client(port.value, token, uid);
          if mounted
          then SignInResult(connecting.(client := Some(c), userId := uid, isAuthenticated := true, state := Connected), Some(c), saved)
          else SignInResult(connecting, Some(c), saved)
  }

  /** `disconnect`: with a client, the session is dropped and both credential keys removed; without one, nothing happens. */
  function DisconnectEffect(v: SessionView, store: map<string, string>): (r: (SessionView, map<string, string>))
    ensures v.client.None? ==> r == (v, store)
    ensures v.client.Some? ==> r == (v.(state := Disconnected, client := None, userId := None, isAuthenticated := false), Forgotten(store))
    ensures Valid(v) ==> Valid(r.0)
  {
    if v.client.None? then (v, store)
    else (v.(state := Disconnected, client := None, userId := None, isAuthenticated := false), Forgotten(store))
  }

  /** The auto-connect effect's guard. */
  predicate ShouldAutoConnect(autoConnect: bool, ready: bool, port: Option<int>, state: ConnState) {
    autoConnect && ready && HasPort(port) && state != Connected && state != Connecting
  }

  /** Stored credentials take precedence over everything the caller configured. */
  lemma StoredCredentialsWin(port: Option<int>, store: map<string, string>, auth: AuthConfig, login: AccountAnswer)
    requires HasPort(port) && HasStoredCredentials(store)
    ensures PathOf(port, true, store, auth, login) == Authenticated(FromStorage, store[TokenKey], store[UserKey])
  {
  }

  /** Without stored credentials a configured token and user id win over a password, whatever the login would answer. */
  lemma ConfiguredTokenBeatsPassword(port: Option<int>, store: map<string, string>, auth: AuthConfig, login: AccountAnswer)
    requires HasPort(port) && !HasStoredCredentials(store) && HasConfiguredToken(auth)
    ensures PathOf(port, true, store, auth, login) == Authenticated(FromConfig, auth.accessToken.value, auth.userId.value)
  {
  }

  /** A password connect does not write the credentials it obtained: the next connect logs in again. */
  lemma PasswordConnectLogsInAgain(port: Option<int>, store: map<string, string>, auth: AuthConfig, login: AccountAnswer)
    requires HasPort(port) && TokenKey !in store
    requires !HasConfiguredToken(auth) && HasPassword(auth)
    ensures PathOf(port, true, store, auth, login) !in {Anonymous, NoPort, ProbeFailed}
    ensures PathOf(port, true, store, auth, login).Authenticated? ==> PathOf(port, true, store, auth, login).source == FromLogin
  {
  }

  /** After a successful login the next connect reuses the persisted credentials. */
  lemma LoginThenConnectReusesCredentials(v: SessionView, store: map<string, string>, port: Option<int>,
                                          answer: AccountAnswer, mounted: bool, auth: AuthConfig, login: AccountAnswer)
    requires SignInEffect(v, store, port, answer, mounted, LoginFailedError).client.Some?
    ensures var saved := SignInEffect(v, store, port, answer, mounted, LoginFailedError).store;
      PathOf(port, true, saved, auth, login) == Authenticated(FromStorage, answer.accessToken.value, answer.userId.value)
  {
    var saved := SignInEffect(v, store, port, answer, mounted, LoginFailedError).store;
    assert Lookup(saved, TokenKey) == answer.accessToken;
    assert Lookup(saved, UserKey) == answer.userId;
  }

  /** After a disconnect the stored credentials are gone, so the next connect does not find them. */
  lemma DisconnectForgetsCredentials(v: SessionView, store: map<string, string>, port: Option<int>, auth: AuthConfig, login: AccountAnswer)
    requires v.client.Some? && HasPort(port)
    ensures var p := PathOf(port, true, DisconnectEffect(v, store).1, auth, login);
      !(p.Authenticated? && p.source == FromStorage)
  {
    var forgotten := DisconnectEffect(v, store).1;
    assert Lookup(forgotten, TokenKey) == None;
  }

  /** Port zero satisfies the monitor's readiness check but is "no port" to `connect`. */
  lemma PortZeroReadyButUnconnectable(v: SessionView, store: map<string, string>, auth: ConnectAuth, mounted: bool)
    ensures ConnectionMonitor.IsReady(Some("running"), Some(0), true)
    ensures ConnectEffect(v, Some(0), true, store, auth, mounted).view.error == Some(NoPortError)
    ensures !ShouldAutoConnect(true, true, Some(0), Idle)
  {
  }

  /**
   * A failed reconnect of a connected session leaves the error state with the
   * old client and user id in place: the user id is not tied to being connected.
   */
  lemma FailedReconnectKeepsSession(v: SessionView, store: map<string, string>, auth: ConnectAuth, mounted: bool)
    requires v.state == Connected && v.userId.Some?
    ensures var r := ConnectEffect(v, Some(8008), false, store, auth, mounted).view;
      r.state == Error && r.userId == v.userId && r.client == v.client
  {
  }

  class Session {
    var client: Option<Client>
    var userId: Option<string>
    var state: ConnState
    var error: Option<string>
    var isAuthenticated: bool
    /** Browser storage. */
    var store: map<string, string>
    var mounted: bool

    function View(): SessionView
      reads this
    {
      SessionView(client, userId, state, error, isAuthenticated)
    }

    method SetView(v: SessionView)
      modifies this
      ensures View() == v && store == old(store) && mounted == old(mounted)
    {
      client, userId, state, error, isAuthenticated := v.client, v.userId, v.state, v.error, v.isAuthenticated;
    }

    constructor (store: map<string, string>)
      ensures View() == InitialSession && this.store == store && mounted
      ensures Valid(View())
    {
      client, userId, state, error, isAuthenticated := None, None, Idle, None, false;
      this.store := store;
      mounted := true;
    }

    /** `connect` with the monitor's port, the probe's verdict and the caller's credentials; storage is only read. */
    method Connect(port: Option<int>, probeOk: bool, auth: ConnectAuth) returns (result: Option<Client>)
      modifies this
      requires Valid(View())
      ensures var r := ConnectEffect(old(View()), port, probeOk, old(store), auth, mounted);
        View() == r.view && result == r.client
      ensures store == old(store) && mounted == old(mounted)
      ensures Valid(View())
    {
      var r := ConnectEffect(View(), port, probeOk, store, auth, mounted);
      SetView(r.view);
      result := r.client;
    }

    /** `login`, or `register` with `failedMessage` set to its own message. */
    method SignIn(port: Option<int>, answer: AccountAnswer, failedMessage: string) returns (result: Option<Client>)
      modifies this
      requires Valid(View())
      ensures var r := SignInEffect(old(View()), old(store), port, answer, mounted, failedMessage);
        View() == r.view && result == r.client && store == r.store
      ensures mounted == old(mounted)
      ensures Valid(View())
    {
      var r := SignInEffect(View(), store, port, answer, mounted, failedMessage);
      SetView(r.view);
      store := r.store;
      result := r.client;
    }

    method Login(port: Option<int>, answer: AccountAnswer) returns (result: Option<Client>)
      modifies this
      requires Valid(View())
      ensures var r := SignInEffect(old(View()), old(store), port, answer, mounted, LoginFailedError);
        View() == r.view && result == r.client && store == r.store
      ensures mounted == old(mounted)
      ensures Valid(View())
    {
      result := SignIn(port, answer, LoginFailedError);
    }

    method Register(port: Option<int>, answer: AccountAnswer) returns (result: Option<Client>)
      modifies this
      requires Valid(View())
      ensures var r := SignInEffect(old(View()), old(store), port, answer, mounted, RegisterFailedError);
        View() == r.view && result == r.client && store == r.store
      ensures mounted == old(mounted)
      ensures Valid(View())
    {
      result := SignIn(port, answer, RegisterFailedError);
    }

    method Disconnect()
      modifies this
      requires Valid(View())
      ensures var r := DisconnectEffect(old(View()), old(store));
        View() == r.0 && store == r.1
      ensures mounted == old(mounted)
      ensures Valid(View())
    {
      if client.None? {
        return;
      }
      state := Disconnected;
      client := None;
      userId := None;
      isAuthenticated := false;
      store := Forgotten(store);
    }

    /**
     * The auto-connect effect: when its guard holds, the state goes to
     * connecting and `connect` runs; a failed attempt schedules a timer that,
     * if the effect was not cancelled and the hook is still mounted, sets the
     * error state, which `connect` has already set.
     */
    method AutoConnect(autoConnect: bool, ready: bool, port: Option<int>, probeOk: bool,
                       auth: ConnectAuth, cancelled: bool)
      modifies this
      requires Valid(View())
      ensures ShouldAutoConnect(autoConnect, ready, port, old(state)) ==>
        View() == ConnectEffect(old(View()).(state := Connecting), port, probeOk, old(store), auth, mounted).view
      ensures !ShouldAutoConnect(autoConnect, ready, port, old(state)) ==> View() == old(View())
      ensures store == old(store) && mounted == old(mounted)
      ensures Valid(View())
    {
      if !ShouldAutoConnect(autoConnect, ready, port, state) {
        return;
      }
      state := Connecting;
      var result := Connect(port, probeOk, auth);
      if result.None? && !cancelled && mounted {
        state := Error;
      }
    }

    /** The effect that drops a client once the monitor is no longer ready. */
    method TearDownIfUnready(ready: bool)
      modifies this
      requires Valid(View())
      ensures !ready && old(client).Some? ==> var r := DisconnectEffect(old(View()), old(store));
        View() == r.0 && store == r.1
      ensures ready || old(client).None? ==> View() == old(View()) && store == old(store)
      ensures mounted == old(mounted)
    {
      if !ready && client.Some? {
        Disconnect();
      }
    }

    /** The mount effect's cleanup. */
    method Unmount()
      modifies this
      ensures View() == old(View()) && store == old(store) && !mounted
    {
      mounted := false;
    }
  }
}
