/** The browser's session controller (frontend/lib/auth-session.ts) against the
    refresh endpoint.

    The controller runs between awaits; each method of the class below is one
    such stretch.  The system around it adds the cookie jar, the calls in
    flight and the server of module Sessions, whose transactions are atomic.
    A schedule is any sequence of events; nothing orders them. */
module AuthSession {
  import opened Prelude
  import opened Sessions

  type Access = nat
  type Generation = nat
  type CallId = nat

  datatype AuthMode = LoginMode | RegisterMode

  datatype SessionState =
    | CheckingSession | AnonymousLogin | AnonymousRegister | RegistrationAccepted
    | Authenticated | SessionExpired | CoreNotReady

  datatype Model = Model(authMode: AuthMode, sessionState: SessionState, user: Option<UserId>, accessToken: Option<Access>)

  /** `refreshPromise` names the refresh in flight; promises are numbered. */
  datatype Client = Client(model: Model, refreshPromise: Option<Generation>, nextGeneration: Generation)

  /** What a refused request does next: retry with a token, or await a refresh. */
  datatype Continuation = RetryWith(token: Access) | Await(generation: Generation)

  function AnonymousState(mode: AuthMode): SessionState {
    if mode == RegisterMode then AnonymousRegister else AnonymousLogin
  }

  function ClearSession(m: Model): Model { Model(m.authMode, m.sessionState, None, None) }

  function HandleSessionEnded(m: Model): Model { Model(LoginMode, SessionExpired, None, None) }

  function Ended(c: Client): Client { Client(HandleSessionEnded(c.model), c.refreshPromise, c.nextGeneration) }

  /** refreshAccessToken up to its first await: join, or start the only flight. */
  function JoinOrStart(c: Client): (Client, Generation) {
    if c.refreshPromise.Some? then (c, c.refreshPromise.value)
    else (Client(c.model, Some(c.nextGeneration), c.nextGeneration + 1), c.nextGeneration)
  }

  /** The catch block of requestWithRefresh for a 401. */
  function OnUnauthorized(c: Client, refused: Option<Access>): (Client, Continuation) {
    if c.model.accessToken.Some? && c.model.accessToken != refused
    then (c, RetryWith(c.model.accessToken.value))
    else var (c', g) := JoinOrStart(c); (c', Await(g))
  }

  /** The end of the flight: success stores the token, failure clears the session. */
  function OnRefreshSettled(c: Client, result: Option<Access>, suppressMessage: bool): Client {
    var model := if result.Some? then c.model.(accessToken := result)
                 else if suppressMessage then ClearSession(c.model)
                 else HandleSessionEnded(c.model);
    Client(model, None, c.nextGeneration)
  }

  function OnLoggedIn(c: Client, token: Access): Client {
    Client(c.model.(accessToken := Some(token)), c.refreshPromise, c.nextGeneration)
  }

  function OnLoggedOut(c: Client): Client {
    Client(Model(LoginMode, AnonymousLogin, None, None), c.refreshPromise, c.nextGeneration)
  }

  /** restoreSession up to its first await. */
  function OnRestoreBegin(c: Client): (Client, Generation) {
    JoinOrStart(Client(c.model.(sessionState := CheckingSession), c.refreshPromise, c.nextGeneration))
  }

  /** restoreSession after a refresh that brought nothing. */
  function OnRestoreFailed(c: Client): Client {
    Client(Model(c.model.authMode, AnonymousState(c.model.authMode), None, None), c.refreshPromise, c.nextGeneration)
  }

  class AuthSessionController {
    var model: Model
    var refreshPromise: Option<Generation>
    var nextGeneration: Generation

    function View(): Client
      reads this
    {
      Client(model, refreshPromise, nextGeneration)
    }

    constructor (mode: AuthMode)
      ensures View() == Client(Model(mode, AnonymousState(mode), None, None), None, 0)
    {
      model := Model(mode, AnonymousState(mode), None, None);
      refreshPromise := None;
      nextGeneration := 0;
    }

    method Clear()
      modifies this
      ensures View() == old(View()).(model := ClearSession(old(model)))
    {
      model := model.(accessToken := None, user := None);
    }

    method SessionEnded()
      modifies this
      ensures View() == Ended(old(View()))
    {
      Clear();
      model := model.(authMode := LoginMode, sessionState := SessionExpired);
    }

    method RefreshAccessToken() returns (g: Generation)
      modifies this
      ensures (View(), g) == JoinOrStart(old(View()))
    {
      if refreshPromise.Some? {
        return refreshPromise.value;
      }
      g := nextGeneration;
      refreshPromise := Some(g);
      nextGeneration := nextGeneration + 1;
    }

    method RequestUnauthorized(refused: Option<Access>) returns (next: Continuation)
      modifies this
      ensures (View(), next) == OnUnauthorized(old(View()), refused)
    {
      if model.accessToken.Some? && model.accessToken != refused {
        return RetryWith(model.accessToken.value);
      }
      var g := RefreshAccessToken();
      return Await(g);
    }

    method RefreshSettled(result: Option<Access>, suppressMessage: bool)
      modifies this
      ensures View() == OnRefreshSettled(old(View()), result, suppressMessage)
    {
      if result.Some? {
        model := model.(accessToken := result);
      } else {
        Clear();
        if !suppressMessage {
          SessionEnded();
        }
      }
      refreshPromise := None;
    }

    method RestoreBegin() returns (g: Generation)
      modifies this
      ensures (View(), g) == OnRestoreBegin(old(View()))
    {
      model := model.(sessionState := CheckingSession);
      g := RefreshAccessToken();
    }

    method RestoreFailed()
      modifies this
      ensures View() == OnRestoreFailed(old(View()))
    {
      model := model.(accessToken := None, user := None, sessionState := AnonymousState(model.authMode));
    }

    method LoggedIn(token: Access)
      modifies this
      ensures View() == OnLoggedIn(old(View()), token)
    {
      model := model.(accessToken := Some(token));
    }

    method LoggedOut()
      modifies this
      ensures View() == OnLoggedOut(old(View()))
    {
      Clear();
      model := model.(sessionState := AnonymousLogin, authMode := LoginMode);
    }
  }

  // --------------------------------------------------------------- system

  datatype Jar = Jar(refresh: Option<TokenId>, csrf: Option<Csrf>)

  datatype Reply = Tokens(access: Access, refresh: TokenId, csrf: Csrf) | Denied

  datatype Flight =
    | Proving(suppress: bool)
    | Sent(suppress: bool, jar: Jar)
    | Answered(suppress: bool, reply: Reply)

  datatype Request =
    | First(token: Option<Access>)
    | Waiting(generation: Generation, refused: Option<Access>, restore: bool)
    | Retrying(retryToken: Access, refused: Option<Access>)
    | Finished

  datatype LoginCall = LoginSent | LoginAnswered(loginReply: Reply)
  datatype LogoutCall = LogoutSent(jar: Jar) | LogoutAnswered(cleared: bool)

  datatype System = System(
    server: Server,
    mine: set<FamilyId>,
    issued: set<Access>,
    client: Client,
    jar: Jar,
    flights: map<Generation, Flight>,
    strays: map<Generation, Jar>,
    settled: map<Generation, Option<Access>>,
    requests: map<CallId, Request>,
    logins: map<CallId, LoginCall>,
    logouts: map<CallId, LogoutCall>,
    answers: seq<Outcome>)

  /** A request or its reply is lost; a reply is cut when its headers, with the
      cookies, arrive and its body does not; a request the browser gives up on is a
      stray, which the server may still serve. */
  datatype Event =
    | Begin(r: CallId)
    | RequestSettled(r: CallId)
    | ProofFailed(r: CallId)
    | Unauthorized(r: CallId)
    | Restore(r: CallId)
    | FlightProofFailed(g: Generation)
    | FlightSend(g: Generation)
    | FlightServe(g: Generation, active: bool, now: Time, childId: TokenId, access: Access, nonce: nat)
    | FlightReject(g: Generation)
    | FlightDeliver(g: Generation)
    | FlightCut(g: Generation)
    | FlightLose(g: Generation)
    | FlightAbandon(g: Generation)
    | StrayServe(g: Generation, active: bool, now: Time, childId: TokenId, access: Access, nonce: nat)
    | Resume(r: CallId)
    | LoginServe(l: CallId, user: UserId, now: Time, family: FamilyId, token: TokenId, access: Access, nonce: nat)
    | LogoutServe(k: CallId, now: Time)
    | Calls(c: CallEvent)
    | Reload
    | Others(op: Op)

  /** The browser's side of a login or logout, and the cookies' own end. */
  datatype CallEvent =
    | LoginSend(l: CallId)
    | LoginDeliver(l: CallId)
    | LoginCut(l: CallId)
    | LoginLose(l: CallId)
    | LogoutSend(k: CallId)
    | LogoutDeliver(k: CallId)
    | LogoutLose(k: CallId)
    | CookiesExpire

  /** One browser, with the key its proofs are made with. */
  datatype Setup = Setup(cfg: Settings, key: Option<Thumbprint>)

  const NO_COOKIES: Jar := Jar(None, None)

  function Initial(): System {
    System(EMPTY, {}, {}, Client(Model(LoginMode, AnonymousLogin, None, None), None, 0),
           NO_COOKIES, map[], map[], map[], map[], map[], map[], [])
  }

  /** The browser attaches its cookies and the controller copies the CSRF cookie
      into the header in the same synchronous stretch. */
  function Presented(setup: Setup, jar: Jar): Credentials {
    Credentials(true, jar.refresh, jar.csrf, jar.csrf, setup.key)
  }

  /** Traffic of other users never holds a token of this browser's families. */
  predicate Foreign(s: System, op: Op) {
    match op
    case OpRefresh(c, _, _, _) => c.refreshToken.Some? && c.refreshToken.value in s.server.tokens ==>
      s.server.tokens[c.refreshToken.value].family !in s.mine
    case OpLogout(c, _) => c.refreshToken.Some? && c.refreshToken.value in s.server.tokens ==>
      s.server.tokens[c.refreshToken.value].family !in s.mine
    case _ => true
  }

  predicate CallCan(s: System, c: CallEvent) {
    match c
    case LoginSend(l) => l !in s.logins
    case LoginDeliver(l) => l in s.logins && s.logins[l].LoginAnswered?
    case LoginCut(l) => l in s.logins && s.logins[l].LoginAnswered? && s.logins[l].loginReply.Tokens?
    case LoginLose(l) => l in s.logins
    case LogoutSend(k) => k !in s.logouts
    case LogoutDeliver(k) => k in s.logouts && s.logouts[k].LogoutAnswered?
    case LogoutLose(k) => k in s.logouts
    case CookiesExpire => true
  }

  predicate CanHappen(s: System, e: Event) {
    match e
    case Begin(r) => r !in s.requests
    case RequestSettled(r) => r in s.requests && (s.requests[r].First? || s.requests[r].Retrying?)
    case ProofFailed(r) => r in s.requests && (s.requests[r].First? || s.requests[r].Retrying?)
    case Unauthorized(r) => r in s.requests && s.requests[r].First?
    case Restore(r) => r !in s.requests
    case FlightProofFailed(g) => g in s.flights && s.flights[g].Proving?
    case FlightSend(g) => g in s.flights && s.flights[g].Proving?
    case FlightServe(g, _, _, childId, access, _) =>
      g in s.flights && s.flights[g].Sent? && childId !in s.server.tokens && access !in s.issued
    case FlightReject(g) => g in s.flights && s.flights[g].Sent?
    case FlightDeliver(g) => g in s.flights && s.flights[g].Answered?
    case FlightCut(g) => g in s.flights && s.flights[g].Answered? && s.flights[g].reply.Tokens?
    case FlightAbandon(g) => g in s.flights && s.flights[g].Sent?
    case StrayServe(g, _, _, childId, access, _) => g in s.strays && childId !in s.server.tokens && access !in s.issued
    case FlightLose(g) => g in s.flights && !s.flights[g].Proving?
    case Resume(r) => r in s.requests && s.requests[r].Waiting? && s.requests[r].generation in s.settled
    case LoginServe(l, _, _, family, token, access, _) =>
      l in s.logins && s.logins[l].LoginSent? &&
      family !in s.server.families && token !in s.server.tokens && access !in s.issued
    case LogoutServe(k, _) => k in s.logouts && s.logouts[k].LogoutSent?
    case Calls(c) => CallCan(s, c)
    case Reload => true
    case Others(op) => Enabled(s.server, op) && Foreign(s, op)
  }

  /** The cookies a reply sets. */
  function CookiesOf(reply: Reply): Jar
    requires reply.Tokens?
  {
    Jar(Some(reply.refresh), Some(reply.csrf))
  }

  /** End of a flight: the promise resolves and the slot is free again. */
  function Settle(s: System, g: Generation, result: Option<Access>, suppress: bool): System {
    s.(client := OnRefreshSettled(s.client, result, suppress),
       flights := s.flights - {g},
       settled := s.settled[g := result])
  }

  /** What the end of a flight does before its promise resolves. */
  function Ending(s: System, e: Event): System
    requires Settles(e) && CanHappen(s, e)
  {
    match e
    case FlightProofFailed(_) => s.(client := Ended(s.client))
    case FlightDeliver(g) => s.(jar := if s.flights[g].reply.Tokens? then CookiesOf(s.flights[g].reply) else NO_COOKIES)
    case FlightCut(g) => s.(jar := CookiesOf(s.flights[g].reply))
    case FlightAbandon(g) => s.(strays := s.strays[g := s.flights[g].jar])
    case FlightLose(_) => s
  }

  /** What its promise resolves with. */
  function ResultOf(s: System, e: Event): Option<Access>
    requires Settles(e) && CanHappen(s, e)
  {
    if e.FlightDeliver? && s.flights[e.g].reply.Tokens? then Some(s.flights[e.g].reply.access) else None
  }

  function EndFlight(s: System, e: Event): System
    requires Settles(e) && CanHappen(s, e)
  {
    Settle(Ending(s, e), e.g, ResultOf(s, e), s.flights[e.g].suppress)
  }

  /** A caller awaits generation g, which starts proving if it is new. */
  function AwaitRefresh(s: System, r: CallId, refused: Option<Access>, c: Client, g: Generation, restore: bool): System {
    s.(client := c,
       flights := if s.client.refreshPromise.Some? then s.flights else s.flights[g := Proving(restore)],
       requests := s.requests[r := Waiting(g, refused, restore)])
  }

  function ServeRefresh(setup: Setup, s: System, e: Event): System
    requires e.FlightServe? && CanHappen(s, e)
  {
    var flight := s.flights[e.g];
    var (server', o) := Exec(setup.cfg, s.server, OpRefresh(Presented(setup, flight.jar), e.active, e.now, e.childId));
    var reply := if o.Rotated? then Tokens(e.access, o.child, Issued(o.family, e.nonce)) else Denied;
    s.(server := server', issued := s.issued + {e.access},
       flights := s.flights[e.g := Answered(flight.suppress, reply)], answers := s.answers + [o])
  }

  /** The server answers a request nobody waits for any more. */
  function ServeStray(setup: Setup, s: System, e: Event): System
    requires e.StrayServe? && CanHappen(s, e)
  {
    var (server', o) := Exec(setup.cfg, s.server, OpRefresh(Presented(setup, s.strays[e.g]), e.active, e.now, e.childId));
    s.(server := server', issued := s.issued + {e.access}, strays := s.strays - {e.g}, answers := s.answers + [o])
  }

  function ServeLogin(setup: Setup, s: System, e: Event): System
    requires e.LoginServe? && CanHappen(s, e)
  {
    var server' := Exec(setup.cfg, s.server, OpLogin(e.user, setup.key, e.now, e.family, e.token)).0;
    s.(server := server', mine := s.mine + {e.family}, issued := s.issued + {e.access},
       logins := s.logins[e.l := LoginAnswered(Tokens(e.access, e.token, Issued(e.family, e.nonce)))])
  }

  function ServeLogout(setup: Setup, s: System, k: CallId, now: Time): System
    requires k in s.logouts && s.logouts[k].LogoutSent?
  {
    var (server', o) := Exec(setup.cfg, s.server, OpLogout(Presented(setup, s.logouts[k].jar), now));
    s.(server := server', logouts := s.logouts[k := LogoutAnswered(o != CsrfRejected)])
  }

  /** The page is loaded anew: a new controller, and every request sent is a stray. */
  function Reloaded(s: System): System {
    s.(client := Client(Model(LoginMode, AnonymousLogin, None, None), None, s.client.nextGeneration),
       requests := map[], flights := map[],
       strays := s.strays + (map g | g in s.flights && s.flights[g].Sent? :: s.flights[g].jar))
  }

  function CallStep(s: System, c: CallEvent): System
    requires CallCan(s, c)
  {
    match c
    case LoginSend(l) => s.(logins := s.logins[l := LoginSent])
    case LoginDeliver(l) =>
      var reply := s.logins[l].loginReply;
      if reply.Tokens?
      then s.(jar := CookiesOf(reply), client := OnLoggedIn(s.client, reply.access), logins := s.logins - {l})
      else s.(logins := s.logins - {l})
    case LoginCut(l) => s.(jar := CookiesOf(s.logins[l].loginReply), logins := s.logins - {l})
    case LoginLose(l) => s.(logins := s.logins - {l})
    case LogoutSend(k) => s.(logouts := s.logouts[k := LogoutSent(s.jar)])
    case LogoutDeliver(k) =>
      if s.logouts[k].cleared
      then s.(jar := NO_COOKIES, client := OnLoggedOut(s.client), logouts := s.logouts - {k})
      else s.(logouts := s.logouts - {k})
    case LogoutLose(k) => s.(logouts := s.logouts - {k})
    case CookiesExpire => s.(jar := NO_COOKIES)
  }

  function Step(setup: Setup, s: System, e: Event): System
    requires CanHappen(s, e)
  {
    match e
    case Begin(r) => s.(requests := s.requests[r := First(s.client.model.accessToken)])
    case RequestSettled(r) => s.(requests := s.requests[r := Finished])
    case ProofFailed(r) => s.(client := Ended(s.client), requests := s.requests[r := Finished])
    case Unauthorized(r) =>
      var refused := s.requests[r].token;
      var (c, next) := OnUnauthorized(s.client, refused);
      (match next
       case RetryWith(t) => s.(requests := s.requests[r := Retrying(t, refused)])
       case Await(g) => AwaitRefresh(s, r, refused, c, g, false))
    case Restore(r) => var (c, g) := OnRestoreBegin(s.client); AwaitRefresh(s, r, None, c, g, true)
    case FlightProofFailed(_) => EndFlight(s, e)
    case FlightSend(g) => s.(flights := s.flights[g := Sent(s.flights[g].suppress, s.jar)])
    case FlightServe(_, _, _, _, _, _) => ServeRefresh(setup, s, e)
    case FlightReject(g) => s.(flights := s.flights[g := Answered(s.flights[g].suppress, Denied)])
    case FlightDeliver(_) => EndFlight(s, e)
    case FlightCut(_) => EndFlight(s, e)
    case FlightAbandon(_) => EndFlight(s, e)
    case StrayServe(_, _, _, _, _, _) => ServeStray(setup, s, e)
    case FlightLose(_) => EndFlight(s, e)
    case Resume(r) =>
      var w := s.requests[r];
      (match s.settled[w.generation]
       case Some(t) => s.(requests := s.requests[r := if w.restore then Finished else Retrying(t, w.refused)])
       case None =>
         s.(client := if w.restore then OnRestoreFailed(s.client) else Ended(s.client),
            requests := s.requests[r := Finished]))
    case LoginServe(_, _, _, _, _, _, _) => ServeLogin(setup, s, e)
    case LogoutServe(k, now) => ServeLogout(setup, s, k, now)
    case Calls(c) => CallStep(s, c)
    case Reload => Reloaded(s)
    case Others(op) => s.(server := Exec(setup.cfg, s.server, op).0)
  }

  function RunEvents(setup: Setup, s: System, events: seq<Event>): System
    requires Possible(setup, s, events)
    decreases |events|
  {
    if events == [] then s else RunEvents(setup, Step(setup, s, events[0]), events[1..])
  }

  predicate Possible(setup: Setup, s: System, events: seq<Event>)
    decreases |events|
  {
    events == [] || (CanHappen(s, events[0]) && Possible(setup, Step(setup, s, events[0]), events[1..]))
  }

  /** An answered rotation never reaches the browser. */
  predicate LosesRotation(s: System, e: Event) {
    if e.Reload? then Rotating(s)
    else e.FlightLose? && e.g in s.flights && s.flights[e.g].Answered? && s.flights[e.g].reply.Tokens?
  }

  /** What spoils a run: a rotation that is lost, or an abandoned request that is
      served after all. */
  predicate Spoils(s: System, e: Event) { LosesRotation(s, e) || e.StrayServe? }

  predicate Delivered(setup: Setup, s: System, events: seq<Event>)
    requires Possible(setup, s, events)
    decreases |events|
  {
    events == [] || (!Spoils(s, events[0]) && Delivered(setup, Step(setup, s, events[0]), events[1..]))
  }

  // ------------------------------------------------------ the invariant

  /** At most one refresh is in flight, and the controller knows which. */
  ghost predicate SingleFlight(s: System) {
    && s.flights.Keys == (if s.client.refreshPromise.Some? then {s.client.refreshPromise.value} else {})
    && (forall g :: g in s.flights ==> g < s.client.nextGeneration && g !in s.settled)
    && (forall g :: g in s.settled ==> g < s.client.nextGeneration)
  }

  /** Nobody waits for a refresh that is neither in flight nor settled. */
  ghost predicate NoLostWakeup(s: System) {
    forall r :: r in s.requests && s.requests[r].Waiting? ==>
      s.requests[r].generation in s.flights || s.requests[r].generation in s.settled
  }

  /** t belongs to this browser and has not been spent, unless its family is dead. */
  ghost predicate Usable(s: System, t: TokenId) {
    && t in s.server.tokens
    && s.server.tokens[t].family in s.mine
    && s.server.tokens[t].family in s.server.families
    && (Consumed(s.server.tokens[t]) ==> s.server.families[s.server.tokens[t].family].revokedAt.Some?)
  }

  predicate Rotating(s: System) {
    exists g :: g in s.flights && s.flights[g].Answered? && s.flights[g].reply.Tokens?
  }

  predicate CarriedByLogin(s: System, l: CallId) {
    l in s.logins && s.logins[l].LoginAnswered? && s.logins[l].loginReply.Tokens?
  }

  predicate CarriedByFlight(s: System, g: Generation) {
    g in s.flights && s.flights[g].Answered? && s.flights[g].reply.Tokens?
  }

  predicate Presenting(s: System, g: Generation) {
    g in s.flights && s.flights[g].Sent? && s.flights[g].jar.refresh.Some?
  }

  /** Where refresh tokens may be, and in which state.  The cookie may already be
      spent only while its replacement is on the way. */
  ghost predicate TokensInPlace(s: System) {
    && s.mine <= s.server.families.Keys
    && (s.jar.refresh.Some? && !Rotating(s) ==> Usable(s, s.jar.refresh.value))
    && (s.jar.refresh.Some? ==> s.jar.refresh.value in s.server.tokens)
    && (forall g :: Presenting(s, g) ==> Usable(s, s.flights[g].jar.refresh.value))
    && (forall g :: CarriedByFlight(s, g) ==> Usable(s, s.flights[g].reply.refresh))
    && (forall l :: CarriedByLogin(s, l) ==> Usable(s, s.logins[l].loginReply.refresh))
  }

  /** A token still on its way from a login is nowhere else. */
  ghost predicate LoginTokensApart(s: System) {
    forall l :: CarriedByLogin(s, l) ==>
      var t := s.logins[l].loginReply.refresh;
      && s.jar.refresh != Some(t)
      && (forall g :: Presenting(s, g) ==> s.flights[g].jar.refresh != Some(t))
      && (forall g :: CarriedByFlight(s, g) ==> s.flights[g].reply.refresh != t)
      && (forall m :: CarriedByLogin(s, m) && m != l ==> s.logins[m].loginReply.refresh != t)
  }

  /** An access token on its way is not yet known to the controller. */
  ghost predicate AccessApart(s: System) {
    && (s.client.model.accessToken.Some? ==> s.client.model.accessToken.value in s.issued)
    && (forall r :: r in s.requests ==> Held(s.requests[r]) <= s.issued)
    && (forall g :: g in s.settled && s.settled[g].Some? ==> s.settled[g].value in s.issued)
    && (forall l :: CarriedByLogin(s, l) ==> s.logins[l].loginReply.access in s.issued)
    && (forall g :: CarriedByFlight(s, g) ==>
          var a := s.flights[g].reply.access;
          && a in s.issued
          && s.client.model.accessToken != Some(a)
          && (forall r :: r in s.requests ==> a !in Held(s.requests[r]))
          && (forall l :: CarriedByLogin(s, l) ==> s.logins[l].loginReply.access != a))
  }

  function Held(r: Request): set<Access> {
    match r
    case First(Some(t)) => {t}
    case Waiting(_, Some(t), _) => {t}
    case _ => {}
  }

  /** Whoever waited is handed a token other than the one that was refused. */
  ghost predicate RetriesMakeProgress(s: System) {
    forall r :: r in s.requests && s.requests[r].Waiting? && s.requests[r].generation in s.settled
                && s.settled[s.requests[r].generation].Some? ==>
      s.requests[r].refused != s.settled[s.requests[r].generation]
  }

  /** And whoever retries does so with an issued token other than that one. */
  ghost predicate RetriesAreFresh(s: System) {
    forall r :: r in s.requests && s.requests[r].Retrying? ==>
      s.requests[r].retryToken in s.issued && Some(s.requests[r].retryToken) != s.requests[r].refused
  }

  ghost predicate Safe(s: System) { Outcome.Replay !in s.answers }

  /** What the controller keeps, whatever is lost or abandoned. */
  ghost predicate ClientInv(s: System) {
    SingleFlight(s) && NoLostWakeup(s) && AccessApart(s) && RetriesMakeProgress(s) && RetriesAreFresh(s)
  }

  ghost predicate SystemInv(s: System) {
    ClientInv(s) && TokensInPlace(s) && LoginTokensApart(s) && Safe(s)
  }

  // ------------------------------------------------- preservation, by part

  /** The flight slots are as before and no request starts to wait. */
  ghost predicate SameFlights(s: System, s': System) {
    && s'.flights.Keys == s.flights.Keys && s'.settled == s.settled
    && s'.client.refreshPromise == s.client.refreshPromise
    && s'.client.nextGeneration == s.client.nextGeneration
    && forall r :: r in s'.requests && s'.requests[r].Waiting? ==> r in s.requests && s'.requests[r] == s.requests[r]
  }

  predicate Waits(e: Event) { e.Unauthorized? || e.Restore? }

  /** A request goes on without touching a flight. */
  predicate MovesRequest(e: Event) {
    e.Begin? || e.RequestSettled? || e.ProofFailed? || e.Resume?
  }

  /** A login reaches the browser, with or without its body. */
  predicate BringsLogin(c: CallEvent) { c.LoginDeliver? || c.LoginCut? }

  predicate Settles(e: Event) {
    e.FlightProofFailed? || e.FlightDeliver? || e.FlightCut? || e.FlightLose? || e.FlightAbandon?
  }

  predicate ServerStep(e: Event) { e.FlightServe? || e.StrayServe? || e.LoginServe? || e.LogoutServe? || e.Others? }

  /** What only requests, calls or the client changed. */
  ghost predicate SameOutside(s: System, s': System) {
    && s'.server == s.server && s'.mine == s.mine && s'.issued == s.issued && s'.answers == s.answers
    && s'.flights == s.flights && s'.settled == s.settled
    && s'.client.refreshPromise == s.client.refreshPromise && s'.client.nextGeneration == s.client.nextGeneration
  }

  lemma RequestStepFrame(setup: Setup, s: System, e: Event)
    requires CanHappen(s, e) && MovesRequest(e)
    ensures var s' := Step(setup, s, e);
      SameOutside(s, s') && s'.jar == s.jar && s'.logins == s.logins && s'.logouts == s.logouts
  {
  }

  lemma CallStepFrame(s: System, c: CallEvent)
    requires CallCan(s, c)
    ensures SameOutside(s, CallStep(s, c)) && CallStep(s, c).requests == s.requests
  {
    if c.LogoutDeliver? { LogoutStoredFrame(s, c.k); }
  }

  lemma LogoutStoredFrame(s: System, k: CallId)
    requires CallCan(s, LogoutDeliver(k))
    ensures SameOutside(s, CallStep(s, LogoutDeliver(k))) && CallStep(s, LogoutDeliver(k)).requests == s.requests
  {
  }

  lemma ReloadFrame(s: System)
    ensures var s' := Reloaded(s);
      && s'.server == s.server && s'.mine == s.mine && s'.issued == s.issued && s'.answers == s.answers
      && s'.settled == s.settled && s'.jar == s.jar && s'.logins == s.logins && s'.flights == map[] && s'.requests == map[]
      && s'.client.refreshPromise.None? && s'.client.nextGeneration == s.client.nextGeneration
      && s'.client.model.accessToken.None?
  {
  }

  lemma RequestStepKeepsFlights(setup: Setup, s: System, e: Event)
    requires CanHappen(s, e) && MovesRequest(e)
    ensures SameFlights(s, Step(setup, s, e))
  {
    RequestStepFrame(setup, s, e);
  }

  lemma BrowserStepKeepsFlights(setup: Setup, s: System, e: Event)
    requires CanHappen(s, e) && !Waits(e) && !Settles(e) && !e.Reload?
    requires !ServerStep(e)
    ensures SameFlights(s, Step(setup, s, e))
  {
    if MovesRequest(e) {
      RequestStepKeepsFlights(setup, s, e);
    } else if e.Calls? {
      CallStepFrame(s, e.c);
    } else {
      assert e.FlightSend? || e.FlightReject?;
    }
  }

  lemma ServerStepKeepsFlights(setup: Setup, s: System, e: Event)
    requires CanHappen(s, e) && ServerStep(e)
    ensures SameFlights(s, Step(setup, s, e)) && Step(setup, s, e).client == s.client
    ensures Step(setup, s, e).jar == s.jar && Step(setup, s, e).requests == s.requests
  {
  }

  lemma KeepsSingleFlight(setup: Setup, s: System, e: Event)
    requires CanHappen(s, e) && SingleFlight(s) && NoLostWakeup(s)
    ensures SingleFlight(Step(setup, s, e)) && NoLostWakeup(Step(setup, s, e))
  {
    if Waits(e) {
      WaitKeepsSingleFlight(setup, s, e);
    } else if Settles(e) {
      SettleKeepsSingleFlight(setup, s, e);
    } else if e.Reload? {
      ReloadFrame(s);
    } else if ServerStep(e) {
      ServerStepKeepsFlights(setup, s, e);
    } else {
      BrowserStepKeepsFlights(setup, s, e);
    }
  }

  lemma WaitKeepsSingleFlight(setup: Setup, s: System, e: Event)
    requires CanHappen(s, e) && SingleFlight(s) && NoLostWakeup(s) && Waits(e)
    ensures SingleFlight(Step(setup, s, e)) && NoLostWakeup(Step(setup, s, e))
  {
    if e.Restore? {
      AwaitKeepsSingleFlight(s, e.r, None, s.client.(model := s.client.model.(sessionState := CheckingSession)), true);
    } else if OnUnauthorized(s.client, s.requests[e.r].token).1.Await? {
      AwaitKeepsSingleFlight(s, e.r, s.requests[e.r].token, s.client, false);
    }
  }

  /** Joining keeps the one flight there is; starting makes it the only one. */
  lemma AwaitKeepsSingleFlight(s: System, r: CallId, refused: Option<Access>, c: Client, restore: bool)
    requires SingleFlight(s) && NoLostWakeup(s)
    requires c.refreshPromise == s.client.refreshPromise && c.nextGeneration == s.client.nextGeneration
    ensures var (c', g) := JoinOrStart(c);
            var s' := AwaitRefresh(s, r, refused, c', g, restore);
            SingleFlight(s') && NoLostWakeup(s')
  {
  }

  lemma SettleKeepsSingleFlight(setup: Setup, s: System, e: Event)
    requires CanHappen(s, e) && SingleFlight(s) && NoLostWakeup(s) && Settles(e)
    ensures SingleFlight(Step(setup, s, e)) && NoLostWakeup(Step(setup, s, e))
  {
    EndingKeeps(s, e);
    SettleEndsTheFlight(Ending(s, e), e.g, ResultOf(s, e), s.flights[e.g].suppress);
  }

  /** Before the promise resolves only the cookies, the strays or the model change. */
  lemma EndingKeeps(s: System, e: Event)
    requires Settles(e) && CanHappen(s, e)
    ensures var b := Ending(s, e);
      && e.g in s.flights && SameOutside(s, b) && b.requests == s.requests && b.logins == s.logins
  {
  }

  lemma SettleFacts(s: System, g: Generation, result: Option<Access>, suppress: bool)
    ensures var s' := Settle(s, g, result, suppress);
      && s'.server == s.server && s'.mine == s.mine && s'.issued == s.issued && s'.answers == s.answers
      && s'.jar == s.jar && s'.logins == s.logins && s'.requests == s.requests
      && s'.flights == s.flights - {g} && s'.settled == s.settled[g := result]
      && s'.client.model.accessToken == result && s'.client.refreshPromise.None?
      && s'.client.nextGeneration == s.client.nextGeneration
  {
  }

  /** The end of a flight, piece by piece. */
  lemma EndFlightFacts(setup: Setup, s: System, e: Event)
    requires Settles(e) && CanHappen(s, e)
    ensures var s' := Step(setup, s, e);
      && e.g in s.flights && s' == EndFlight(s, e)
      && s'.server == s.server && s'.mine == s.mine && s'.issued == s.issued && s'.answers == s.answers
      && s'.jar == Ending(s, e).jar && s'.logins == s.logins && s'.requests == s.requests
      && s'.flights == s.flights - {e.g} && s'.settled == s.settled[e.g := ResultOf(s, e)]
      && s'.client.model.accessToken == ResultOf(s, e)
  {
    EndingKeeps(s, e);
    SettleFacts(Ending(s, e), e.g, ResultOf(s, e), s.flights[e.g].suppress);
  }

  /** The only flight ends; its waiters find its result. */
  lemma SettleEndsTheFlight(s: System, g: Generation, result: Option<Access>, suppress: bool)
    requires SingleFlight(s) && NoLostWakeup(s) && g in s.flights
    ensures SingleFlight(Settle(s, g, result, suppress)) && NoLostWakeup(Settle(s, g, result, suppress))
  {
  }

  /** A server transaction spends at most the token it is shown. */
  lemma UsableSurvives(cfg: Settings, s: System, op: Op, s': System, t: TokenId)
    requires Enabled(s.server, op) && Usable(s, t)
    requires s'.server == Exec(cfg, s.server, op).0 && s.mine <= s'.mine
    requires op.OpRefresh? ==> op.c.refreshToken != Some(t)
    ensures Usable(s', t)
  {
    StepIsMonotone(cfg, s.server, op, t, s.server.tokens[t].family);
  }

  // Where refresh tokens are.

  /** No token moved to a new place; the cookie is as before or gone. */
  ghost predicate FewerPlaces(s: System, s': System) {
    && s'.server == s.server && s'.mine == s.mine
    && (s'.jar == NO_COOKIES || (s'.jar == s.jar && (Rotating(s) ==> Rotating(s'))))
    && (forall g :: Presenting(s', g) ==> Presenting(s, g) && s'.flights[g] == s.flights[g])
    && (forall g :: CarriedByFlight(s', g) ==> CarriedByFlight(s, g) && s'.flights[g] == s.flights[g])
    && (forall l :: CarriedByLogin(s', l) ==> CarriedByLogin(s, l) && s'.logins[l] == s.logins[l])
  }

  lemma FewerPlacesKeep(s: System, s': System)
    requires FewerPlaces(s, s') && TokensInPlace(s) && LoginTokensApart(s)
    ensures TokensInPlace(s') && LoginTokensApart(s')
  {
    forall g | Presenting(s', g) ensures Usable(s', s'.flights[g].jar.refresh.value) {
      assert Usable(s, s.flights[g].jar.refresh.value);
    }
    forall g | CarriedByFlight(s', g) ensures Usable(s', s'.flights[g].reply.refresh) {
      assert Usable(s, s.flights[g].reply.refresh);
    }
    forall l | CarriedByLogin(s', l) ensures Usable(s', s'.logins[l].loginReply.refresh) {
      assert Usable(s, s.logins[l].loginReply.refresh);
    }
  }

  predicate MovesNoToken(e: Event) {
    !(e.FlightSend? || e.FlightDeliver? || e.FlightCut? || (e.Calls? && BringsLogin(e.c)) || ServerStep(e))
  }

  /** Two flights at once do not exist. */
  lemma OneFlight(s: System, g: Generation, h: Generation)
    requires SingleFlight(s) && g in s.flights && h in s.flights
    ensures g == h
  {
  }

  /** Waiting for a refresh starts at most a flight that carries nothing yet. */
  ghost predicate AddsProvingOnly(s: System, s': System) {
    && s'.server == s.server && s'.mine == s.mine && s'.jar == s.jar && s'.logins == s.logins
    && s'.issued == s.issued && s'.settled == s.settled
    && s'.client.model.accessToken == s.client.model.accessToken
    && (forall g :: g in s.flights ==> g in s'.flights && s'.flights[g] == s.flights[g])
    && (forall g :: g in s'.flights && g !in s.flights ==> s'.flights[g].Proving?)
  }

  lemma AwaitAddsProving(s: System, r: CallId, refused: Option<Access>, c: Client, g: Generation, restore: bool)
    requires s.client.refreshPromise.None? ==> g !in s.flights
    requires c.model.accessToken == s.client.model.accessToken
    ensures AddsProvingOnly(s, AwaitRefresh(s, r, refused, c, g, restore))
  {
  }

  lemma WaitAddsProving(setup: Setup, s: System, e: Event)
    requires CanHappen(s, e) && SingleFlight(s) && Waits(e)
    ensures AddsProvingOnly(s, Step(setup, s, e))
  {
    if e.Restore? {
      var (c, g) := OnRestoreBegin(s.client);
      AwaitAddsProving(s, e.r, None, c, g, true);
    } else {
      var refused := s.requests[e.r].token;
      var (c, next) := OnUnauthorized(s.client, refused);
      if next.Await? { AwaitAddsProving(s, e.r, refused, c, next.generation, false); }
    }
  }

  lemma WaitMovesNoToken(setup: Setup, s: System, e: Event)
    requires CanHappen(s, e) && SingleFlight(s) && Waits(e)
    ensures FewerPlaces(s, Step(setup, s, e))
  {
    WaitAddsProving(setup, s, e);
    ProvingMovesNoToken(s, Step(setup, s, e));
  }

  lemma ProvingMovesNoToken(s: System, s': System)
    requires AddsProvingOnly(s, s')
    ensures FewerPlaces(s, s')
  {
    assert forall g :: g in s'.flights ==> s'.flights[g].Proving? || (g in s.flights && s'.flights[g] == s.flights[g]);
    if Rotating(s) {
      var g :| g in s.flights && s.flights[g].Answered? && s.flights[g].reply.Tokens?;
      assert g in s'.flights && s'.flights[g] == s.flights[g];
    }
  }

  lemma EndedFlightMovesNoToken(setup: Setup, s: System, e: Event)
    requires CanHappen(s, e) && SingleFlight(s) && MovesNoToken(e) && !Spoils(s, e)
    requires Settles(e) || e.FlightReject?
    ensures FewerPlaces(s, Step(setup, s, e))
  {
    forall g | g in s.flights ensures g == e.g { OneFlight(s, g, e.g); }
    assert !Rotating(s);
  }

  lemma RequestStepMovesNoToken(setup: Setup, s: System, e: Event)
    requires CanHappen(s, e) && MovesRequest(e)
    ensures FewerPlaces(s, Step(setup, s, e))
  {
    RequestStepFrame(setup, s, e);
  }

  /** A call adds no login reply, and one that brings none leaves the cookie or
      clears it. */
  lemma CallStepPlaces(s: System, c: CallEvent)
    requires CallCan(s, c)
    ensures var s' := CallStep(s, c);
      && (forall l :: CarriedByLogin(s', l) ==> CarriedByLogin(s, l) && s'.logins[l] == s.logins[l])
      && (BringsLogin(c) || s'.jar == s.jar || s'.jar == NO_COOKIES)
  {
  }

  lemma CallStepMovesNoToken(s: System, c: CallEvent)
    requires CallCan(s, c) && !BringsLogin(c)
    ensures FewerPlaces(s, CallStep(s, c))
  {
    CallStepFrame(s, c);
    CallStepPlaces(s, c);
  }

  lemma QuietStepMovesNoToken(setup: Setup, s: System, e: Event)
    requires CanHappen(s, e) && SingleFlight(s) && MovesNoToken(e) && !Spoils(s, e)
    ensures FewerPlaces(s, Step(setup, s, e))
  {
    if Waits(e) {
      WaitMovesNoToken(setup, s, e);
    } else if Settles(e) || e.FlightReject? {
      EndedFlightMovesNoToken(setup, s, e);
    } else if e.Reload? {
      ReloadFrame(s);
    } else if MovesRequest(e) {
      RequestStepMovesNoToken(setup, s, e);
    } else {
      CallStepMovesNoToken(s, e.c);
    }
  }

  lemma SendKeepsTokens(setup: Setup, s: System, g: Generation)
    requires CanHappen(s, FlightSend(g)) && SystemInv(s)
    ensures TokensInPlace(Step(setup, s, FlightSend(g))) && LoginTokensApart(Step(setup, s, FlightSend(g)))
  {
    var s' := Step(setup, s, FlightSend(g));
    forall h | h in s.flights ensures h == g { OneFlight(s, g, h); }
    assert !Rotating(s) && !Rotating(s');
    if s.jar.refresh.Some? { assert Usable(s', s.jar.refresh.value); }
    forall l | CarriedByLogin(s', l) ensures Usable(s', s'.logins[l].loginReply.refresh) {
      assert CarriedByLogin(s, l) && Usable(s, s.logins[l].loginReply.refresh);
    }
  }

  /** A transaction on the server that presents none of the tokens in place. */
  lemma ServerKeepsTokens(cfg: Settings, s: System, s': System, op: Op)
    requires TokensInPlace(s) && LoginTokensApart(s)
    requires Enabled(s.server, op) && s'.server == Exec(cfg, s.server, op).0
    requires op.OpRefresh? ==> op.c.refreshToken.None? || op.c.refreshToken.value !in s.server.tokens ||
                               s.server.tokens[op.c.refreshToken.value].family !in s.mine
    requires s'.mine == s.mine && s'.jar == s.jar && s'.flights == s.flights && s'.logins == s.logins
    ensures TokensInPlace(s') && LoginTokensApart(s')
  {
    forall f | f in s.mine ensures f in s'.server.families { StepIsMonotone(cfg, s.server, op, 0, f); }
    if s.jar.refresh.Some? {
      StepIsMonotone(cfg, s.server, op, s.jar.refresh.value, 0);
      if !Rotating(s) { UsableSurvives(cfg, s, op, s', s.jar.refresh.value); }
    }
    forall g | Presenting(s', g) ensures Usable(s', s'.flights[g].jar.refresh.value) {
      assert Presenting(s, g);
      UsableSurvives(cfg, s, op, s', s.flights[g].jar.refresh.value);
    }
    forall g | CarriedByFlight(s', g) ensures Usable(s', s'.flights[g].reply.refresh) {
      assert CarriedByFlight(s, g);
      UsableSurvives(cfg, s, op, s', s.flights[g].reply.refresh);
    }
    forall l | CarriedByLogin(s', l) ensures Usable(s', s'.logins[l].loginReply.refresh) {
      assert CarriedByLogin(s, l);
      UsableSurvives(cfg, s, op, s', s.logins[l].loginReply.refresh);
    }
  }

  /** What serving the browser's refresh does to the server. */
  lemma ServedRefresh(setup: Setup, s: System, e: Event)
    requires e.FlightServe? && CanHappen(s, e) && TokensInPlace(s)
    ensures var o := ServeRefresh(setup, s, e).answers[|s.answers|];
            && o != Outcome.Replay
            && (o.Rotated? ==> Usable(ServeRefresh(setup, s, e), o.child) && o.child == e.childId)
  {
    var jar := s.flights[e.g].jar;
    var c := Presented(setup, jar);
    if jar.refresh.Some? {
      assert Presenting(s, e.g) && Usable(s, jar.refresh.value);
    }
    UsableIsNotReplayed(setup.cfg, s, c, e.active, e.now, e.childId);
  }

  /** A refresh that presents a usable token, or none, is no replay, and what it
      rotates into is usable. */
  lemma UsableIsNotReplayed(cfg: Settings, s: System, c: Credentials, active: bool, now: Time, childId: TokenId)
    requires Enabled(s.server, OpRefresh(c, active, now, childId))
    requires c.refreshToken.Some? ==> Usable(s, c.refreshToken.value)
    ensures var (server', o) := RefreshStep(cfg, s.server, c, active, now, childId);
            && o != Outcome.Replay
            && (o.Rotated? ==> o.child == childId && Usable(s.(server := server'), childId))
  {
    RefreshShape(cfg, s.server, c, active, now, childId);
  }

  lemma ServeRefreshKeepsCookie(setup: Setup, s: System, e: Event)
    requires e.FlightServe? && CanHappen(s, e) && SingleFlight(s) && TokensInPlace(s)
    ensures var s' := ServeRefresh(setup, s, e);
      && s'.mine <= s'.server.families.Keys
      && (s'.jar.refresh.Some? ==> s'.jar.refresh.value in s'.server.tokens)
      && (s'.jar.refresh.Some? && !Rotating(s') ==> Usable(s', s'.jar.refresh.value))
  {
    var s' := ServeRefresh(setup, s, e);
    var op := OpRefresh(Presented(setup, s.flights[e.g].jar), e.active, e.now, e.childId);
    var o := Exec(setup.cfg, s.server, op).1;
    forall f | f in s.mine ensures f in s'.server.families { StepIsMonotone(setup.cfg, s.server, op, 0, f); }
    forall h | h in s.flights ensures h == e.g { OneFlight(s, e.g, h); }
    assert !Rotating(s);
    if s.jar.refresh.Some? {
      StepIsMonotone(setup.cfg, s.server, op, s.jar.refresh.value, 0);
      if o.Rotated? {
        assert s'.flights[e.g].Answered? && s'.flights[e.g].reply.Tokens?;
        assert Rotating(s');
      } else {
        UnrotatedKeepsUsable(setup.cfg, s, op, s', s.jar.refresh.value);
      }
    }
  }

  lemma ServeRefreshKeepsLogins(setup: Setup, s: System, e: Event)
    requires e.FlightServe? && CanHappen(s, e) && TokensInPlace(s) && LoginTokensApart(s)
    ensures var s' := ServeRefresh(setup, s, e);
      forall l :: CarriedByLogin(s', l) ==>
        CarriedByLogin(s, l) && s'.logins[l] == s.logins[l] &&
        Usable(s', s'.logins[l].loginReply.refresh) && s'.logins[l].loginReply.refresh != e.childId
  {
    var s' := ServeRefresh(setup, s, e);
    var jar := s.flights[e.g].jar;
    var op := OpRefresh(Presented(setup, jar), e.active, e.now, e.childId);
    forall l | CarriedByLogin(s', l)
      ensures CarriedByLogin(s, l) && s'.logins[l] == s.logins[l]
      ensures Usable(s', s'.logins[l].loginReply.refresh) && s'.logins[l].loginReply.refresh != e.childId
    {
      assert CarriedByLogin(s, l);
      if jar.refresh.Some? { assert Presenting(s, e.g); }
      UsableSurvives(setup.cfg, s, op, s', s.logins[l].loginReply.refresh);
    }
  }

  lemma ServeRefreshKeepsTokens(setup: Setup, s: System, e: Event)
    requires e.FlightServe? && CanHappen(s, e) && SingleFlight(s) && TokensInPlace(s) && LoginTokensApart(s)
    ensures TokensInPlace(ServeRefresh(setup, s, e)) && LoginTokensApart(ServeRefresh(setup, s, e))
  {
    var s' := ServeRefresh(setup, s, e);
    ServedRefresh(setup, s, e);
    ServeRefreshKeepsCookie(setup, s, e);
    ServeRefreshKeepsLogins(setup, s, e);
    forall h | h in s.flights ensures h == e.g { OneFlight(s, e.g, h); }
    assert s'.flights.Keys == {e.g} && s'.flights[e.g].Answered?;
  }

  /** A refresh that does not rotate spends nothing. */
  lemma UnrotatedKeepsUsable(cfg: Settings, s: System, op: Op, s': System, t: TokenId)
    requires Enabled(s.server, op) && Usable(s, t) && op.OpRefresh?
    requires s'.server == Exec(cfg, s.server, op).0 && s.mine <= s'.mine
    requires !Exec(cfg, s.server, op).1.Rotated?
    ensures Usable(s', t)
  {
    OtherStepsOnlyStamp(cfg, s.server, op);
    StepIsMonotone(cfg, s.server, op, t, s.server.tokens[t].family);
  }

  /** The end of the only flight, its cookies stored or cleared. */
  lemma DeliverShape(setup: Setup, s: System, e: Event)
    requires CanHappen(s, e) && SingleFlight(s) && (e.FlightDeliver? || e.FlightCut?)
    ensures var s' := Step(setup, s, e);
      && s'.flights == map[] && s'.server == s.server && s'.mine == s.mine && s'.logins == s.logins
      && s'.jar == if s.flights[e.g].reply.Tokens? then CookiesOf(s.flights[e.g].reply) else NO_COOKIES
  {
    EndFlightFacts(setup, s, e);
    forall h | h in s.flights ensures h == e.g { OneFlight(s, e.g, h); }
    assert Step(setup, s, e).flights.Keys == {};
  }

  lemma DeliverKeepsPlaces(setup: Setup, s: System, e: Event)
    requires CanHappen(s, e) && SingleFlight(s) && TokensInPlace(s) && (e.FlightDeliver? || e.FlightCut?)
    ensures TokensInPlace(Step(setup, s, e))
  {
    var s' := Step(setup, s, e);
    DeliverShape(setup, s, e);
    if s.flights[e.g].reply.Tokens? {
      assert CarriedByFlight(s, e.g) && Usable(s, s.flights[e.g].reply.refresh);
      assert Usable(s', s'.jar.refresh.value);
    }
    forall l | CarriedByLogin(s', l) ensures Usable(s', s'.logins[l].loginReply.refresh) {
      assert CarriedByLogin(s, l) && Usable(s, s.logins[l].loginReply.refresh);
    }
  }

  lemma DeliverKeepsApart(setup: Setup, s: System, e: Event)
    requires CanHappen(s, e) && SingleFlight(s) && LoginTokensApart(s) && (e.FlightDeliver? || e.FlightCut?)
    ensures LoginTokensApart(Step(setup, s, e))
  {
    var s' := Step(setup, s, e);
    DeliverShape(setup, s, e);
    if s.flights[e.g].reply.Tokens? { assert CarriedByFlight(s, e.g); }
    assert forall l :: CarriedByLogin(s', l) ==> CarriedByLogin(s, l);
  }

  lemma DeliverKeepsTokens(setup: Setup, s: System, e: Event)
    requires CanHappen(s, e) && SystemInv(s) && (e.FlightDeliver? || e.FlightCut?)
    ensures TokensInPlace(Step(setup, s, e)) && LoginTokensApart(Step(setup, s, e))
  {
    DeliverKeepsPlaces(setup, s, e);
    DeliverKeepsApart(setup, s, e);
  }

  lemma LoginDeliverShape(s: System, c: CallEvent)
    requires CallCan(s, c) && BringsLogin(c)
    ensures var s' := CallStep(s, c);
      && s'.flights == s.flights && s'.server == s.server && s'.mine == s.mine && c.l !in s'.logins
      && s'.jar == (if s.logins[c.l].loginReply.Tokens? then CookiesOf(s.logins[c.l].loginReply) else s.jar)
      && forall l :: CarriedByLogin(s', l) ==> CarriedByLogin(s, l) && s'.logins[l] == s.logins[l]
  {
    CallStepFrame(s, c);
    CallStepPlaces(s, c);
  }

  lemma LoginDeliverKeepsPlaces(s: System, c: CallEvent)
    requires CallCan(s, c) && TokensInPlace(s) && BringsLogin(c)
    ensures TokensInPlace(CallStep(s, c))
  {
    var s' := CallStep(s, c);
    LoginDeliverShape(s, c);
    if s.logins[c.l].loginReply.Tokens? {
      assert CarriedByLogin(s, c.l) && Usable(s, s.logins[c.l].loginReply.refresh);
      assert Usable(s', s'.jar.refresh.value);
    } else if s.jar.refresh.Some? && !Rotating(s') {
      assert !Rotating(s);
      assert Usable(s', s'.jar.refresh.value);
    }
    forall g | Presenting(s', g) ensures Usable(s', s'.flights[g].jar.refresh.value) {
      assert Presenting(s, g) && Usable(s, s.flights[g].jar.refresh.value);
    }
    forall g | CarriedByFlight(s', g) ensures Usable(s', s'.flights[g].reply.refresh) {
      assert CarriedByFlight(s, g) && Usable(s, s.flights[g].reply.refresh);
    }
    forall m | CarriedByLogin(s', m) ensures Usable(s', s'.logins[m].loginReply.refresh) {
      assert CarriedByLogin(s, m) && Usable(s, s.logins[m].loginReply.refresh);
    }
  }

  lemma LoginDeliverKeepsApart(s: System, c: CallEvent)
    requires CallCan(s, c) && LoginTokensApart(s) && BringsLogin(c)
    ensures LoginTokensApart(CallStep(s, c))
  {
    var s' := CallStep(s, c);
    LoginDeliverShape(s, c);
    forall m | CarriedByLogin(s', m) ensures m != c.l && CarriedByLogin(s, m) && s'.logins[m] == s.logins[m] {
    }
    if s.logins[c.l].loginReply.Tokens? { assert CarriedByLogin(s, c.l); }
  }

  lemma LoginDeliverKeepsTokens(s: System, c: CallEvent)
    requires CallCan(s, c) && SystemInv(s) && BringsLogin(c)
    ensures TokensInPlace(CallStep(s, c)) && LoginTokensApart(CallStep(s, c))
  {
    LoginDeliverKeepsPlaces(s, c);
    LoginDeliverKeepsApart(s, c);
  }

  lemma LoginServeKeepsTokens(setup: Setup, s: System, e: Event)
    requires e.LoginServe? && CanHappen(s, e) && TokensInPlace(s) && LoginTokensApart(s)
    ensures TokensInPlace(ServeLogin(setup, s, e)) && LoginTokensApart(ServeLogin(setup, s, e))
  {
    var s' := ServeLogin(setup, s, e);
    var op := OpLogin(e.user, setup.key, e.now, e.family, e.token);
    if s.jar.refresh.Some? && !Rotating(s') {
      assert !Rotating(s);
      UsableSurvives(setup.cfg, s, op, s', s.jar.refresh.value);
    }
    forall g | Presenting(s', g) ensures Usable(s', s'.flights[g].jar.refresh.value) && s'.flights[g].jar.refresh.value != e.token {
      assert Presenting(s, g);
      UsableSurvives(setup.cfg, s, op, s', s.flights[g].jar.refresh.value);
    }
    forall g | CarriedByFlight(s', g) ensures Usable(s', s'.flights[g].reply.refresh) && s'.flights[g].reply.refresh != e.token {
      assert CarriedByFlight(s, g);
      UsableSurvives(setup.cfg, s, op, s', s.flights[g].reply.refresh);
    }
    forall m | CarriedByLogin(s', m)
      ensures Usable(s', s'.logins[m].loginReply.refresh)
      ensures m != e.l ==> CarriedByLogin(s, m) && s'.logins[m] == s.logins[m] && s.logins[m].loginReply.refresh != e.token
    {
      if m != e.l {
        assert CarriedByLogin(s, m);
        UsableSurvives(setup.cfg, s, op, s', s.logins[m].loginReply.refresh);
      }
    }
  }

  lemma KeepsTokens(setup: Setup, s: System, e: Event)
    requires CanHappen(s, e) && SystemInv(s) && !Spoils(s, e)
    ensures TokensInPlace(Step(setup, s, e)) && LoginTokensApart(Step(setup, s, e))
  {
    var s' := Step(setup, s, e);
    if MovesNoToken(e) {
      QuietStepMovesNoToken(setup, s, e);
      FewerPlacesKeep(s, s');
    } else if e.FlightSend? {
      SendKeepsTokens(setup, s, e.g);
    } else if e.FlightServe? {
      ServeRefreshKeepsTokens(setup, s, e);
    } else if e.FlightDeliver? || e.FlightCut? {
      DeliverKeepsTokens(setup, s, e);
    } else if e.LoginServe? {
      LoginServeKeepsTokens(setup, s, e);
    } else if e.Calls? {
      LoginDeliverKeepsTokens(s, e.c);
    } else {
      ServerStepKeepsTokens(setup, s, e);
    }
  }

  lemma ServerStepKeepsTokens(setup: Setup, s: System, e: Event)
    requires CanHappen(s, e) && SystemInv(s) && (e.LogoutServe? || e.Others?)
    ensures TokensInPlace(Step(setup, s, e)) && LoginTokensApart(Step(setup, s, e))
  {
    if e.LogoutServe? {
      ServerKeepsTokens(setup.cfg, s, Step(setup, s, e), OpLogout(Presented(setup, s.logouts[e.k].jar), e.now));
    } else {
      ServerKeepsTokens(setup.cfg, s, Step(setup, s, e), e.op);
    }
  }

  // Where access tokens are.

  function Current(s: System): set<Access> {
    if s.client.model.accessToken.Some? then {s.client.model.accessToken.value} else {}
  }

  function HeldAt(s: System, r: CallId): set<Access> {
    if r in s.requests then Held(s.requests[r]) else {}
  }

  /** No access token came into the controller's hands. */
  ghost predicate FewerAccess(s: System, s': System) {
    && s'.issued == s.issued
    && Current(s') <= Current(s)
    && (forall r :: r in s'.requests ==> Held(s'.requests[r]) <= HeldAt(s, r) + Current(s))
    && (forall g :: g in s'.settled && s'.settled[g].Some? ==> g in s.settled && s'.settled[g] == s.settled[g])
    && (forall g :: CarriedByFlight(s', g) ==> CarriedByFlight(s, g) && s'.flights[g] == s.flights[g])
    && (forall l :: CarriedByLogin(s', l) ==> CarriedByLogin(s, l) && s'.logins[l] == s.logins[l])
  }

  lemma FewerAccessKeep(s: System, s': System)
    requires FewerAccess(s, s') && AccessApart(s)
    ensures AccessApart(s')
  {
    assert Current(s) <= s.issued;
    if s'.client.model.accessToken.Some? { assert s'.client.model.accessToken.value in Current(s'); }
    forall r | r in s'.requests ensures Held(s'.requests[r]) <= s'.issued {
    }
    forall g | CarriedByFlight(s', g)
      ensures s'.client.model.accessToken != Some(s'.flights[g].reply.access)
      ensures forall r :: r in s'.requests ==> s'.flights[g].reply.access !in Held(s'.requests[r])
    {
      assert CarriedByFlight(s, g);
      assert s.flights[g].reply.access !in Current(s);
    }
  }

  predicate HandsOutAccess(e: Event) { e.FlightServe? || e.FlightDeliver? || e.LoginServe? || (e.Calls? && e.c.LoginDeliver?) }

  lemma WaitHandsOutNothing(setup: Setup, s: System, e: Event)
    requires CanHappen(s, e) && SingleFlight(s) && Waits(e)
    ensures FewerAccess(s, Step(setup, s, e))
  {
    WaitAddsProving(setup, s, e);
    WaitChangesOneRequest(setup, s, e);
    AddedProvingHandsOutNothing(s, Step(setup, s, e), e.r);
  }

  lemma AddedProvingHandsOutNothing(s: System, s': System, r: CallId)
    requires AddsProvingOnly(s, s') && s'.requests.Keys <= s.requests.Keys + {r} && r in s'.requests
    requires forall q :: q in s'.requests && q != r ==> s'.requests[q] == s.requests[q]
    requires Held(s'.requests[r]) <= HeldAt(s, r) + Current(s)
    ensures FewerAccess(s, s')
  {
    assert Current(s') == Current(s);
  }

  lemma WaitChangesOneRequest(setup: Setup, s: System, e: Event)
    requires CanHappen(s, e) && Waits(e)
    ensures var s' := Step(setup, s, e);
      && s'.requests.Keys <= s.requests.Keys + {e.r} && e.r in s'.requests
      && (forall r :: r in s'.requests && r != e.r ==> s'.requests[r] == s.requests[r])
      && Held(s'.requests[e.r]) <= HeldAt(s, e.r) + Current(s)
  {
    if e.Restore? {
      var (c, g) := OnRestoreBegin(s.client);
      assert Step(setup, s, e) == AwaitRefresh(s, e.r, None, c, g, true);
    }
  }

  lemma EndedFlightHandsOutNothing(setup: Setup, s: System, e: Event)
    requires CanHappen(s, e) && SingleFlight(s) && Settles(e) && !e.FlightDeliver?
    ensures FewerAccess(s, Step(setup, s, e))
  {
    EndFlightFacts(setup, s, e);
    assert Current(Step(setup, s, e)) == {};
  }

  lemma RequestStepHolds(setup: Setup, s: System, e: Event)
    requires CanHappen(s, e) && MovesRequest(e)
    ensures var s' := Step(setup, s, e);
      && Current(s') <= Current(s)
      && (forall r :: r in s'.requests ==> Held(s'.requests[r]) <= HeldAt(s, r) + Current(s))
  {
  }

  lemma RequestStepHandsOutNothing(setup: Setup, s: System, e: Event)
    requires CanHappen(s, e) && MovesRequest(e)
    ensures FewerAccess(s, Step(setup, s, e))
  {
    RequestStepFrame(setup, s, e);
    RequestStepHolds(setup, s, e);
  }

  lemma CallStepHandsOutNothing(s: System, c: CallEvent)
    requires CallCan(s, c) && !c.LoginDeliver?
    ensures FewerAccess(s, CallStep(s, c))
  {
    CallStepFrame(s, c);
    CallStepPlaces(s, c);
    assert Current(CallStep(s, c)) <= Current(s);
  }

  lemma IdleStepHandsOutNothing(setup: Setup, s: System, e: Event)
    requires CanHappen(s, e) && !HandsOutAccess(e) && !e.StrayServe? && !e.Reload? && !Waits(e) && !Settles(e) && !MovesRequest(e)
    ensures FewerAccess(s, Step(setup, s, e))
  {
    if e.Calls? {
      CallStepHandsOutNothing(s, e.c);
    } else {
      assert e.FlightSend? || e.FlightReject? || e.LogoutServe? || e.Others?;
    }
  }

  lemma ServeKeepsAccessApart(setup: Setup, s: System, e: Event)
    requires CanHappen(s, e) && SingleFlight(s) && AccessApart(s) && e.FlightServe?
    ensures AccessApart(ServeRefresh(setup, s, e))
  {
    var s' := ServeRefresh(setup, s, e);
    forall h | h in s.flights ensures h == e.g { OneFlight(s, e.g, h); }
    assert forall l :: CarriedByLogin(s', l) ==> CarriedByLogin(s, l) && s'.logins[l] == s.logins[l];
  }

  lemma StrayKeepsAccessApart(setup: Setup, s: System, e: Event)
    requires CanHappen(s, e) && AccessApart(s) && e.StrayServe?
    ensures AccessApart(ServeStray(setup, s, e))
  {
    var s' := ServeStray(setup, s, e);
    assert forall g :: CarriedByFlight(s', g) ==> CarriedByFlight(s, g) && s'.flights[g] == s.flights[g];
    assert forall l :: CarriedByLogin(s', l) ==> CarriedByLogin(s, l) && s'.logins[l] == s.logins[l];
  }

  lemma LoginServeKeepsAccessApart(setup: Setup, s: System, e: Event)
    requires CanHappen(s, e) && AccessApart(s) && e.LoginServe?
    ensures AccessApart(ServeLogin(setup, s, e))
  {
    var s' := ServeLogin(setup, s, e);
    forall l | CarriedByLogin(s', l)
      ensures s'.logins[l].loginReply.access in s'.issued
      ensures l != e.l ==> CarriedByLogin(s, l) && s'.logins[l] == s.logins[l]
    {
      if l != e.l { assert CarriedByLogin(s, l); }
    }
    forall g | CarriedByFlight(s', g)
      ensures CarriedByFlight(s, g) && s'.flights[g].reply.access != e.access && s'.flights[g] == s.flights[g]
    {
      assert CarriedByFlight(s, g);
    }
  }

  lemma DeliverKeepsAccessApart(setup: Setup, s: System, g: Generation)
    requires CanHappen(s, FlightDeliver(g)) && SingleFlight(s) && AccessApart(s)
    ensures AccessApart(Step(setup, s, FlightDeliver(g)))
  {
    var s' := Step(setup, s, FlightDeliver(g));
    DeliverShape(setup, s, FlightDeliver(g));
    EndFlightFacts(setup, s, FlightDeliver(g));
    if s.flights[g].reply.Tokens? { assert CarriedByFlight(s, g); }
    EmptiedKeepsAccessApart(s, s');
  }

  /** With no flight left, the tokens handed out are issued ones. */
  lemma EmptiedKeepsAccessApart(s: System, s': System)
    requires AccessApart(s) && s'.flights == map[] && s'.logins == s.logins && s'.issued == s.issued && s'.requests == s.requests
    requires s'.client.model.accessToken.Some? ==> s'.client.model.accessToken.value in s.issued
    requires forall g :: g in s'.settled && s'.settled[g].Some? ==> s'.settled[g].value in s.issued
    ensures AccessApart(s')
  {
    assert forall l :: CarriedByLogin(s', l) ==> CarriedByLogin(s, l);
  }

  lemma LoginDeliverKeepsAccessApart(s: System, c: CallEvent)
    requires CallCan(s, c) && c.LoginDeliver? && AccessApart(s)
    ensures AccessApart(CallStep(s, c))
  {
    var s' := CallStep(s, c);
    CallStepFrame(s, c);
    CallStepPlaces(s, c);
    assert forall g :: CarriedByFlight(s', g) ==> CarriedByFlight(s, g) && s'.flights[g] == s.flights[g];
    if s.logins[c.l].loginReply.Tokens? { assert CarriedByLogin(s, c.l); }
  }

  lemma KeepsAccessApart(setup: Setup, s: System, e: Event)
    requires CanHappen(s, e) && SingleFlight(s) && AccessApart(s)
    ensures AccessApart(Step(setup, s, e))
  {
    if e.FlightServe? {
      ServeKeepsAccessApart(setup, s, e);
    } else if e.StrayServe? {
      StrayKeepsAccessApart(setup, s, e);
    } else if e.LoginServe? {
      LoginServeKeepsAccessApart(setup, s, e);
    } else if e.FlightDeliver? {
      DeliverKeepsAccessApart(setup, s, e.g);
    } else if e.Calls? && e.c.LoginDeliver? {
      LoginDeliverKeepsAccessApart(s, e.c);
    } else {
      QuietStepHandsOutNothing(setup, s, e);
      FewerAccessKeep(s, Step(setup, s, e));
    }
  }

  lemma QuietStepHandsOutNothing(setup: Setup, s: System, e: Event)
    requires CanHappen(s, e) && SingleFlight(s) && !HandsOutAccess(e) && !e.StrayServe?
    ensures FewerAccess(s, Step(setup, s, e))
  {
    if Waits(e) {
      WaitHandsOutNothing(setup, s, e);
    } else if Settles(e) {
      EndedFlightHandsOutNothing(setup, s, e);
    } else if e.Reload? {
      ReloadFrame(s);
    } else if MovesRequest(e) {
      RequestStepHandsOutNothing(setup, s, e);
    } else {
      IdleStepHandsOutNothing(setup, s, e);
    }
  }

  lemma KeepsProgress(setup: Setup, s: System, e: Event)
    requires CanHappen(s, e) && ClientInv(s)
    ensures RetriesMakeProgress(Step(setup, s, e))
  {
    if Waits(e) {
      WaitKeepsProgress(setup, s, e);
    } else if Settles(e) {
      SettleKeepsProgress(setup, s, e);
    } else if e.Reload? {
      ReloadFrame(s);
    } else if ServerStep(e) {
      ServerStepKeepsFlights(setup, s, e);
    } else {
      BrowserStepKeepsFlights(setup, s, e);
    }
  }

  lemma WaitKeepsProgress(setup: Setup, s: System, e: Event)
    requires CanHappen(s, e) && SingleFlight(s) && RetriesMakeProgress(s) && Waits(e)
    ensures RetriesMakeProgress(Step(setup, s, e))
  {
    WaitAddsProving(setup, s, e);
    WaitIsUnsettled(setup, s, e);
  }

  /** What starts to wait waits for a refresh that has not settled. */
  lemma WaitIsUnsettled(setup: Setup, s: System, e: Event)
    requires CanHappen(s, e) && SingleFlight(s) && Waits(e)
    ensures var s' := Step(setup, s, e);
      && e.r in s'.requests && s'.requests == s.requests[e.r := s'.requests[e.r]]
      && (s'.requests[e.r].Waiting? ==> s'.requests[e.r].generation !in s.settled)
  {
    if e.Restore? {
      AwaitIsUnsettled(s, e.r, None, Client(s.client.model.(sessionState := CheckingSession), s.client.refreshPromise, s.client.nextGeneration), true);
    } else if OnUnauthorized(s.client, s.requests[e.r].token).1.Await? {
      AwaitIsUnsettled(s, e.r, s.requests[e.r].token, s.client, false);
    }
  }

  lemma AwaitIsUnsettled(s: System, r: CallId, refused: Option<Access>, c: Client, restore: bool)
    requires SingleFlight(s) && c.refreshPromise == s.client.refreshPromise && c.nextGeneration == s.client.nextGeneration
    ensures var (c', g) := JoinOrStart(c);
      AwaitRefresh(s, r, refused, c', g, restore).requests == s.requests[r := Waiting(g, refused, restore)] && g !in s.settled
  {
  }

  lemma SettleKeepsProgress(setup: Setup, s: System, e: Event)
    requires CanHappen(s, e) && SingleFlight(s) && AccessApart(s) && RetriesMakeProgress(s) && Settles(e)
    ensures RetriesMakeProgress(Step(setup, s, e))
  {
    EndFlightFacts(setup, s, e);
    SettledProgresses(s, Step(setup, s, e), e.g);
  }

  /** A token that was on its way is none a waiter was refused with. */
  lemma SettledProgresses(s: System, s': System, g: Generation)
    requires AccessApart(s) && RetriesMakeProgress(s) && s'.requests == s.requests && g in s'.settled
    requires s'.settled == s.settled[g := s'.settled[g]]
    requires s'.settled[g].Some? ==> CarriedByFlight(s, g) && s'.settled[g] == Some(s.flights[g].reply.access)
    ensures RetriesMakeProgress(s')
  {
    if s'.settled[g].Some? {
      var a := s'.settled[g].value;
      forall r | r in s.requests && s.requests[r].Waiting? ensures s.requests[r].refused != Some(a) {
        assert a !in Held(s.requests[r]);
      }
    }
  }

  /** Requests that go on by this step, or none. */
  lemma KeepsRetriesFresh(setup: Setup, s: System, e: Event)
    requires CanHappen(s, e) && ClientInv(s)
    ensures RetriesAreFresh(Step(setup, s, e))
  {
    if e.Unauthorized? {
      UnauthorizedShape(setup, s, e.r);
    } else if e.Restore? {
      WaitIsUnsettled(setup, s, e);
      WaitAddsProving(setup, s, e);
      RestoreWaits(setup, s, e.r);
    } else if e.Resume? {
      ResumeShape(setup, s, e.r);
    } else {
      OthersRetryNothing(setup, s, e);
    }
  }

  lemma OthersRetryNothing(setup: Setup, s: System, e: Event)
    requires CanHappen(s, e) && !Waits(e) && !e.Resume?
    ensures var s' := Step(setup, s, e);
      && s.issued <= s'.issued
      && forall r :: r in s'.requests && s'.requests[r].Retrying? ==> r in s.requests && s'.requests[r] == s.requests[r]
  {
    if Settles(e) {
      EndFlightFacts(setup, s, e);
    } else if e.Reload? {
      ReloadFrame(s);
    } else if MovesRequest(e) {
      RequestStepFrame(setup, s, e);
    } else if e.Calls? {
      CallStepFrame(s, e.c);
    } else if ServerStep(e) {
      ServerStepKeepsFlights(setup, s, e);
      ServerStepIssues(setup, s, e);
    }
  }

  lemma ServerStepIssues(setup: Setup, s: System, e: Event)
    requires CanHappen(s, e) && ServerStep(e)
    ensures s.issued <= Step(setup, s, e).issued
  {
  }

  lemma RestoreWaits(setup: Setup, s: System, r: CallId)
    requires CanHappen(s, Restore(r))
    ensures var s' := Step(setup, s, Restore(r));
      && r in s'.requests && s'.requests[r].Waiting? && s'.requests[r].restore && s'.requests[r].refused.None?
      && s'.requests == s.requests[r := s'.requests[r]]
  {
    var (c, g) := OnRestoreBegin(s.client);
    assert Step(setup, s, Restore(r)) == AwaitRefresh(s, r, None, c, g, true);
  }

  /** A refused request goes on at once when the controller has another token. */
  lemma UnauthorizedShape(setup: Setup, s: System, r: CallId)
    requires CanHappen(s, Unauthorized(r))
    ensures var s', held, refused := Step(setup, s, Unauthorized(r)), s.client.model.accessToken, s.requests[r].token;
      && s'.issued == s.issued && r in s'.requests && s'.requests == s.requests[r := s'.requests[r]]
      && (if held.Some? && held != refused
          then s' == s.(requests := s.requests[r := Retrying(held.value, refused)])
          else s'.requests[r].Waiting? && s'.requests[r].refused == refused && !s'.requests[r].restore)
  {
  }

  lemma ResumeShape(setup: Setup, s: System, r: CallId)
    requires CanHappen(s, Resume(r))
    ensures var s', w := Step(setup, s, Resume(r)), s.requests[r];
      && s'.issued == s.issued
      && s'.requests == s.requests[r := if s.settled[w.generation].Some? && !w.restore
                                        then Retrying(s.settled[w.generation].value, w.refused) else Finished]
  {
    if s.settled[s.requests[r].generation].None? { ResumeWithNothing(setup, s, r); }
  }

  lemma ResumeWithNothing(setup: Setup, s: System, r: CallId)
    requires CanHappen(s, Resume(r)) && s.settled[s.requests[r].generation].None?
    ensures Step(setup, s, Resume(r)).requests == s.requests[r := Finished] && Step(setup, s, Resume(r)).issued == s.issued
  {
  }

  lemma KeepsSafe(setup: Setup, s: System, e: Event)
    requires CanHappen(s, e) && SystemInv(s) && !e.StrayServe?
    ensures Safe(Step(setup, s, e))
  {
    if e.FlightServe? {
      ServedRefresh(setup, s, e);
      assert ServeRefresh(setup, s, e).answers[..|s.answers|] == s.answers;
    } else {
      OthersAnswerNothing(setup, s, e);
    }
  }

  lemma WaitAnswersNothing(setup: Setup, s: System, e: Event)
    requires CanHappen(s, e) && Waits(e)
    ensures Step(setup, s, e).answers == s.answers && Step(setup, s, e).server == s.server
  {
  }

  lemma SettleAnswersNothing(setup: Setup, s: System, e: Event)
    requires CanHappen(s, e) && Settles(e)
    ensures Step(setup, s, e).answers == s.answers && Step(setup, s, e).server == s.server
  {
    EndFlightFacts(setup, s, e);
  }

  lemma OthersAnswerNothing(setup: Setup, s: System, e: Event)
    requires CanHappen(s, e) && !e.FlightServe? && !e.StrayServe?
    ensures Step(setup, s, e).answers == s.answers
  {
    if Waits(e) {
      WaitAnswersNothing(setup, s, e);
    } else if Settles(e) {
      SettleAnswersNothing(setup, s, e);
    } else if e.Reload? {
      ReloadFrame(s);
    } else if MovesRequest(e) {
      RequestStepFrame(setup, s, e);
    } else if e.Calls? {
      CallStepFrame(s, e.c);
    } else {
      assert e.FlightSend? || e.FlightReject? || e.LoginServe? || e.LogoutServe? || e.Others?;
    }
  }

  lemma StepKeepsClientInv(setup: Setup, s: System, e: Event)
    requires CanHappen(s, e) && ClientInv(s)
    ensures ClientInv(Step(setup, s, e))
  {
    KeepsSingleFlight(setup, s, e);
    KeepsAccessApart(setup, s, e);
    KeepsProgress(setup, s, e);
    KeepsRetriesFresh(setup, s, e);
  }

  lemma {:induction false} RunKeepsClientInv(setup: Setup, s: System, events: seq<Event>)
    requires Possible(setup, s, events) && ClientInv(s)
    ensures ClientInv(RunEvents(setup, s, events))
    decreases |events|
  {
    if events != [] {
      StepKeepsClientInv(setup, s, events[0]);
      RunKeepsClientInv(setup, Step(setup, s, events[0]), events[1..]);
    }
  }

  lemma StepKeepsSystemInv(setup: Setup, s: System, e: Event)
    requires CanHappen(s, e) && SystemInv(s) && !Spoils(s, e)
    ensures SystemInv(Step(setup, s, e))
  {
    StepKeepsClientInv(setup, s, e);
    KeepsTokens(setup, s, e);
    KeepsSafe(setup, s, e);
  }

  lemma {:induction false} RunKeepsSystemInv(setup: Setup, s: System, events: seq<Event>)
    requires Possible(setup, s, events) && Delivered(setup, s, events) && SystemInv(s)
    ensures SystemInv(RunEvents(setup, s, events))
    decreases |events|
  {
    if events != [] {
      StepKeepsSystemInv(setup, s, events[0]);
      RunKeepsSystemInv(setup, Step(setup, s, events[0]), events[1..]);
    }
  }

  /** In no schedule of concurrent requests, 401s, refreshes, logins, logouts,
      cookie expiries, reloads and other users' traffic does the server answer
      `replay` to this browser, as long as no rotated response is lost and no
      abandoned request is served. */
  lemma NeverReplays(setup: Setup, events: seq<Event>)
    requires Possible(setup, Initial(), events) && Delivered(setup, Initial(), events)
    ensures Outcome.Replay !in RunEvents(setup, Initial(), events).answers
  {
    RunKeepsSystemInv(setup, Initial(), events);
  }

  /** There is never a second refresh in flight, whatever is lost or abandoned. */
  lemma AtMostOneFlight(setup: Setup, events: seq<Event>, g: Generation, h: Generation)
    requires Possible(setup, Initial(), events)
    requires g in RunEvents(setup, Initial(), events).flights && h in RunEvents(setup, Initial(), events).flights
    ensures g == h && RunEvents(setup, Initial(), events).client.refreshPromise == Some(g)
  {
    RunKeepsClientInv(setup, Initial(), events);
  }

  /** A 401 in any reachable state: if the controller holds a token other than the
      refused one, the request retries with it at once and nothing else changes;
      otherwise it waits for the refresh in flight, or for a new one if there is
      none. */
  lemma UnauthorizedExactly(setup: Setup, events: seq<Event>, r: CallId)
    requires Possible(setup, Initial(), events) && CanHappen(RunEvents(setup, Initial(), events), Unauthorized(r))
    ensures var s := RunEvents(setup, Initial(), events);
      var s', held, refused := Step(setup, s, Unauthorized(r)), s.client.model.accessToken, s.requests[r].token;
      if held.Some? && held != refused then s' == s.(requests := s.requests[r := Retrying(held.value, refused)])
      else JoinsRefresh(s, s', r, refused, false) && s'.client.model == s.client.model
  {
    RunKeepsClientInv(setup, Initial(), events);
    var s := RunEvents(setup, Initial(), events);
    var refused := s.requests[r].token;
    UnauthorizedShape(setup, s, r);
    if OnUnauthorized(s.client, refused).1.Await? {
      AwaitJoins(s, r, refused, s.client, false);
    }
  }

  /** Restoring a session always waits, and tells so. */
  lemma RestoreExactly(setup: Setup, events: seq<Event>, r: CallId)
    requires Possible(setup, Initial(), events) && CanHappen(RunEvents(setup, Initial(), events), Restore(r))
    ensures var s := RunEvents(setup, Initial(), events);
      var s' := Step(setup, s, Restore(r));
      JoinsRefresh(s, s', r, None, true) && s'.client.model == s.client.model.(sessionState := CheckingSession)
  {
    RunKeepsClientInv(setup, Initial(), events);
    var s := RunEvents(setup, Initial(), events);
    AwaitJoins(s, r, None, Client(s.client.model.(sessionState := CheckingSession), s.client.refreshPromise, s.client.nextGeneration), true);
  }

  /** r waits for the one refresh in flight, which is new, unsettled and yet unsent
      if there was none, and silent exactly if r restores. */
  ghost predicate JoinsRefresh(s: System, s': System, r: CallId, refused: Option<Access>, restore: bool) {
    && r in s'.requests && s'.requests[r].Waiting?
    && var g := s'.requests[r].generation;
       && s'.requests == s.requests[r := Waiting(g, refused, restore)]
       && s'.flights == (if s.flights == map[] then map[g := Proving(restore)] else s.flights)
       && s'.flights.Keys == {g} && g !in s.settled
       && s' == s.(client := s'.client, flights := s'.flights, requests := s'.requests)
  }

  lemma AwaitJoins(s: System, r: CallId, refused: Option<Access>, c: Client, restore: bool)
    requires SingleFlight(s)
    requires c.refreshPromise == s.client.refreshPromise && c.nextGeneration == s.client.nextGeneration
    ensures var (c', g) := JoinOrStart(c);
      && JoinsRefresh(s, AwaitRefresh(s, r, refused, c', g, restore), r, refused, restore) && c'.model == c.model
  {
    if s.client.refreshPromise.None? { assert s.flights == map[]; }
  }

  /** When a refresh ends, its waiters are handed exactly what the controller then
      holds: the token its reply brought, if it was delivered with one.  Without one
      the user is signed out; the session is shown as expired unless the refresh
      was silent and got as far as being sent. */
  lemma FlightEndShows(setup: Setup, s: System, e: Event)
    requires CanHappen(s, e) && Settles(e)
    ensures var m, m' := s.client.model, Step(setup, s, e).client.model;
      && e.g in Step(setup, s, e).settled && Step(setup, s, e).settled[e.g] == m'.accessToken
      && m' == if e.FlightDeliver? && s.flights[e.g].reply.Tokens?
               then m.(accessToken := Some(s.flights[e.g].reply.access))
               else if s.flights[e.g].suppress && !e.FlightProofFailed? then m.(accessToken := None, user := None)
               else Model(LoginMode, SessionExpired, None, None)
  {
  }

  /** A waiter that goes on with nothing signs the user out: to the form that was
      open if it restored the session, as expired if it was refused. */
  lemma ResumeShows(setup: Setup, s: System, r: CallId)
    requires CanHappen(s, Resume(r))
    ensures var w, m, m' := s.requests[r], s.client.model, Step(setup, s, Resume(r)).client.model;
      m' == if s.settled[w.generation].Some? then m
            else if !w.restore then Model(LoginMode, SessionExpired, None, None)
            else Model(m.authMode, if m.authMode == RegisterMode then AnonymousRegister else AnonymousLogin, None, None)
  {
  }

  /** A refresh stays as silent as it was started, until it ends. */
  lemma SilenceIsKept(setup: Setup, s: System, e: Event, g: Generation)
    requires CanHappen(s, e) && SingleFlight(s) && g in s.flights && g in Step(setup, s, e).flights
    ensures Step(setup, s, e).flights[g].suppress == s.flights[g].suppress
  {
    if Waits(e) {
      WaitAddsProving(setup, s, e);
    } else if Settles(e) {
      EndFlightFacts(setup, s, e);
    } else if MovesRequest(e) {
      RequestStepFrame(setup, s, e);
    } else if e.Calls? {
      CallStepFrame(s, e.c);
    } else if e.Reload? {
      ReloadFrame(s);
    }
  }

  /** A request whose proof cannot be made signs the user out as expired, and is over. */
  lemma ProofFailureShows(setup: Setup, s: System, r: CallId)
    requires CanHappen(s, ProofFailed(r))
    ensures var s' := Step(setup, s, ProofFailed(r));
      s'.client.model == Model(LoginMode, SessionExpired, None, None) && s'.requests == s.requests[r := Finished] && s'.flights == s.flights
  {
  }

  /** Loading the page anew leaves nothing of the controller but its cookies; every
      refresh that was sent may still be served, with the cookies it was sent with. */
  lemma ReloadExactly(setup: Setup, s: System, g: Generation)
    ensures var s' := Step(setup, s, Reload);
      && s'.client.model == Model(LoginMode, AnonymousLogin, None, None) && s'.client.refreshPromise == None
      && s'.requests == map[] && s'.flights == map[] && s'.jar == s.jar && s'.server == s.server
      && (g in s.flights && s.flights[g].Sent? ==> g in s'.strays && s'.strays[g] == s.flights[g].jar)
      && ((g !in s.flights || !s.flights[g].Sent?) ==> (g in s'.strays <==> g in s.strays) && (g in s.strays ==> s'.strays[g] == s.strays[g]))
  {
    ReloadFrame(s);
  }

  /** A login that arrives whole gives the controller its token and the browser its
      cookies; one cut short gives the cookies alone; every request begun then
      carries the token held. */
  lemma LoginShows(setup: Setup, s: System, l: CallId, r: CallId)
    requires CanHappen(s, Calls(LoginDeliver(l))) && s.logins[l].loginReply.Tokens? && r !in s.requests
    ensures var reply, s' := s.logins[l].loginReply, Step(setup, s, Calls(LoginDeliver(l)));
      && s'.client == s.client.(model := s.client.model.(accessToken := Some(reply.access)))
      && s'.jar == Jar(Some(reply.refresh), Some(reply.csrf))
      && CanHappen(s', Begin(r)) && Step(setup, s', Begin(r)).requests == s.requests[r := First(Some(reply.access))]
    ensures var reply, s' := s.logins[l].loginReply, Step(setup, s, Calls(LoginCut(l)));
      s'.client == s.client && s'.jar == Jar(Some(reply.refresh), Some(reply.csrf))
  {
  }

  /** Signing out works exactly when the server answers: the cookies and the token
      are gone, and the login form is shown. */
  lemma LogoutShows(setup: Setup, s: System, k: CallId)
    requires CanHappen(s, Calls(LogoutDeliver(k)))
    ensures var s' := Step(setup, s, Calls(LogoutDeliver(k)));
      if s.logouts[k].cleared then s'.jar == NO_COOKIES && s'.client.model == Model(LoginMode, AnonymousLogin, None, None)
      else s'.jar == s.jar && s'.client == s.client
  {
  }

  /** Over every run, whoever retries does so with a token the server issued, other
      than the one it was refused with. */
  lemma RetriesWithFreshToken(setup: Setup, events: seq<Event>, r: CallId)
    requires Possible(setup, Initial(), events)
    requires var s := RunEvents(setup, Initial(), events); r in s.requests && s.requests[r].Retrying?
    ensures var s := RunEvents(setup, Initial(), events);
      s.requests[r].retryToken in s.issued && Some(s.requests[r].retryToken) != s.requests[r].refused
  {
    RunKeepsClientInv(setup, Initial(), events);
  }

  /** Every waiter's refresh is in flight or has settled, and a settled one hands
      over the token the server issued, never the one that was refused. */
  lemma EveryWaiterIsServed(setup: Setup, events: seq<Event>, r: CallId)
    requires Possible(setup, Initial(), events)
    requires var s := RunEvents(setup, Initial(), events); r in s.requests && s.requests[r].Waiting?
    ensures var s := RunEvents(setup, Initial(), events);
            var g := s.requests[r].generation;
            && (g in s.flights) != (g in s.settled)
            && (g in s.settled ==> CanHappen(s, Resume(r)))
            && (g in s.settled && s.settled[g].Some? ==>
                  s.settled[g].value in s.issued && s.settled[g] != s.requests[r].refused)
  {
    RunKeepsClientInv(setup, Initial(), events);
  }

  /** How a flight may end from where it is, losing no rotation. */
  function EndOf(s: System, g: Generation): Event
    requires g in s.flights
  {
    match s.flights[g]
    case Proving(_) => FlightProofFailed(g)
    case Sent(_, _) => FlightLose(g)
    case Answered(_, _) => FlightDeliver(g)
  }

  lemma FlightEnds(setup: Setup, s: System, g: Generation, r: CallId)
    requires g in s.flights && r in s.requests && s.requests[r].Waiting? && s.requests[r].generation == g
    ensures CanHappen(s, EndOf(s, g)) && !Spoils(s, EndOf(s, g))
    ensures CanHappen(Step(setup, s, EndOf(s, g)), Resume(r))
  {
  }

  lemma ResumeEndsWait(setup: Setup, s: System, r: CallId)
    requires CanHappen(s, Resume(r))
    ensures r in Step(setup, s, Resume(r)).requests && !Step(setup, s, Resume(r)).requests[r].Waiting?
    ensures var settled := s.settled[s.requests[r].generation];
      settled.Some? && !s.requests[r].restore ==>
        Step(setup, s, Resume(r)).requests[r] == Retrying(settled.value, s.requests[r].refused)
  {
  }

  /** No waiter is stuck: from every reachable state in which it waits, the refresh
      it waits for can end, if it has not, and the waiter go on. */
  lemma WaiterCanGoOn(setup: Setup, events: seq<Event>, r: CallId) returns (more: seq<Event>)
    requires Possible(setup, Initial(), events)
    requires var s := RunEvents(setup, Initial(), events); r in s.requests && s.requests[r].Waiting?
    ensures var s := RunEvents(setup, Initial(), events);
      && |more| <= 2 && Possible(setup, s, more) && Delivered(setup, s, more)
      && r in RunEvents(setup, s, more).requests && !RunEvents(setup, s, more).requests[r].Waiting?
  {
    RunKeepsClientInv(setup, Initial(), events);
    var s := RunEvents(setup, Initial(), events);
    more := GoOn(setup, s, r);
  }

  lemma GoOn(setup: Setup, s: System, r: CallId) returns (more: seq<Event>)
    requires NoLostWakeup(s) && r in s.requests && s.requests[r].Waiting?
    ensures |more| <= 2 && Possible(setup, s, more) && Delivered(setup, s, more)
    ensures r in RunEvents(setup, s, more).requests && !RunEvents(setup, s, more).requests[r].Waiting?
  {
    var g := s.requests[r].generation;
    if g in s.settled {
      ResumeEndsWait(setup, s, r);
      DeliveredCons(setup, s, Resume(r), []);
      more := [Resume(r)] + [];
    } else {
      var end := EndOf(s, g);
      var s1 := Step(setup, s, end);
      FlightEnds(setup, s, g, r);
      ResumeEndsWait(setup, s1, r);
      DeliveredCons(setup, s1, Resume(r), []);
      DeliveredCons(setup, s, end, [Resume(r)] + []);
      more := [end] + ([Resume(r)] + []);
    }
  }

  /** A refresh on its way that is served with a rotation and delivered lets its
      waiter go on with the token it brought. */
  lemma WaiterGoesOnWithToken(setup: Setup, s: System, r: CallId, serve: Event)
    requires r in s.requests && s.requests[r].Waiting? && !s.requests[r].restore
    requires serve.FlightServe? && serve.g == s.requests[r].generation && CanHappen(s, serve)
    requires RefreshStep(setup.cfg, s.server, Presented(setup, s.flights[serve.g].jar), serve.active, serve.now, serve.childId).1.Rotated?
    ensures var more := [serve] + ([FlightDeliver(serve.g)] + ([Resume(r)] + []));
      && Possible(setup, s, more) && Delivered(setup, s, more)
      && r in RunEvents(setup, s, more).requests && RunEvents(setup, s, more).requests[r] == Retrying(serve.access, s.requests[r].refused)
  {
    var g := serve.g;
    var s1 := Step(setup, s, serve);
    assert s1.requests == s.requests && s1.flights[g].Answered? && s1.flights[g].reply.Tokens? && s1.flights[g].reply.access == serve.access;
    var s2 := Step(setup, s1, FlightDeliver(g));
    assert s2.requests == s.requests && g in s2.settled && s2.settled[g] == Some(serve.access);
    ResumeEndsWait(setup, s2, r);
    DeliveredCons(setup, s2, Resume(r), []);
    DeliveredCons(setup, s1, FlightDeliver(g), [Resume(r)] + []);
    DeliveredCons(setup, s, serve, [FlightDeliver(g)] + ([Resume(r)] + []));
  }

  lemma DeliveredCons(setup: Setup, s: System, e: Event, rest: seq<Event>)
    requires CanHappen(s, e) && !Spoils(s, e) && Possible(setup, Step(setup, s, e), rest)
    requires Delivered(setup, Step(setup, s, e), rest)
    ensures Possible(setup, s, [e] + rest) && Delivered(setup, s, [e] + rest)
    ensures RunEvents(setup, s, [e] + rest) == RunEvents(setup, Step(setup, s, e), rest)
  {
    assert ([e] + rest)[0] == e && ([e] + rest)[1..] == rest;
  }

  lemma SettledStays(setup: Setup, s: System, e: Event, g: Generation)
    requires CanHappen(s, e) && SingleFlight(s) && NoLostWakeup(s) && g in s.settled
    ensures g in Step(setup, s, e).settled && Step(setup, s, e).settled[g] == s.settled[g]
  {
    if Waits(e) {
      WaitAddsProving(setup, s, e);
    } else if Settles(e) {
      assert e.g in s.flights && e.g != g;
    } else if e.Reload? {
      ReloadFrame(s);
    } else if ServerStep(e) {
      ServerStepKeepsFlights(setup, s, e);
    } else {
      BrowserStepKeepsFlights(setup, s, e);
    }
  }

  /** The caller can resume, and then retries with the token. */
  ghost predicate GoesOnWith(setup: Setup, s: System, r: CallId, token: Access) {
    CanHappen(s, Resume(r)) && Step(setup, s, Resume(r)).requests == s.requests[r := Retrying(token, s.requests[r].refused)]
  }

  /** All waiters of one refresh get the same: once it settled with a token, any of
      them, whenever it goes on in any continuation, retries with that token. */
  lemma {:induction false} WaitersShareToken(setup: Setup, s: System, events: seq<Event>, g: Generation, r: CallId)
    requires SingleFlight(s) && NoLostWakeup(s) && g in s.settled && s.settled[g].Some? && Possible(setup, s, events)
    requires var s' := RunEvents(setup, s, events);
      r in s'.requests && s'.requests[r].Waiting? && s'.requests[r].generation == g && !s'.requests[r].restore
    ensures GoesOnWith(setup, RunEvents(setup, s, events), r, s.settled[g].value)
    decreases |events|
  {
    if events == [] {
      ResumeEndsWait(setup, s, r);
    } else {
      KeepsSingleFlight(setup, s, events[0]);
      SettledStays(setup, s, events[0], g);
      WaitersShareToken(setup, Step(setup, s, events[0]), events[1..], g, r);
    }
  }

  /** The server inside the system is a server of module Sessions: its families are chains. */
  lemma {:induction false} SystemServerInv(setup: Setup, s: System, events: seq<Event>, chains: map<FamilyId, seq<TokenId>>)
    returns (chains': map<FamilyId, seq<TokenId>>)
    requires Possible(setup, s, events) && Inv(setup.cfg, s.server, chains)
    ensures Inv(setup.cfg, RunEvents(setup, s, events).server, chains')
    decreases |events|
  {
    if events == [] {
      chains' := chains;
    } else {
      var next := StepServerInv(setup, s, events[0], chains);
      chains' := SystemServerInv(setup, Step(setup, s, events[0]), events[1..], next);
    }
  }

  lemma StepServerInv(setup: Setup, s: System, e: Event, chains: map<FamilyId, seq<TokenId>>)
    returns (chains': map<FamilyId, seq<TokenId>>)
    requires CanHappen(s, e) && Inv(setup.cfg, s.server, chains)
    ensures Inv(setup.cfg, Step(setup, s, e).server, chains')
  {
    if !ServerStep(e) {
      BrowserStepKeepsServer(setup, s, e);
      return chains;
    }
    var op := OpOf(setup, s, e);
    assert Step(setup, s, e).server == Exec(setup.cfg, s.server, op).0;
    StepKeepsInv(setup.cfg, s.server, op, chains);
    chains' := NextChains(chains, Exec(setup.cfg, s.server, op).1);
  }

  lemma BrowserStepKeepsServer(setup: Setup, s: System, e: Event)
    requires CanHappen(s, e) && !ServerStep(e)
    ensures Step(setup, s, e).server == s.server
  {
    if Waits(e) {
      WaitAnswersNothing(setup, s, e);
    } else if Settles(e) {
      SettleAnswersNothing(setup, s, e);
    } else if e.Reload? {
      ReloadFrame(s);
    } else if MovesRequest(e) {
      RequestStepFrame(setup, s, e);
    } else if e.Calls? {
      CallStepFrame(s, e.c);
    } else {
      assert e.FlightSend? || e.FlightReject?;
    }
  }

  /** The cookie a refresh presents is the last token of its family's chain, or
      the family is dead. */
  lemma RefreshPresentsHead(setup: Setup, events: seq<Event>, g: Generation)
    returns (chains: map<FamilyId, seq<TokenId>>)
    requires Possible(setup, Initial(), events) && Delivered(setup, Initial(), events)
    requires Presenting(RunEvents(setup, Initial(), events), g)
    ensures var s := RunEvents(setup, Initial(), events);
            var t := s.flights[g].jar.refresh.value;
            && Inv(setup.cfg, s.server, chains) && t in s.server.tokens
            && var f := s.server.tokens[t].family;
               s.server.families[f].revokedAt.Some? || t == Head(chains, f)
  {
    var s := RunEvents(setup, Initial(), events);
    ReachableInPlace(setup, events);
    chains := SystemServerInv(setup, Initial(), events, map[]);
    PresentedIsHead(setup, s, g, chains);
  }

  lemma ReachableInPlace(setup: Setup, events: seq<Event>)
    requires Possible(setup, Initial(), events) && Delivered(setup, Initial(), events)
    ensures TokensInPlace(RunEvents(setup, Initial(), events))
  {
    RunKeepsSystemInv(setup, Initial(), events);
  }

  lemma PresentedIsHead(setup: Setup, s: System, g: Generation, chains: map<FamilyId, seq<TokenId>>)
    requires TokensInPlace(s) && Presenting(s, g) && Inv(setup.cfg, s.server, chains)
    ensures var t := s.flights[g].jar.refresh.value;
            && t in s.server.tokens
            && var f := s.server.tokens[t].family;
               f in chains && chains[f] != [] && (s.server.families[f].revokedAt.Some? || t == Head(chains, f))
  {
    var t := s.flights[g].jar.refresh.value;
    assert Usable(s, t);
    UnconsumedIsHead(setup.cfg, s.server, chains, t);
  }

  // ------------------------------------------------- cookies that match

  /** The cookies belong together: the token is known, the CSRF value is its
      family's, and the family is bound to this browser's key. */
  predicate Matched(setup: Setup, server: Server, jar: Jar) {
    jar.refresh.Some? ==>
      && jar.refresh.value in server.tokens
      && var f := server.tokens[jar.refresh.value].family;
      && f in server.families && CsrfValid(Presented(setup, jar), f)
      && server.families[f].boundToKey == setup.key.Some? && server.families[f].keyThumbprint == setup.key
  }

  predicate InFlight(s: System, g: Generation, jar: Jar) {
    g in s.flights && (match s.flights[g]
      case Sent(_, sent) => jar == sent
      case Answered(_, reply) => reply.Tokens? && jar == CookiesOf(reply)
      case _ => false)
  }

  predicate InCall(s: System, k: CallId, jar: Jar) {
    || (CarriedByLogin(s, k) && jar == CookiesOf(s.logins[k].loginReply))
    || (k in s.logouts && s.logouts[k] == LogoutSent(jar))
  }

  predicate InStray(s: System, g: Generation, jar: Jar) { g in s.strays && jar == s.strays[g] }

  ghost predicate CookiesMatch(setup: Setup, s: System) {
    && Matched(setup, s.server, s.jar)
    && (forall g, jar :: InFlight(s, g, jar) ==> Matched(setup, s.server, jar))
    && (forall k, jar :: InCall(s, k, jar) ==> Matched(setup, s.server, jar))
    && (forall g, jar :: InStray(s, g, jar) ==> Matched(setup, s.server, jar))
  }

  /** The browser moves cookies about and drops them, and makes none. */
  ghost predicate FewerCookies(s: System, s': System) {
    && s'.server == s.server
    && (s'.jar == NO_COOKIES || s'.jar == s.jar || (exists g :: InFlight(s, g, s'.jar)) || (exists k :: InCall(s, k, s'.jar)))
    && (forall g, jar :: InFlight(s', g, jar) ==> InFlight(s, g, jar) || jar == s.jar)
    && (forall k, jar :: InCall(s', k, jar) ==> InCall(s, k, jar) || jar == s.jar)
    && (forall g, jar :: InStray(s', g, jar) ==> InStray(s, g, jar) || InFlight(s, g, jar))
  }

  lemma FewerCookiesMatch(setup: Setup, s: System, s': System)
    requires CookiesMatch(setup, s) && FewerCookies(s, s')
    ensures CookiesMatch(setup, s')
  {
    assert Matched(setup, s.server, NO_COOKIES);
  }

  lemma BrowserMovesCookies(setup: Setup, s: System, e: Event)
    requires CanHappen(s, e) && !ServerStep(e) && SingleFlight(s)
    ensures FewerCookies(s, Step(setup, s, e))
  {
    if Waits(e) {
      WaitMovesCookies(setup, s, e);
    } else if Settles(e) {
      EndMovesCookies(setup, s, e);
    } else if MovesRequest(e) {
      RequestStepFrame(setup, s, e);
      RequestMovesCookies(setup, s, e);
    } else if e.Calls? {
      CallMovesCookies(s, e.c);
    } else if e.Reload? {
      ReloadMovesCookies(s);
    } else {
      assert e.FlightSend? || e.FlightReject?;
    }
  }

  lemma RequestMovesCookies(setup: Setup, s: System, e: Event)
    requires CanHappen(s, e) && MovesRequest(e)
    ensures Step(setup, s, e).strays == s.strays
  {
  }

  lemma WaitMovesCookies(setup: Setup, s: System, e: Event)
    requires CanHappen(s, e) && Waits(e) && SingleFlight(s)
    ensures FewerCookies(s, Step(setup, s, e))
  {
    WaitAddsProving(setup, s, e);
    WaitFrame(setup, s, e);
    var s' := Step(setup, s, e);
    forall g, jar | InFlight(s', g, jar) ensures InFlight(s, g, jar) {
      assert g in s.flights;
    }
  }

  lemma WaitFrame(setup: Setup, s: System, e: Event)
    requires CanHappen(s, e) && Waits(e)
    ensures Step(setup, s, e).strays == s.strays && Step(setup, s, e).logouts == s.logouts
  {
  }

  lemma EndMovesCookies(setup: Setup, s: System, e: Event)
    requires CanHappen(s, e) && Settles(e)
    ensures FewerCookies(s, Step(setup, s, e))
  {
    EndFlightFacts(setup, s, e);
    EndFrame(setup, s, e);
    var s' := Step(setup, s, e);
    if e.FlightDeliver? || e.FlightCut? {
      assert s'.jar == NO_COOKIES || InFlight(s, e.g, s'.jar);
    }
    forall g, jar | InStray(s', g, jar) ensures InStray(s, g, jar) || InFlight(s, g, jar) {
    }
  }

  lemma EndFrame(setup: Setup, s: System, e: Event)
    requires CanHappen(s, e) && Settles(e)
    ensures var s' := Step(setup, s, e);
      && s'.logouts == s.logouts
      && s'.strays == if e.FlightAbandon? then s.strays[e.g := s.flights[e.g].jar] else s.strays
  {
  }

  lemma CallMovesCookies(s: System, c: CallEvent)
    requires CallCan(s, c)
    ensures FewerCookies(s, CallStep(s, c))
  {
    var s' := CallStep(s, c);
    CallStepFrame(s, c);
    CallStepPlaces(s, c);
    CallFrame(s, c);
    if BringsLogin(c) {
      LoginDeliverShape(s, c);
      if s.logins[c.l].loginReply.Tokens? { assert InCall(s, c.l, s'.jar); }
    }
  }

  lemma CallFrame(s: System, c: CallEvent)
    requires CallCan(s, c)
    ensures CallStep(s, c).strays == s.strays
    ensures var s' := CallStep(s, c);
      forall k :: k in s'.logouts ==> (k in s.logouts && s'.logouts[k] == s.logouts[k]) || s'.logouts[k] == LogoutSent(s.jar)
  {
    CallLeavesStrays(s, c);
  }

  lemma CallLeavesStrays(s: System, c: CallEvent)
    requires CallCan(s, c)
    ensures CallStep(s, c).strays == s.strays
  {
  }

  lemma ReloadMovesCookies(s: System)
    ensures FewerCookies(s, Reloaded(s))
  {
    ReloadFrame(s);
    assert Reloaded(s).logouts == s.logouts;
  }

  lemma MatchedSurvives(setup: Setup, server: Server, op: Op, jar: Jar)
    requires Enabled(server, op) && Matched(setup, server, jar)
    ensures Matched(setup, Exec(setup.cfg, server, op).0, jar)
  {
    if jar.refresh.Some? {
      var f := server.tokens[jar.refresh.value].family;
      StepIsMonotone(setup.cfg, server, op, jar.refresh.value, f);
      StepKeepsFamily(setup.cfg, server, op, f);
    }
  }

  /** A rotation's reply matches as its request did. */
  lemma RotationMatches(setup: Setup, server: Server, jar: Jar, active: bool, now: Time, childId: TokenId, nonce: nat)
    requires childId !in server.tokens && Matched(setup, server, jar)
    requires RefreshStep(setup.cfg, server, Presented(setup, jar), active, now, childId).1.Rotated?
    ensures var (server', o) := RefreshStep(setup.cfg, server, Presented(setup, jar), active, now, childId);
      Matched(setup, server', Jar(Some(o.child), Some(Issued(o.family, nonce))))
  {
    RefreshShape(setup.cfg, server, Presented(setup, jar), active, now, childId);
    StepKeepsFamily(setup.cfg, server, OpRefresh(Presented(setup, jar), active, now, childId), server.tokens[jar.refresh.value].family);
  }

  lemma ServerKeepsCookies(setup: Setup, s: System, e: Event)
    requires CanHappen(s, e) && ServerStep(e) && CookiesMatch(setup, s)
    ensures CookiesMatch(setup, Step(setup, s, e))
  {
    var op := OpOf(setup, s, e);
    var s' := Step(setup, s, e);
    assert s'.server == Exec(setup.cfg, s.server, op).0;
    forall jar | Matched(setup, s.server, jar) ensures Matched(setup, s'.server, jar) {
      MatchedSurvives(setup, s.server, op, jar);
    }
    if e.FlightServe? {
      assert InFlight(s, e.g, s.flights[e.g].jar);
      if Exec(setup.cfg, s.server, op).1.Rotated? {
        RotationMatches(setup, s.server, s.flights[e.g].jar, e.active, e.now, e.childId, e.nonce);
      }
    }
    ServedCookies(setup, s, e);
  }

  /** What transaction an event of the server is. */
  function OpOf(setup: Setup, s: System, e: Event): Op
    requires CanHappen(s, e) && ServerStep(e)
  {
    match e
    case FlightServe(g, active, now, childId, _, _) => OpRefresh(Presented(setup, s.flights[g].jar), active, now, childId)
    case StrayServe(g, active, now, childId, _, _) => OpRefresh(Presented(setup, s.strays[g]), active, now, childId)
    case LoginServe(_, user, now, family, token, _, _) => OpLogin(user, setup.key, now, family, token)
    case LogoutServe(k, now) => OpLogout(Presented(setup, s.logouts[k].jar), now)
    case Others(op) => op
  }

  /** The cookies of a transaction's reply. */
  predicate Brings(setup: Setup, s: System, e: Event, jar: Jar)
    requires CanHappen(s, e) && ServerStep(e)
  {
    var o := Exec(setup.cfg, s.server, OpOf(setup, s, e)).1;
    || (e.FlightServe? && o.Rotated? && jar == Jar(Some(o.child), Some(Issued(o.family, e.nonce))))
    || (e.LoginServe? && jar == Jar(Some(e.token), Some(Issued(e.family, e.nonce))))
  }

  /** Every pair of cookies after a transaction was there before, or was issued by it. */
  lemma ServedCookies(setup: Setup, s: System, e: Event)
    requires CanHappen(s, e) && ServerStep(e)
    ensures var s' := Step(setup, s, e);
      && s'.jar == s.jar
      && (forall g, jar :: InFlight(s', g, jar) ==> InFlight(s, g, jar) || Brings(setup, s, e, jar))
      && (forall k, jar :: InCall(s', k, jar) ==> InCall(s, k, jar) || Brings(setup, s, e, jar))
      && (forall g, jar :: InStray(s', g, jar) ==> InStray(s, g, jar))
  {
  }

  lemma {:induction false} RunKeepsCookies(setup: Setup, s: System, events: seq<Event>)
    requires Possible(setup, s, events) && ClientInv(s) && CookiesMatch(setup, s)
    ensures CookiesMatch(setup, RunEvents(setup, s, events))
    decreases |events|
  {
    if events != [] {
      if ServerStep(events[0]) {
        ServerKeepsCookies(setup, s, events[0]);
      } else {
        BrowserMovesCookies(setup, s, events[0]);
        FewerCookiesMatch(setup, s, Step(setup, s, events[0]));
      }
      StepKeepsClientInv(setup, s, events[0]);
      RunKeepsCookies(setup, Step(setup, s, events[0]), events[1..]);
    }
  }

  /** Where every rotation is delivered and no abandoned request is served, a
      refresh of this browser rotates exactly when it shows a token in time, of a
      family that is neither revoked nor past its deadline, for an active user, and
      the browser has a key if keys are bound. */
  lemma RefreshRotatesExactly(setup: Setup, events: seq<Event>, e: Event)
    requires Possible(setup, Initial(), events) && Delivered(setup, Initial(), events)
    requires e.FlightServe? && CanHappen(RunEvents(setup, Initial(), events), e)
    ensures var s := RunEvents(setup, Initial(), events);
      var jar, answers := s.flights[e.g].jar, Step(setup, s, e).answers;
      && |answers| == |s.answers| + 1
      && (answers[|s.answers|].Rotated? <==> InTime(setup, s.server, jar, e.now) && e.active)
  {
    var s := RunEvents(setup, Initial(), events);
    var jar := s.flights[e.g].jar;
    RunKeepsCookies(setup, Initial(), events);
    assert InFlight(s, e.g, jar);
    var chains := SystemServerInv(setup, Initial(), events, map[]);
    if jar.refresh.Some? {
      ReachableInPlace(setup, events);
      PresentedIsHead(setup, s, e.g, chains);
    }
    MatchedRotatesExactly(setup, s.server, jar, chains, e.active, e.now, e.childId);
    ServedAnswer(setup, s, e);
  }

  lemma ServedAnswer(setup: Setup, s: System, e: Event)
    requires e.FlightServe? && CanHappen(s, e)
    ensures Step(setup, s, e).answers ==
      s.answers + [RefreshStep(setup.cfg, s.server, Presented(setup, s.flights[e.g].jar), e.active, e.now, e.childId).1]
  {
  }

  /** The request is timely: its token is known and unexpired, its family lives. */
  predicate InTime(setup: Setup, server: Server, jar: Jar, now: Time) {
    && jar.refresh.Some? && jar.refresh.value in server.tokens && (setup.cfg.dpopEnabled ==> setup.key.Some?)
    && var t := server.tokens[jar.refresh.value];
    && t.family in server.families && server.families[t.family].revokedAt.None?
    && now < server.families[t.family].absoluteExpiresAt && now < t.expiresAt
  }

  lemma MatchedRotatesExactly(setup: Setup, server: Server, jar: Jar, chains: map<FamilyId, seq<TokenId>>,
                              active: bool, now: Time, childId: TokenId)
    requires Inv(setup.cfg, server, chains) && Matched(setup, server, jar)
    requires jar.refresh.Some? ==>
      var f := server.tokens[jar.refresh.value].family;
      f in chains && chains[f] != [] && (server.families[f].revokedAt.Some? || jar.refresh.value == Head(chains, f))
    ensures RefreshStep(setup.cfg, server, Presented(setup, jar), active, now, childId).1.Rotated?
            <==> InTime(setup, server, jar, now) && active
  {
    RotatedExactly(setup.cfg, server, chains, Presented(setup, jar), active, now, childId);
  }

  /** And the server never refuses this browser for its CSRF value,
      whatever is lost or abandoned. */
  lemma CsrfNeverRefused(setup: Setup, events: seq<Event>, e: Event)
    requires Possible(setup, Initial(), events) && (e.FlightServe? || e.StrayServe? || e.LogoutServe?)
    requires CanHappen(RunEvents(setup, Initial(), events), e)
    ensures var s := RunEvents(setup, Initial(), events);
      Exec(setup.cfg, s.server, OpOf(setup, s, e)).1 != CsrfRejected
  {
    var s := RunEvents(setup, Initial(), events);
    RunKeepsCookies(setup, Initial(), events);
    ServedIsNotRefused(setup, s, e);
  }

  lemma ServedIsNotRefused(setup: Setup, s: System, e: Event)
    requires CanHappen(s, e) && CookiesMatch(setup, s) && (e.FlightServe? || e.StrayServe? || e.LogoutServe?)
    ensures Exec(setup.cfg, s.server, OpOf(setup, s, e)).1 != CsrfRejected
  {
    var jar := if e.FlightServe? then s.flights[e.g].jar else if e.StrayServe? then s.strays[e.g] else s.logouts[e.k].jar;
    JarMatches(setup, s, e);
    MatchedIsNotRefused(setup, s.server, jar, OpOf(setup, s, e));
  }

  lemma JarMatches(setup: Setup, s: System, e: Event)
    requires CanHappen(s, e) && CookiesMatch(setup, s)
    ensures e.FlightServe? ==> Matched(setup, s.server, s.flights[e.g].jar)
    ensures e.StrayServe? ==> Matched(setup, s.server, s.strays[e.g])
    ensures e.LogoutServe? ==> Matched(setup, s.server, s.logouts[e.k].jar)
  {
    if e.FlightServe? {
      assert InFlight(s, e.g, s.flights[e.g].jar);
    } else if e.StrayServe? {
      assert InStray(s, e.g, s.strays[e.g]);
    } else if e.LogoutServe? {
      assert InCall(s, e.k, s.logouts[e.k].jar);
    }
  }

  lemma MatchedIsNotRefused(setup: Setup, server: Server, jar: Jar, op: Op)
    requires Matched(setup, server, jar) && (op.OpRefresh? || op.OpLogout?) && op.c == Presented(setup, jar)
    ensures Exec(setup.cfg, server, op).1 != CsrfRejected
  {
  }

  /** So signing out always works: over every run the server clears the cookies, and
      revokes the family they belong to if the browser has its key. */
  lemma LogoutWorks(setup: Setup, events: seq<Event>, k: CallId, now: Time)
    requires Possible(setup, Initial(), events) && CanHappen(RunEvents(setup, Initial(), events), LogoutServe(k, now))
    ensures var s := RunEvents(setup, Initial(), events);
      var s', jar := Step(setup, s, LogoutServe(k, now)), s.logouts[k].jar;
      && k in s'.logouts && s'.logouts[k] == LogoutAnswered(true)
      && (jar.refresh.Some? && (setup.cfg.dpopEnabled ==> setup.key.Some?) ==>
            && jar.refresh.value in s.server.tokens
            && var f := s.server.tokens[jar.refresh.value].family;
               f in s'.server.families && s'.server.families[f].revokedAt.Some?)
  {
    var s := RunEvents(setup, Initial(), events);
    var jar := s.logouts[k].jar;
    RunKeepsCookies(setup, Initial(), events);
    JarMatches(setup, s, LogoutServe(k, now));
    MatchedIsNotRefused(setup, s.server, jar, OpLogout(Presented(setup, jar), now));
    if jar.refresh.Some? {
      MatchedLogoutRevokes(setup, s.server, jar, now);
    }
  }

  lemma MatchedLogoutRevokes(setup: Setup, server: Server, jar: Jar, now: Time)
    requires Matched(setup, server, jar) && jar.refresh.Some?
    ensures (setup.cfg.dpopEnabled ==> setup.key.Some?) ==>
      var f, s' := server.tokens[jar.refresh.value].family, LogoutStep(setup.cfg, server, Presented(setup, jar), now).0;
      f in s'.families && s'.families[f].revokedAt.Some?
  {
    LogoutRevokesExactly(setup.cfg, server, Presented(setup, jar), now, server.tokens[jar.refresh.value].family);
  }

  // --------------------------------------- why delivery has to be required

  /** The browser's cookie t has been rotated, its family lives at time now, and
      the answer is still in flight. */
  ghost predicate AboutToLose(setup: Setup, s: System, g: Generation, now: Time) {
    && SingleFlight(s) && CarriedByFlight(s, g) && s.jar.refresh.Some? && s.jar.refresh.value in s.server.tokens
    && var t := s.server.tokens[s.jar.refresh.value];
       && Consumed(t) && t.revokedAt.None? && t.family in s.server.families
       && s.jar.csrf.Some? && s.jar.csrf.value.Issued? && s.jar.csrf.value.family == t.family
       && var f := s.server.families[t.family];
          f.revokedAt.None? && now < f.absoluteExpiresAt && BindingMatches(setup.cfg, f, setup.key)
  }

  /** What follows a lost answer: the next refresh, by a caller r. */
  function AfterLoss(s: System, g: Generation, r: CallId, now: Time, childId: TokenId, access: Access): seq<Event> {
    var next := s.client.nextGeneration;
    [FlightLose(g), Restore(r), FlightSend(next), FlightServe(next, true, now, childId, access, 0)]
  }

  /** One lost answer is enough: the browser keeps the spent cookie, and its next
      refresh is taken for a replay. */
  lemma LostRotationReplays(setup: Setup, s: System, g: Generation, r: CallId, now: Time, childId: TokenId, access: Access)
    requires AboutToLose(setup, s, g, now)
    requires r !in s.requests && childId !in s.server.tokens && access !in s.issued
    ensures Possible(setup, s, AfterLoss(s, g, r, now, childId, access))
    ensures RunEvents(setup, s, AfterLoss(s, g, r, now, childId, access)).answers == s.answers + [Outcome.Replay]
  {
    var es := AfterLoss(s, g, r, now, childId, access);
    var next := s.client.nextGeneration;
    LostThenPresented(setup, s, g, r);
    var s1 := Step(setup, s, es[0]);
    var s2 := Step(setup, s1, es[1]);
    var s3 := Step(setup, s2, es[2]);
    RefusedAsReplay(setup, s3, next, now, childId, access);
    RunOne(setup, s3, es[3]);
    RunCons(setup, s2, es[2], [es[3]]);
    RunCons(setup, s1, es[1], [es[2]] + [es[3]]);
    RunCons(setup, s, es[0], [es[1]] + ([es[2]] + [es[3]]));
    assert es == [es[0]] + ([es[1]] + ([es[2]] + [es[3]]));
  }

  /** After the loss a new refresh presents the same cookie. */
  lemma LostThenPresented(setup: Setup, s: System, g: Generation, r: CallId)
    requires SingleFlight(s) && g in s.flights && s.flights[g].Answered? && r !in s.requests
    ensures var next := s.client.nextGeneration;
      && CanHappen(s, FlightLose(g))
      && var s1 := Step(setup, s, FlightLose(g));
      && CanHappen(s1, Restore(r))
      && var s2 := Step(setup, s1, Restore(r));
      && CanHappen(s2, FlightSend(next))
      && var s3 := Step(setup, s2, FlightSend(next));
      && next in s3.flights && s3.flights[next] == Sent(true, s.jar) && s3.jar == s.jar
      && s3.server == s.server && s3.issued == s.issued && s3.answers == s.answers
  {
    var next := s.client.nextGeneration;
    var s1 := Step(setup, s, FlightLose(g));
    assert s1.client.refreshPromise == None && s1.client.nextGeneration == next && s1.requests == s.requests;
    var s2 := Step(setup, s1, Restore(r));
    assert next in s2.flights && s2.flights[next] == Proving(true);
  }

  lemma RefusedAsReplay(setup: Setup, s: System, g: Generation, now: Time, childId: TokenId, access: Access)
    requires g in s.flights && s.flights[g] == Sent(true, s.jar)
    requires childId !in s.server.tokens && access !in s.issued
    requires s.jar.refresh.Some? && s.jar.refresh.value in s.server.tokens
    requires var t := s.server.tokens[s.jar.refresh.value];
             && Consumed(t) && t.revokedAt.None? && t.family in s.server.families
             && s.jar.csrf.Some? && s.jar.csrf.value.Issued? && s.jar.csrf.value.family == t.family
             && var f := s.server.families[t.family];
                f.revokedAt.None? && now < f.absoluteExpiresAt && BindingMatches(setup.cfg, f, setup.key)
    ensures Step(setup, s, FlightServe(g, true, now, childId, access, 0)).answers == s.answers + [Outcome.Replay]
  {
  }

  lemma RunOne(setup: Setup, s: System, e: Event)
    requires CanHappen(s, e)
    ensures Possible(setup, s, [e]) && RunEvents(setup, s, [e]) == Step(setup, s, e)
  {
    assert [e][1..] == [];
  }

  /** The browser just after its first login. */
  function LoggedInSystem(setup: Setup): System {
    Initial().(server := LoginStep(setup.cfg, EMPTY, 1, setup.key, 0, 0, 0), mine := {0}, issued := {0},
               client := OnLoggedIn(Initial().client, 0), jar := Jar(Some(0), Some(Issued(0, 0))))
  }

  lemma LoginReaches(setup: Setup)
    ensures var es := [Calls(LoginSend(0)), LoginServe(0, 1, 0, 0, 0, 0, 0), Calls(LoginDeliver(0))];
            Possible(setup, Initial(), es) && RunEvents(setup, Initial(), es) == LoggedInSystem(setup)
  {
    var e0, e1, e2 := Calls(LoginSend(0)), LoginServe(0, 1, 0, 0, 0, 0, 0), Calls(LoginDeliver(0));
    var s1 := Step(setup, Initial(), e0);
    var s2 := Step(setup, s1, e1);
    var s3 := Step(setup, s2, e2);
    assert s3.logins == map[];
    assert s3 == LoggedInSystem(setup);
    RunOne(setup, s2, e2);
    RunCons(setup, s1, e1, [e2]);
    RunCons(setup, Initial(), e0, [e1] + [e2]);
    assert [e0] + ([e1] + [e2]) == [e0, e1, e2];
  }

  /** And it can come to that: after a login and one refresh the browser is one
      answer short of it. */
  lemma LossIsReachable(setup: Setup)
    requires !setup.cfg.dpopEnabled && setup.cfg.idleTtl > 2 && setup.cfg.absoluteTtl > 2
    ensures var es := [Restore(0), FlightSend(0), FlightServe(0, true, 1, 1, 1, 0)];
            && Possible(setup, LoggedInSystem(setup), es)
            && AboutToLose(setup, RunEvents(setup, LoggedInSystem(setup), es), 0, 2)
  {
    var e0, e1, e2 := Restore(0), FlightSend(0), FlightServe(0, true, 1, 1, 1, 0);
    var s0 := LoggedInSystem(setup);
    var s1 := Step(setup, s0, e0);
    assert s1.server == s0.server && s1.jar == s0.jar;
    var s2 := Step(setup, s1, e1);
    assert s2.server == s0.server && s2.jar == s0.jar && s2.flights[0] == Sent(true, s0.jar);
    FirstRefreshRotates(setup, s2);
    RunOne(setup, s2, e2);
    RunCons(setup, s1, e1, [e2]);
    RunCons(setup, s0, e0, [e1] + [e2]);
    assert [e0] + ([e1] + [e2]) == [e0, e1, e2];
  }

  lemma FirstRefreshRotates(setup: Setup, s: System)
    requires !setup.cfg.dpopEnabled && setup.cfg.idleTtl > 2 && setup.cfg.absoluteTtl > 2
    requires s.server == LoginStep(setup.cfg, EMPTY, 1, setup.key, 0, 0, 0) && s.issued == {0}
    requires s.jar == Jar(Some(0), Some(Issued(0, 0))) && s.flights.Keys == {0} && s.flights[0] == Sent(true, s.jar)
    requires s.client.refreshPromise == Some(0) && s.client.nextGeneration == 1 && s.settled == map[]
    ensures AboutToLose(setup, Step(setup, s, FlightServe(0, true, 1, 1, 1, 0)), 0, 2)
  {
    var c := Presented(setup, s.jar);
    var o := RefreshStep(setup.cfg, s.server, c, true, 1, 1);
    assert o.1 == Rotated(0, 1);
  }

  lemma RunCons(setup: Setup, s: System, e: Event, rest: seq<Event>)
    requires CanHappen(s, e) && Possible(setup, Step(setup, s, e), rest)
    ensures Possible(setup, s, [e] + rest)
    ensures RunEvents(setup, s, [e] + rest) == RunEvents(setup, Step(setup, s, e), rest)
  {
    assert ([e] + rest)[1..] == rest;
  }

  // ------------------------------------------------------- abandoned requests

  /** Every rotated reply of the run was delivered. */
  predicate RotationsDelivered(setup: Setup, s: System, events: seq<Event>)
    requires Possible(setup, s, events)
    decreases |events|
  {
    events == [] || (!LosesRotation(s, events[0]) && RotationsDelivered(setup, Step(setup, s, events[0]), events[1..]))
  }

  /** When the server gets to an abandoned request, it answers replay exactly when
      the token it shows is no longer the head of a live family. */
  lemma StrayReplaysExactly(setup: Setup, s: System, e: Event, chains: map<FamilyId, seq<TokenId>>)
    requires e.StrayServe? && CanHappen(s, e) && Inv(setup.cfg, s.server, chains)
    ensures var jar := s.strays[e.g];
      Step(setup, s, e).answers == s.answers + [Outcome.Replay] <==>
        (&& Shown(s.server, Presented(setup, jar))
         && Reused(setup.cfg, s.server, chains, Presented(setup, jar), e.now, FamilyShown(s.server, Presented(setup, jar))))
  {
    ReplayExactly(setup.cfg, s.server, chains, Presented(setup, s.strays[e.g]), e.active, e.now, e.childId);
    var o := RefreshStep(setup.cfg, s.server, Presented(setup, s.strays[e.g]), e.active, e.now, e.childId).1;
    assert Step(setup, s, e).answers == s.answers + [o];
    assert (s.answers + [o])[|s.answers|] == o;
  }

  /** A rotation leaves its token used up in a family as live as before. */
  lemma RotatedIsSpent(cfg: Settings, s: Server, c: Credentials, active: bool, now: Time, childId: TokenId,
                       again: bool, later: Time, otherId: TokenId)
    requires childId !in s.tokens && RefreshStep(cfg, s, c, active, now, childId).1.Rotated?
    requires var f := s.tokens[c.refreshToken.value].family; f in s.families && later < s.families[f].absoluteExpiresAt
    ensures RefreshStep(cfg, RefreshStep(cfg, s, c, active, now, childId).0, c, again, later, otherId).1 == Outcome.Replay
  {
    RefreshShape(cfg, s, c, active, now, childId);
  }

  /** A request the browser gives up on, and the same cookie presented again. */
  lemma AbandonedThenPresented(setup: Setup, s: System, g: Generation, r: CallId)
    requires SingleFlight(s) && g in s.flights && s.flights[g] == Sent(s.flights[g].suppress, s.jar) && r !in s.requests
    ensures var next := s.client.nextGeneration;
      && CanHappen(s, FlightAbandon(g))
      && var s1 := Step(setup, s, FlightAbandon(g));
      && CanHappen(s1, Restore(r))
      && var s2 := Step(setup, s1, Restore(r));
      && CanHappen(s2, FlightSend(next))
      && var s3 := Step(setup, s2, FlightSend(next));
      && next in s3.flights && s3.flights[next] == Sent(true, s.jar)
      && g in s3.strays && s3.strays[g] == s.jar
      && s3.server == s.server && s3.issued == s.issued
  {
    var next := s.client.nextGeneration;
    var s1 := Step(setup, s, FlightAbandon(g));
    assert s1.client.refreshPromise == None && s1.client.nextGeneration == next && s1.requests == s.requests;
    var s2 := Step(setup, s1, Restore(r));
    assert next in s2.flights && s2.flights[next] == Proving(true);
  }

  /** The new request is served first and its rotation delivered; then the stray. */
  lemma ServedThenStray(setup: Setup, s: System, g: Generation, n: Generation, now: Time, later: Time,
                        childId: TokenId, otherId: TokenId, access: Access, other: Access)
    requires n in s.flights && s.flights[n] == Sent(s.flights[n].suppress, s.jar) && g in s.strays && s.strays[g] == s.jar
    requires childId !in s.server.tokens && otherId !in s.server.tokens && childId != otherId
    requires access !in s.issued && other !in s.issued && access != other
    requires RefreshStep(setup.cfg, s.server, Presented(setup, s.jar), true, now, childId).1.Rotated?
    requires var f := s.server.tokens[s.jar.refresh.value].family;
      f in s.server.families && later < s.server.families[f].absoluteExpiresAt
    ensures var es := [FlightServe(n, true, now, childId, access, 0)]
                      + ([FlightDeliver(n)] + ([StrayServe(g, true, later, otherId, other, 0)] + []));
      && Possible(setup, s, es) && RotationsDelivered(setup, s, es)
      && Outcome.Replay in RunEvents(setup, s, es).answers
  {
    var serve, deliver := FlightServe(n, true, now, childId, access, 0), FlightDeliver(n);
    var stray := StrayServe(g, true, later, otherId, other, 0);
    var s1 := Step(setup, s, serve);
    ServedShape(setup, s, serve);
    var s2 := Step(setup, s1, deliver);
    DeliveredShape(setup, s1, n);
    RotatedIsSpent(setup.cfg, s.server, Presented(setup, s.jar), true, now, childId, true, later, otherId);
    StrayAnswered(setup, s2, stray);
    KeptCons(setup, s2, stray, []);
    KeptCons(setup, s1, deliver, [stray] + []);
    KeptCons(setup, s, serve, [deliver] + ([stray] + []));
  }

  lemma ServedShape(setup: Setup, s: System, e: Event)
    requires e.FlightServe? && CanHappen(s, e)
    requires RefreshStep(setup.cfg, s.server, Presented(setup, s.flights[e.g].jar), e.active, e.now, e.childId).1.Rotated?
    ensures var s' := Step(setup, s, e);
      && s'.server == RefreshStep(setup.cfg, s.server, Presented(setup, s.flights[e.g].jar), e.active, e.now, e.childId).0
      && s'.server.tokens.Keys == s.server.tokens.Keys + {e.childId}
      && s'.issued == s.issued + {e.access} && s'.strays == s.strays && e.g in s'.flights && s'.flights[e.g].Answered?
  {
    RefreshShape(setup.cfg, s.server, Presented(setup, s.flights[e.g].jar), e.active, e.now, e.childId);
  }

  lemma DeliveredShape(setup: Setup, s: System, g: Generation)
    requires g in s.flights && s.flights[g].Answered?
    ensures CanHappen(s, FlightDeliver(g))
    ensures var s' := Step(setup, s, FlightDeliver(g));
      s'.server == s.server && s'.issued == s.issued && s'.strays == s.strays
  {
  }

  lemma StrayAnswered(setup: Setup, s: System, e: Event)
    requires e.StrayServe? && CanHappen(s, e)
    ensures RefreshStep(setup.cfg, s.server, Presented(setup, s.strays[e.g]), e.active, e.now, e.childId).1 in Step(setup, s, e).answers
  {
    var o := RefreshStep(setup.cfg, s.server, Presented(setup, s.strays[e.g]), e.active, e.now, e.childId).1;
    assert Step(setup, s, e).answers == s.answers + [o];
  }

  lemma KeptCons(setup: Setup, s: System, e: Event, rest: seq<Event>)
    requires CanHappen(s, e) && !LosesRotation(s, e) && Possible(setup, Step(setup, s, e), rest)
    requires RotationsDelivered(setup, Step(setup, s, e), rest)
    ensures Possible(setup, s, [e] + rest) && RotationsDelivered(setup, s, [e] + rest)
    ensures RunEvents(setup, s, [e] + rest) == RunEvents(setup, Step(setup, s, e), rest)
  {
    assert ([e] + rest)[0] == e && ([e] + rest)[1..] == rest;
  }

  /** Delivering every rotation is not enough: from every state in which a refresh
      on its way would rotate, giving it up and refreshing again brings a replay
      when the abandoned request arrives last. */
  lemma AbandonedRefreshReplays(setup: Setup, s: System, g: Generation, r: CallId, now: Time, later: Time,
                                childId: TokenId, otherId: TokenId, access: Access, other: Access)
    returns (es: seq<Event>)
    requires SingleFlight(s) && g in s.flights && s.flights[g] == Sent(s.flights[g].suppress, s.jar) && r !in s.requests
    requires childId !in s.server.tokens && otherId !in s.server.tokens && childId != otherId
    requires access !in s.issued && other !in s.issued && access != other
    requires RefreshStep(setup.cfg, s.server, Presented(setup, s.jar), true, now, childId).1.Rotated?
    requires s.jar.refresh.Some? && s.jar.refresh.value in s.server.tokens
    requires var f := s.server.tokens[s.jar.refresh.value].family;
      f in s.server.families && later < s.server.families[f].absoluteExpiresAt
    ensures Possible(setup, s, es) && RotationsDelivered(setup, s, es)
    ensures Outcome.Replay in RunEvents(setup, s, es).answers
  {
    var next := s.client.nextGeneration;
    AbandonedThenPresented(setup, s, g, r);
    var s1 := Step(setup, s, FlightAbandon(g));
    var s2 := Step(setup, s1, Restore(r));
    var s3 := Step(setup, s2, FlightSend(next));
    assert s3.jar == s.jar;
    ServedThenStray(setup, s3, g, next, now, later, childId, otherId, access, other);
    es := [FlightServe(next, true, now, childId, access, 0)]
          + ([FlightDeliver(next)] + ([StrayServe(g, true, later, otherId, other, 0)] + []));
    KeptCons(setup, s2, FlightSend(next), es);
    es := [FlightSend(next)] + es;
    KeptCons(setup, s1, Restore(r), es);
    es := [Restore(r)] + es;
    KeptCons(setup, s, FlightAbandon(g), es);
    es := [FlightAbandon(g)] + es;
  }

  /** The first refresh after a login is such a state. */
  lemma AbandonIsReachable(setup: Setup)
    requires !setup.cfg.dpopEnabled && setup.cfg.idleTtl > 2 && setup.cfg.absoluteTtl > 2
    ensures var es := [Restore(0), FlightSend(0)];
      && Possible(setup, LoggedInSystem(setup), es)
      && var s := RunEvents(setup, LoggedInSystem(setup), es);
         && SingleFlight(s) && 0 in s.flights && s.flights[0] == Sent(true, s.jar) && s.jar == Jar(Some(0), Some(Issued(0, 0)))
         && 0 in s.server.tokens && s.server.tokens[0].family == 0 && 0 in s.server.families
         && s.server.families[0].absoluteExpiresAt > 2
         && RefreshStep(setup.cfg, s.server, Presented(setup, s.jar), true, 1, 1).1.Rotated?
  {
    var e0, e1 := Restore(0), FlightSend(0);
    var s0 := LoggedInSystem(setup);
    var s1 := Step(setup, s0, e0);
    assert s1.server == s0.server && s1.jar == s0.jar;
    var s2 := Step(setup, s1, e1);
    assert s2.flights.Keys == {0};
    RunOne(setup, s1, e1);
    RunCons(setup, s0, e0, [e1]);
    assert [e0] + [e1] == [e0, e1];
  }
}
