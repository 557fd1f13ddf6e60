/** The trusted supervisor (sandbox/server.py): one-use capabilities, and one
    container per accepted request, under any interleaving of requests; and its
    client's single retry (backend/app/tools/python_client.py). */
module Supervisor {
  import opened Prelude
  import opened Text
  import opened ExecutionResult

  type Time = int
  type RequestId = nat

  // ------------------------------------------------------------ capabilities

  const AUDIENCE: string := "sandbox-worker"
  const TOOL: string := "python"
  const TTL_SECONDS: int := 60
  const LEEWAY_SECONDS: int := 5

  /** The claims of a capability whose header and signature were accepted; None
      where a claim is not of its type. */
  datatype Claims = Claims(
    aud: string, tool: string, executionId: string, profile: string, codeHash: string, stateHash: string,
    jti: Option<string>, iat: Option<int>, nbf: Option<int>, exp: Option<int>)

  datatype Request = Request(executionId: string, profile: string, codeHash: string, stateHash: string)

  datatype Refusal =
    | InvalidToken | AudienceMismatch | ToolMismatch | ExecutionMismatch | ProfileMismatch | CodeMismatch
    | StateMismatch | NoJti | NotNumeric | ExpiryOrdering | TooLong | NotYetValid | IssuedInFuture | Expired | Replayed

  /** A capability that would be accepted if it had not been used. */
  predicate Acceptable(token: Option<Claims>, request: Request, now: Time) {
    && token.Some?
    && var c := token.value;
    && c.aud == AUDIENCE && c.tool == TOOL
    && c.executionId == request.executionId && c.profile == request.profile
    && c.codeHash == request.codeHash && c.stateHash == request.stateHash
    && c.jti.Some? && Strip(c.jti.value) != ""
    && c.iat.Some? && c.nbf.Some? && c.exp.Some?
    && c.iat.value < c.exp.value <= c.iat.value + TTL_SECONDS
    && c.nbf.value <= now + LEEWAY_SECONDS
    && c.iat.value <= now + LEEWAY_SECONDS
    && now - LEEWAY_SECONDS <= c.exp.value
  }

  predicate Accepts(consumed: set<string>, token: Option<Claims>, request: Request, now: Time) {
    Acceptable(token, request, now) && token.value.jti.value !in consumed
  }

  /** issue_python_capability (backend/app/security/tool_capabilities.py): the claims
      the backend signs for one request. */
  function IssuedFor(request: Request, jti: string, issuedAt: Time, ttlSeconds: int): Claims {
    Claims("sandbox-worker", "python", request.executionId, request.profile, request.codeHash, request.stateHash,
           Some(jti), Some(issuedAt), Some(issuedAt), Some(issuedAt + ttlSeconds))
  }

  /** Between the two programs: a capability the backend issued opens the request it
      was issued for and no other, once, from five seconds before its time to five
      seconds after its end; none lasts longer than a minute. */
  lemma IssuedPassesExactly(consumed: set<string>, issuedFor: Request, jti: string, issuedAt: Time, ttlSeconds: int,
                            request: Request, now: Time)
    requires Strip(jti) != ""
    ensures Accepts(consumed, Some(IssuedFor(issuedFor, jti, issuedAt, ttlSeconds)), request, now) <==>
      (&& request == issuedFor && jti !in consumed && 0 < ttlSeconds <= 60
       && issuedAt - 5 <= now <= issuedAt + ttlSeconds + 5)
  {
  }

  // ------------------------------------------------------- one execution

  /** What subprocess.run raises of itself: the time is up, or the command cannot
      be run, which may be for want of permission. */
  datatype Stop = TimedOut | NotRun(denied: bool)

  /** A docker command ends well, with a nonzero status, or not at all. */
  datatype Ending = Fine | Nonzero | Stopped(stop: Stop)

  datatype Loaded = Payload(result: Option<Execution>) | LoadStopped(stop: Stop) | LoadUnreadable

  /** What the daemon does during one execution. */
  datatype Daemon = Daemon(
    inspect: Ending, build: Ending, create: Ending, start: Ending, wait: Ending, kill: Ending, load: Loaded,
    logs: Ending, remove: Ending, text: Option<string>)

  datatype Command = Inspect | Build | Create(ending: Ending) | Start | Wait | Kill | Load | Logs | Remove

  datatype Reply = Executed(result: Execution) | BadRequest | Forbidden | Unavailable | Failure

  /** How do_POST answers such an exception: a PermissionError is taken for a
      refused capability. */
  function Handled(stop: Stop): Reply {
    match stop
    case TimedOut => Unavailable
    case NotRun(denied) => if denied then Forbidden else Failure
  }

  /** A command whose status is not looked at: only an exception changes the answer. */
  function Unless(e: Ending, reply: Reply): Reply { if e.Stopped? then Handled(e.stop) else reply }

  /** execute_request after verification: the commands it issues and its answer. */
  function Execute(d: Daemon, profile: string, seconds: nat): (seq<Command>, Reply) {
    if d.inspect.Stopped? then ([Inspect], Handled(d.inspect.stop))
    else
      var image := if d.inspect.Fine? then [Inspect] else [Inspect, Build];
      if !d.inspect.Fine? && d.build.Stopped? then (image, Handled(d.build.stop))
      else if !d.inspect.Fine? && d.build.Nonzero? then (image, Failure)
      else
        var (commands, reply) := UseContainer(d, profile, seconds);
        (image + commands, reply)
  }

  /** The try block with its handler and its finally clause. */
  function UseContainer(d: Daemon, profile: string, seconds: nat): (seq<Command>, Reply) {
    if d.create.Fine? then
      var (commands, reply) := RunContainer(d, profile, seconds);
      ([Create(Fine)] + commands + [Remove], Unless(d.remove, reply))
    else
      ([Create(d.create)],
       Unless(d.create, Executed(InfraFailureResult(profile, WorkerStartFailed, true, d.text))))
  }

  /** The part between create and remove. */
  function RunContainer(d: Daemon, profile: string, seconds: nat): (seq<Command>, Reply) {
    var unavailable := Executed(InfraFailureResult(profile, WorkerUnavailable, false, d.text));
    if !d.start.Fine? then ([Start], Unless(d.start, unavailable))
    else if d.wait == Stopped(TimedOut) then ([Start, Wait, Kill], Unless(d.kill, Executed(WallTimeResult(profile, seconds))))
    else if !d.wait.Fine? then ([Start, Wait], Unless(d.wait, unavailable))
    else match d.load
      case LoadStopped(stop) => ([Start, Wait, Load], Handled(stop))
      case LoadUnreadable => ([Start, Wait, Load], BadRequest)
      case Payload(Some(result)) => ([Start, Wait, Load], Executed(result))
      case Payload(None) =>
        ([Start, Wait, Load, Logs],
         Unless(d.logs, Executed(InfraFailureResult(profile, WorkerStartFailed, true, d.text))))
  }

  /** The shared state of the supervisor process. */
  class TrustedSupervisor {
    var consumed: set<string>
    var issued: seq<Command>

    constructor ()
      ensures consumed == {} && issued == []
    {
      consumed, issued := {}, [];
    }

    /** verify_capability_token: the checks in order, then the set under its lock. */
    method VerifyCapabilityToken(token: Option<Claims>, request: Request, now: Time) returns (r: Result<string, Refusal>)
      modifies this`consumed
      ensures r.Ok? <==> Accepts(old(consumed), token, request, now)
      ensures r.Ok? ==> r.value == token.value.jti.value
      ensures consumed == if r.Ok? then old(consumed) + {r.value} else old(consumed)
    {
      if token.None? { return Err(InvalidToken); }
      var payload := token.value;
      if payload.aud != AUDIENCE { return Err(AudienceMismatch); }
      if payload.tool != TOOL { return Err(ToolMismatch); }
      if payload.executionId != request.executionId { return Err(ExecutionMismatch); }
      if payload.profile != request.profile { return Err(ProfileMismatch); }
      if payload.codeHash != request.codeHash { return Err(CodeMismatch); }
      if payload.stateHash != request.stateHash { return Err(StateMismatch); }
      if payload.jti.None? || Strip(payload.jti.value) == "" { return Err(NoJti); }
      if payload.iat.None? || payload.nbf.None? || payload.exp.None? { return Err(NotNumeric); }
      if payload.exp.value <= payload.iat.value { return Err(ExpiryOrdering); }
      if payload.exp.value - payload.iat.value > TTL_SECONDS { return Err(TooLong); }
      if payload.nbf.value > now + LEEWAY_SECONDS { return Err(NotYetValid); }
      if payload.iat.value > now + LEEWAY_SECONDS { return Err(IssuedInFuture); }
      if payload.exp.value < now - LEEWAY_SECONDS { return Err(Expired); }
      if payload.jti.value in consumed { return Err(Replayed); }
      consumed := consumed + {payload.jti.value};
      return Ok(payload.jti.value);
    }

    method Issue(command: Command)
      modifies this`issued
      ensures issued == old(issued) + [command]
    {
      issued := issued + [command];
    }

    /** execute_request with its handler's answers to exceptions. */
    method ExecuteRequest(token: Option<Claims>, request: Request, now: Time, d: Daemon, seconds: nat) returns (reply: Reply)
      modifies this
      ensures consumed == if Accepts(old(consumed), token, request, now)
                          then old(consumed) + {token.value.jti.value} else old(consumed)
      ensures Accepts(old(consumed), token, request, now) ==>
        (issued, reply) == (old(issued) + Execute(d, request.profile, seconds).0, Execute(d, request.profile, seconds).1)
      ensures !Accepts(old(consumed), token, request, now) ==> (issued, reply) == (old(issued), Forbidden)
    {
      var verdict := VerifyCapabilityToken(token, request, now);
      if verdict.Err? { return Forbidden; }
      reply := ExecuteVerified(d, request.profile, seconds);
    }

    method ExecuteVerified(d: Daemon, profile: string, seconds: nat) returns (reply: Reply)
      modifies this`issued
      ensures issued == old(issued) + Execute(d, profile, seconds).0
      ensures reply == Execute(d, profile, seconds).1
    {
      Issue(Inspect);
      if d.inspect.Stopped? { return Handled(d.inspect.stop); }
      if !d.inspect.Fine? {
        Issue(Build);
        assert old(issued) + [Inspect] + [Build] == old(issued) + [Inspect, Build];
        if d.build.Stopped? { return Handled(d.build.stop); }
        if d.build.Nonzero? { return Failure; }
      }
      ghost var image := if d.inspect.Fine? then [Inspect] else [Inspect, Build];
      assert issued == old(issued) + image;
      ghost var rest := UseContainer(d, profile, seconds).0;
      reply := RunInContainer(d, profile, seconds);
      assert old(issued) + image + rest == old(issued) + (image + rest);
    }

    method RunInContainer(d: Daemon, profile: string, seconds: nat) returns (reply: Reply)
      modifies this`issued
      ensures issued == old(issued) + UseContainer(d, profile, seconds).0
      ensures reply == UseContainer(d, profile, seconds).1
    {
      var created := false;
      Issue(Create(d.create));
      match d.create {
        case Fine =>
          created := true;
          reply := RunCreated(d, profile, seconds);
        case Nonzero => reply := Executed(InfraFailureResult(profile, WorkerStartFailed, true, d.text));
        case Stopped(stop) => reply := Handled(stop);
      }
      if created {
        Issue(Remove);
        if d.remove.Stopped? { reply := Handled(d.remove.stop); }
      }
    }

    method RunCreated(d: Daemon, profile: string, seconds: nat) returns (reply: Reply)
      modifies this`issued
      ensures issued == old(issued) + RunContainer(d, profile, seconds).0
      ensures reply == RunContainer(d, profile, seconds).1
    {
      var unavailable := Executed(InfraFailureResult(profile, WorkerUnavailable, false, d.text));
      Issue(Start);
      if d.start.Stopped? { return Handled(d.start.stop); }
      if d.start.Nonzero? { return unavailable; }
      Issue(Wait);
      if d.wait == Stopped(TimedOut) {
        Issue(Kill);
        if d.kill.Stopped? { return Handled(d.kill.stop); }
        return Executed(WallTimeResult(profile, seconds));
      }
      if d.wait.Stopped? { return Handled(d.wait.stop); }
      if d.wait.Nonzero? { return unavailable; }
      Issue(Load);
      match d.load {
        case LoadStopped(stop) => return Handled(stop);
        case LoadUnreadable => return BadRequest;
        case Payload(result) =>
          if result.Some? { return Executed(result.value); }
          Issue(Logs);
          if d.logs.Stopped? { return Handled(d.logs.stop); }
          return Executed(InfraFailureResult(profile, WorkerStartFailed, true, d.text));
      }
    }
  }

  // --------------------------------------------------- interleaved executions

  /** An accepted request: its capability, and the commands it will still issue. */
  datatype Work = Work(jti: string, all: seq<Command>, left: seq<Command>)

  datatype System = System(consumed: set<string>, works: map<RequestId, Work>, log: seq<(RequestId, Command)>)

  datatype Event =
    | Arrive(id: RequestId, token: Option<Claims>, request: Request, now: Time, daemon: Daemon, seconds: nat)
    | Advance(id: RequestId)

  predicate CanHappen(s: System, e: Event) {
    match e
    case Arrive(id, _, _, _, _, _) => id !in s.works
    case Advance(id) => id in s.works && s.works[id].left != []
  }

  /** A request is verified in one step, under the lock; from then on it issues
      its commands one by one, interleaved with the others. */
  function Step(s: System, e: Event): System
    requires CanHappen(s, e)
  {
    match e
    case Arrive(id, token, request, now, daemon, seconds) =>
      if !Accepts(s.consumed, token, request, now) then s
      else
        var jti := token.value.jti.value;
        var all := Execute(daemon, request.profile, seconds).0;
        System(s.consumed + {jti}, s.works[id := Work(jti, all, all)], s.log)
    case Advance(id) =>
      var w := s.works[id];
      System(s.consumed, s.works[id := w.(left := w.left[1..])], s.log + [(id, w.left[0])])
  }

  predicate Possible(s: System, events: seq<Event>)
    decreases |events|
  {
    events == [] || (CanHappen(s, events[0]) && Possible(Step(s, events[0]), events[1..]))
  }

  function Run(s: System, events: seq<Event>): System
    requires Possible(s, events)
    decreases |events|
  {
    if events == [] then s else Run(Step(s, events[0]), events[1..])
  }

  const START: System := System({}, map[], [])

  /** The commands of one request, in the order issued. */
  function Issued(log: seq<(RequestId, Command)>, id: RequestId): seq<Command> {
    if log == [] then []
    else Issued(log[..|log| - 1], id) + (if log[|log| - 1].0 == id then [log[|log| - 1].1] else [])
  }

  predicate IsCreate(c: Command) { c == Create(Fine) }

  function Creates(cs: seq<Command>): nat {
    if cs == [] then 0 else Creates(cs[..|cs| - 1]) + (if IsCreate(cs[|cs| - 1]) then 1 else 0)
  }

  function Removes(cs: seq<Command>): nat {
    if cs == [] then 0 else Removes(cs[..|cs| - 1]) + (if cs[|cs| - 1] == Remove then 1 else 0)
  }

  lemma {:induction false} CountsAppend(a: seq<Command>, b: seq<Command>)
    ensures Creates(a + b) == Creates(a) + Creates(b) && Removes(a + b) == Removes(a) + Removes(b)
    decreases |b|
  {
    if b == [] {
      assert a + b == a;
    } else {
      assert (a + b)[..|a + b| - 1] == a + b[..|b| - 1];
      CountsAppend(a, b[..|b| - 1]);
    }
  }

  /** A script removes once for each container it created, and only at its end. */
  predicate Balanced(cs: seq<Command>) {
    && Creates(cs) <= 1
    && Removes(cs) == Creates(cs)
    && (Remove in cs ==> cs[|cs| - 1] == Remove && Remove !in cs[..|cs| - 1])
  }

  predicate Quiet(cs: seq<Command>) { forall i :: 0 <= i < |cs| ==> !IsCreate(cs[i]) && cs[i] != Remove }

  lemma {:induction false} QuietCounts(cs: seq<Command>)
    requires Quiet(cs)
    ensures Creates(cs) == 0 && Removes(cs) == 0
  {
    if cs != [] { QuietCounts(cs[..|cs| - 1]); }
  }

  /** The commands between create and remove create and remove nothing. */
  lemma RunIsQuiet(d: Daemon, profile: string, seconds: nat)
    ensures Quiet(RunContainer(d, profile, seconds).0)
  {
  }

  /** The commands around one use of a container. */
  lemma UseBalances(d: Daemon, profile: string, seconds: nat, image: seq<Command>)
    requires Quiet(image)
    ensures Balanced(image + UseContainer(d, profile, seconds).0)
    ensures Creates(image + UseContainer(d, profile, seconds).0) == (if d.create.Fine? then 1 else 0)
  {
    var used := UseContainer(d, profile, seconds).0;
    if d.create.Fine? {
      var commands := RunContainer(d, profile, seconds).0;
      RunIsQuiet(d, profile, seconds);
      OneContainer(image, commands);
      assert image + used == image + [Create(Fine)] + commands + [Remove];
    } else {
      QuietBalances(image + used);
    }
  }

  lemma QuietBalances(cs: seq<Command>)
    requires Quiet(cs)
    ensures Balanced(cs) && Creates(cs) == 0
  {
    QuietCounts(cs);
  }

  /** Whatever the daemon does, an execution balances. */
  lemma ExecutionBalances(d: Daemon, profile: string, seconds: nat)
    ensures Balanced(Execute(d, profile, seconds).0)
    ensures Creates(Execute(d, profile, seconds).0) == 1 ==> d.create.Fine?
  {
    var image := if d.inspect.Fine? || d.inspect.Stopped? then [Inspect] else [Inspect, Build];
    QuietBalances(image);
    UseBalances(d, profile, seconds, image);
  }

  lemma OneContainer(image: seq<Command>, commands: seq<Command>)
    requires Quiet(image) && Quiet(commands)
    ensures var all := image + [Create(Fine)] + commands + [Remove];
      Balanced(all) && Creates(all) == 1
  {
    QuietCounts(image);
    QuietCounts(commands);
    CountsAppend(image, [Create(Fine)]);
    CountsAppend(image + [Create(Fine)], commands);
    var init := image + [Create(Fine)] + commands;
    CountsAppend(init, [Remove]);
    assert [Create(Fine)][..0] == [] && [Remove][..0] == [];
    assert (init + [Remove])[..|init|] == init;
  }

  // ------------------------------------------- what an execution does and says

  predicate ImageReady(d: Daemon) { d.inspect.Fine? || (d.inspect.Nonzero? && d.build.Fine?) }

  predicate Created(d: Daemon) { ImageReady(d) && d.create.Fine? }

  /** The container ran to its end. */
  predicate Ran(d: Daemon) { Created(d) && d.start.Fine? && d.wait.Fine? }

  predicate OutOfTime(d: Daemon) { Created(d) && d.start.Fine? && d.wait == Stopped(TimedOut) }

  /** Whether a command is issued, by what the daemon did before it. */
  predicate Due(d: Daemon, c: Command) {
    match c
    case Inspect => true
    case Build => d.inspect.Nonzero?
    case Create(ending) => ImageReady(d) && ending == d.create
    case Start => Created(d)
    case Wait => Created(d) && d.start.Fine?
    case Kill => OutOfTime(d)
    case Load => Ran(d)
    case Logs => Ran(d) && d.load == Payload(None)
    case Remove => Created(d)
  }

  function Rank(c: Command): nat {
    match c
    case Inspect => 0
    case Build => 1
    case Create(_) => 2
    case Start => 3
    case Wait => 4
    case Kill => 5
    case Load => 6
    case Logs => 7
    case Remove => 8
  }

  predicate InOrder(cs: seq<Command>) { forall i, j :: 0 <= i < j < |cs| ==> Rank(cs[i]) < Rank(cs[j]) }

  /** The commands issued are exactly those that are due, each once, in one order. */
  lemma CommandsExactly(d: Daemon, profile: string, seconds: nat, c: Command)
    ensures c in Execute(d, profile, seconds).0 <==> Due(d, c)
    ensures InOrder(Execute(d, profile, seconds).0)
  {
    var image := if d.inspect.Fine? || d.inspect.Stopped? then [Inspect] else [Inspect, Build];
    if ImageReady(d) {
      UseExactly(d, profile, seconds, c);
      OrderAppend(image, UseContainer(d, profile, seconds).0, 2);
    }
  }

  lemma UseExactly(d: Daemon, profile: string, seconds: nat, c: Command)
    requires ImageReady(d)
    ensures c in UseContainer(d, profile, seconds).0 <==> Due(d, c) && Rank(c) >= 2
    ensures InOrder(UseContainer(d, profile, seconds).0)
    ensures forall x :: x in UseContainer(d, profile, seconds).0 ==> Rank(x) >= 2
  {
    if d.create.Fine? {
      var commands := RunContainer(d, profile, seconds).0;
      RunExactly(d, profile, seconds);
      RunInOrder(d, profile, seconds);
      OrderAppend([Create(Fine)], commands, 3);
      OrderAppend([Create(Fine)] + commands, [Remove], 8);
    }
  }

  lemma RunExactly(d: Daemon, profile: string, seconds: nat)
    requires Created(d)
    ensures forall c :: c in RunContainer(d, profile, seconds).0 <==> Due(d, c) && 3 <= Rank(c) < 8
  {
  }

  lemma RunInOrder(d: Daemon, profile: string, seconds: nat)
    requires Created(d)
    ensures InOrder(RunContainer(d, profile, seconds).0)
  {
  }

  lemma OrderAppend(a: seq<Command>, b: seq<Command>, n: nat)
    requires InOrder(a) && InOrder(b)
    requires (forall x :: x in a ==> Rank(x) < n) && (forall x :: x in b ==> Rank(x) >= n)
    ensures InOrder(a + b)
  {
    var all := a + b;
    forall i, j | 0 <= i < j < |all| ensures Rank(all[i]) < Rank(all[j]) {
      if i < |a| { assert all[i] == a[i]; } else { assert all[i] == b[i - |a|]; }
      if j < |a| { assert all[j] == a[j]; } else { assert all[j] == b[j - |a|]; }
    }
  }

  /** A verdict of the supervisor's own, which no runner reports. */
  predicate OwnVerdict(r: Execution) { r.infra.Some? || r.limit == Some(WallTime) }

  /** A result loaded from the container is the answer exactly when the container
      ran to its end, and could be removed. */
  lemma LoadedExactly(d: Daemon, profile: string, seconds: nat, r: Execution)
    requires !OwnVerdict(r)
    ensures Execute(d, profile, seconds).1 == Executed(r) <==> Ran(d) && d.load == Payload(Some(r)) && !d.remove.Stopped?
  {
  }

  predicate LoadsForeign(d: Daemon) { d.load.Payload? && d.load.result.Some? ==> !OwnVerdict(d.load.result.value) }

  /** When the supervisor answers with a verdict of its own, and which: the wall
      time is up; the container was made but could not be started or waited for,
      which is final; or it was not made, or left no result, which may be retried. */
  lemma VerdictExactly(d: Daemon, profile: string, seconds: nat)
    requires LoadsForeign(d)
    ensures var reply := Execute(d, profile, seconds).1;
      var outOfTime := Executed(
        Execution(LimitReached, Some(seconds * 1000), Some(profile), None, None, [], Some(WallTime), None, None, None, false));
      var unavailable := Executed(
        Execution(InfraFailure, None, Some(profile), None, Trim(d.text), [], None, None, None, Some(WorkerUnavailable), false));
      var startFailed := Executed(
        Execution(InfraFailure, None, Some(profile), None, Trim(d.text), [], None, None, None, Some(WorkerStartFailed), true));
      && (reply == outOfTime <==> OutOfTime(d) && !d.kill.Stopped? && !d.remove.Stopped?)
      && (reply == unavailable <==> Created(d) && !d.remove.Stopped? && (d.start.Nonzero? || (d.start.Fine? && d.wait.Nonzero?)))
      && (reply == startFailed <==> (ImageReady(d) && d.create.Nonzero?)
                                    || (Ran(d) && d.load == Payload(None) && !d.logs.Stopped? && !d.remove.Stopped?))
      && (reply.Executed? && OwnVerdict(reply.result) ==> reply in {outOfTime, unavailable, startFailed})
  {
  }

  function EndingOf(d: Daemon, c: Command): Ending {
    match c
    case Inspect => d.inspect
    case Build => d.build
    case Create(_) => d.create
    case Start => d.start
    case Wait => d.wait
    case Kill => d.kill
    case Load => if d.load.LoadStopped? then Stopped(d.load.stop) else Fine
    case Logs => d.logs
    case Remove => d.remove
  }

  /** A command raises, and it is not the wait that ran out of time. */
  predicate Breaks(d: Daemon, c: Command) {
    Due(d, c) && EndingOf(d, c).Stopped? && !(c == Wait && d.wait == Stopped(TimedOut))
  }

  /** The other answers: what a command raised, that of the removal first; and
      where nothing did, a failed build, an unreadable result, or a result. */
  lemma OtherwiseExactly(d: Daemon, profile: string, seconds: nat, c: Command)
    ensures Breaks(d, c) && (c == Remove || !Breaks(d, Remove)) ==>
      Execute(d, profile, seconds).1 == (match EndingOf(d, c).stop
                                         case TimedOut => Unavailable
                                         case NotRun(denied) => if denied then Forbidden else Failure)
    ensures (forall x :: !Breaks(d, x)) ==>
      var reply := Execute(d, profile, seconds).1;
      if !ImageReady(d) then reply == Failure
      else if Ran(d) && d.load.LoadUnreadable? then reply == BadRequest
      else reply.Executed?
  {
    if forall x :: !Breaks(d, x) {
      assert !Breaks(d, Inspect) && !Breaks(d, Build) && !Breaks(d, Create(d.create)) && !Breaks(d, Start) && !Breaks(d, Wait)
          && !Breaks(d, Kill) && !Breaks(d, Load) && !Breaks(d, Logs) && !Breaks(d, Remove);
    }
  }

  // ---------------------------------------------------------------- invariant

  ghost predicate WorkOk(s: System, id: RequestId) {
    id in s.works && s.works[id].jti in s.consumed && Balanced(s.works[id].all)
    && s.works[id].all == Issued(s.log, id) + s.works[id].left
  }

  ghost predicate Inv(s: System) {
    && (forall id :: id in s.works ==> WorkOk(s, id))
    && (forall id :: id !in s.works ==> Issued(s.log, id) == [])
    && (forall i, j :: i in s.works && j in s.works && i != j ==> s.works[i].jti != s.works[j].jti)
  }

  lemma IssuedSnoc(log: seq<(RequestId, Command)>, id: RequestId, c: Command, other: RequestId)
    ensures Issued(log + [(id, c)], other) == Issued(log, other) + (if other == id then [c] else [])
  {
    assert (log + [(id, c)])[..|log|] == log;
  }

  /** A new request with an unused capability and a balanced script. */
  lemma AddedWorkKeepsInv(s: System, id: RequestId, jti: string, all: seq<Command>)
    requires Inv(s) && id !in s.works && jti !in s.consumed && Balanced(all)
    ensures Inv(System(s.consumed + {jti}, s.works[id := Work(jti, all, all)], s.log))
  {
    var s' := System(s.consumed + {jti}, s.works[id := Work(jti, all, all)], s.log);
    assert Issued(s.log, id) + all == all;
    forall x | x in s'.works ensures WorkOk(s', x) && (x != id ==> s'.works[x].jti != jti) {
      if x != id { assert WorkOk(s, x); }
    }
  }

  lemma ArriveKeepsInv(s: System, e: Event)
    requires Inv(s) && CanHappen(s, e) && e.Arrive?
    ensures Inv(Step(s, e))
  {
    if Accepts(s.consumed, e.token, e.request, e.now) {
      ExecutionBalances(e.daemon, e.request.profile, e.seconds);
      AddedWorkKeepsInv(s, e.id, e.token.value.jti.value, Execute(e.daemon, e.request.profile, e.seconds).0);
    }
  }

  lemma AdvanceKeepsInv(s: System, id: RequestId)
    requires Inv(s) && CanHappen(s, Advance(id))
    ensures Inv(Step(s, Advance(id)))
  {
    var s' := Step(s, Advance(id));
    var first := s.works[id].left[0];
    assert s'.works.Keys == s.works.Keys;
    forall x | x in s'.works ensures WorkOk(s', x) && s'.works[x].jti == s.works[x].jti {
      if x == id { AdvanceKeepsOwnWork(s, id); } else { AdvanceKeepsOtherWork(s, id, x); }
    }
    forall x | x !in s'.works ensures Issued(s'.log, x) == [] {
      IssuedSnoc(s.log, id, first, x);
    }
  }

  lemma AdvanceKeepsOwnWork(s: System, id: RequestId)
    requires CanHappen(s, Advance(id)) && WorkOk(s, id)
    ensures WorkOk(Step(s, Advance(id)), id)
  {
    var left := s.works[id].left;
    IssuedSnoc(s.log, id, left[0], id);
    assert Issued(s.log, id) + [left[0]] + left[1..] == Issued(s.log, id) + left;
  }

  lemma AdvanceKeepsOtherWork(s: System, id: RequestId, x: RequestId)
    requires CanHappen(s, Advance(id)) && WorkOk(s, x) && x != id
    ensures WorkOk(Step(s, Advance(id)), x)
  {
    IssuedSnoc(s.log, id, s.works[id].left[0], x);
    assert Issued(s.log, x) + [] == Issued(s.log, x);
  }

  lemma StepKeepsInv(s: System, e: Event)
    requires Inv(s) && CanHappen(s, e)
    ensures Inv(Step(s, e)) && s.consumed <= Step(s, e).consumed
  {
    match e {
      case Arrive(_, _, _, _, _, _) => ArriveKeepsInv(s, e);
      case Advance(id) => AdvanceKeepsInv(s, id);
    }
  }

  lemma {:induction false} RunKeepsInv(s: System, events: seq<Event>)
    requires Inv(s) && Possible(s, events)
    ensures Inv(Run(s, events))
    ensures s.consumed <= Run(s, events).consumed
    decreases |events|
  {
    if events != [] {
      StepKeepsInv(s, events[0]);
      RunKeepsInv(Step(s, events[0]), events[1..]);
    }
  }

  // ------------------------------------------------------------ main results

  /** In every run: two requests never pass with the same capability; each
      request creates at most one container, never removes more than it created,
      and once it has ended has removed exactly what it created. */
  lemma EveryRunBalances(events: seq<Event>, i: RequestId, j: RequestId)
    requires Possible(START, events)
    ensures var s := Run(START, events);
      && (i in s.works && j in s.works && s.works[i].jti == s.works[j].jti ==> i == j)
      && Removes(Issued(s.log, i)) <= Creates(Issued(s.log, i)) <= 1
      && (i in s.works && s.works[i].left == [] ==> Removes(Issued(s.log, i)) == Creates(Issued(s.log, i)))
  {
    RunKeepsInv(START, events);
    var s := Run(START, events);
    if i in s.works {
      assert WorkOk(s, i);
      CountsAppend(Issued(s.log, i), s.works[i].left);
      PrefixRemoves(s.works[i].all, Issued(s.log, i), s.works[i].left);
    }
  }

  /** Part of a balanced script never removes more than it created. */
  lemma PrefixRemoves(all: seq<Command>, done: seq<Command>, left: seq<Command>)
    requires Balanced(all) && all == done + left
    ensures Removes(done) <= Creates(done)
    ensures left == [] ==> Removes(done) == Creates(done)
  {
    if left == [] {
      assert done == all;
    } else {
      assert done == all[..|done|];
      forall k | 0 <= k < |done| ensures done[k] != Remove {
        assert all[..|all| - 1][k] == done[k];
      }
      NoRemoves(done);
    }
  }

  lemma {:induction false} NoRemoves(cs: seq<Command>)
    requires Remove !in cs
    ensures Removes(cs) == 0
  {
    if cs != [] { NoRemoves(cs[..|cs| - 1]); }
  }

  /** And nothing keeps a request from ending: from any such state it can issue the
      commands it still has to, whatever others do. */
  lemma {:induction false} CanEnd(s: System, id: RequestId) returns (events: seq<Event>)
    requires Inv(s) && id in s.works
    ensures Possible(s, events)
    ensures var s' := Run(s, events);
      && Inv(s') && id in s'.works && s'.works[id].left == [] && Issued(s'.log, id) == s.works[id].all
      && Removes(Issued(s'.log, id)) == Creates(Issued(s'.log, id))
    decreases |s.works[id].left|
  {
    assert WorkOk(s, id);
    if s.works[id].left == [] {
      events := [];
      assert Issued(s.log, id) + [] == Issued(s.log, id);
    } else {
      var next := Advance(id);
      StepKeepsInv(s, next);
      var rest := CanEnd(Step(s, next), id);
      events := [next] + rest;
      assert events[0] == next && events[1..] == rest;
    }
  }

  /** Two containers were never created for one capability: the creating commands
      of a run belong to requests with different capabilities. */
  lemma OneContainerPerCapability(events: seq<Event>, p: nat, q: nat)
    requires Possible(START, events)
    requires p < q < |Run(START, events).log|
    requires IsCreate(Run(START, events).log[p].1) && IsCreate(Run(START, events).log[q].1)
    ensures var s := Run(START, events);
      var i, j := s.log[p].0, s.log[q].0;
      i in s.works && j in s.works && s.works[i].jti != s.works[j].jti
  {
    RunKeepsInv(START, events);
    var s := Run(START, events);
    var i, j := s.log[p].0, s.log[q].0;
    CreatesAtLeast(s.log, p, i);
    CreatesAtLeast(s.log, q, j);
    if i == j {
      CreatesTwice(s.log, p, q, i);
      EveryRunBalances(events, i, i);
    }
  }

  lemma {:induction false} CreatesAtLeast(log: seq<(RequestId, Command)>, p: nat, id: RequestId)
    requires p < |log| && log[p].0 == id && IsCreate(log[p].1)
    ensures Creates(Issued(log, id)) >= 1
  {
    var init, last := log[..|log| - 1], log[|log| - 1];
    if last.0 == id {
      CountsAppend(Issued(init, id), [last.1]);
    } else {
      assert Issued(log, id) == Issued(init, id) + [] == Issued(init, id);
    }
    assert [last.1][..0] == [];
    if p < |log| - 1 { CreatesAtLeast(init, p, id); }
  }

  lemma {:induction false} CreatesTwice(log: seq<(RequestId, Command)>, p: nat, q: nat, id: RequestId)
    requires p < q < |log| && log[p].0 == id && IsCreate(log[p].1) && log[q].0 == id && IsCreate(log[q].1)
    ensures Creates(Issued(log, id)) >= 2
  {
    var init, last := log[..|log| - 1], log[|log| - 1];
    if last.0 == id {
      CountsAppend(Issued(init, id), [last.1]);
    } else {
      assert Issued(log, id) == Issued(init, id) + [] == Issued(init, id);
    }
    assert [last.1][..0] == [];
    if q < |log| - 1 { CreatesTwice(init, p, q, id); } else { CreatesAtLeast(init, p, id); }
  }

  // ----------------------------------------------------------------- client

  /** What one attempt gives the client; None for a reply that breaks the rule. */
  function Attempt(profile: string, reply: Reply, why: string): Option<Execution> {
    match reply
    case Executed(result) =>
      var t := Translate(profile, result, why);
      if t.Ok? then Some(t.value) else None
    case Unavailable => Some(InfraFailureResult(profile, WorkerStartFailed, true, Some(why)))
    case _ => Some(InfraFailureResult(profile, WorkerUnavailable, false, Some(why)))
  }

  predicate ShouldRetry(r: Execution) { r.status.InfraFailure? && r.infra == Some(WorkerStartFailed) && r.retryable }

  /** The reply to a request that arrives in state s. */
  function ReplyTo(s: System, e: Event): Reply
    requires e.Arrive?
  {
    if Accepts(s.consumed, e.token, e.request, e.now) then Execute(e.daemon, e.request.profile, e.seconds).1 else Forbidden
  }

  /** The client retries only after its capability was consumed, so in every
      later state of the same supervisor the second attempt is refused: it
      creates nothing and ends as a failure that is not retryable. */
  lemma RetryIsRefused(s: System, e: Event, later: seq<Event>, again: Event, why: string)
    requires Inv(s) && e.Arrive? && CanHappen(s, e) && Possible(Step(s, e), later)
    requires again.Arrive? && again.token == e.token && again.request == e.request
    requires CanHappen(Run(Step(s, e), later), again)
    requires Attempt(e.request.profile, ReplyTo(s, e), why).Some?
    requires ShouldRetry(Attempt(e.request.profile, ReplyTo(s, e), why).value)
    ensures var s' := Run(Step(s, e), later);
      && ReplyTo(s', again) == Forbidden
      && Step(s', again) == s'
      && Attempt(e.request.profile, Forbidden, why) == Some(InfraFailureResult(e.request.profile, WorkerUnavailable, false, Some(why)))
  {
    StepKeepsInv(s, e);
    RunKeepsInv(Step(s, e), later);
    assert Accepts(s.consumed, e.token, e.request, e.now);
    assert e.token.value.jti.value in Step(s, e).consumed;
  }

  predicate Sound(r: Execution) { Valid(r) && WithinBounds(r) }

  predicate LoadsSound(d: Daemon) { d.load.Payload? && d.load.result.Some? ==> Sound(d.load.result.value) }

  lemma ExecutedIsSound(d: Daemon, profile: string, seconds: nat)
    requires LoadsSound(d)
    ensures Execute(d, profile, seconds).1.Executed? ==> Sound(Execute(d, profile, seconds).1.result)
  {
    SupervisorResultsAreValid(profile, WorkerStartFailed, true, d.text, seconds);
    SupervisorResultsAreValid(profile, WorkerUnavailable, false, d.text, seconds);
  }

  lemma AttemptIsSound(profile: string, reply: Reply, why: string)
    requires reply.Executed? ==> Sound(reply.result)
    ensures Attempt(profile, reply, why).Some? && Sound(Attempt(profile, reply, why).value)
  {
    SupervisorResultsAreValid(profile, WorkerStartFailed, true, Some(why), 0);
    SupervisorResultsAreValid(profile, WorkerUnavailable, false, Some(why), 0);
    if reply.Executed? { TranslateNeverRaises(profile, reply.result, why); }
  }

  /** Whatever the daemon does, if what it loads was reported by the runner, the
      client gets a result that satisfies the rule. */
  lemma EveryAttemptIsValid(s: System, e: Event, why: string)
    requires e.Arrive?
    requires e.daemon.load.Payload? && e.daemon.load.result.Some? ==> FromRunner(e.daemon.load.result.value)
    ensures var r := Attempt(e.request.profile, ReplyTo(s, e), why);
      r.Some? && Valid(r.value) && WithinBounds(r.value)
  {
    if e.daemon.load.Payload? && e.daemon.load.result.Some? { RunnerResultsAreValid(e.daemon.load.result.value); }
    ExecutedIsSound(e.daemon, e.request.profile, e.seconds);
    AttemptIsSound(e.request.profile, ReplyTo(s, e), why);
  }

  /** From the run to the caller: when the container ran to its end and could be
      removed, the client is told how the run ended and shown what it wrote; the
      artifacts come beside it. */
  lemma RunReachesClient(s: System, e: Event, end: RunEnd, stdout: string, stderr: string, ms: nat, why: string)
    requires e.Arrive? && Accepts(s.consumed, e.token, e.request, e.now)
    requires Ran(e.daemon) && !e.daemon.remove.Stopped? && !end.NoResult? && EndBounded(end)
    requires e.daemon.load == Payload(RunnerResult(end, e.request.profile, stdout, stderr, ms))
    ensures var r := Attempt(e.request.profile, ReplyTo(s, e), why);
      && r.Some? && Tells(r.value, end, stdout, stderr)
      && r.value.profile == Some(e.request.profile) && r.value.duration == Some(ms) && r.value.artifacts == []
      && !ShouldRetry(r.value)
  {
    RunnerTells(end, e.request.profile, stdout, stderr, ms);
    var r := RunnerResult(end, e.request.profile, stdout, stderr, ms).value;
    assert FromRunner(r);
    RunnerResultsAreValid(r);
    assert !OwnVerdict(r);
    LoadedExactly(e.daemon, e.request.profile, e.seconds, r);
    TranslateNeverRaises(e.request.profile, r, why);
  }

  /** The client retries exactly when the supervisor ran out of time, or made no
      container, or found no result in it; every other reply without a result is
      a failure for good. */
  lemma RetriedExactly(s: System, e: Event, why: string)
    requires e.Arrive?
    requires e.daemon.load.Payload? && e.daemon.load.result.Some? ==> FromRunner(e.daemon.load.result.value)
    ensures var d, reply := e.daemon, ReplyTo(s, e);
      var r := Attempt(e.request.profile, reply, why);
      && r.Some?
      && (ShouldRetry(r.value) <==>
            reply == Unavailable || (Accepts(s.consumed, e.token, e.request, e.now)
              && ((ImageReady(d) && d.create.Nonzero?)
                  || (Ran(d) && d.load == Payload(None) && !d.logs.Stopped? && !d.remove.Stopped?))))
      && (!reply.Executed? ==> r.value.infra == Some(if reply == Unavailable then WorkerStartFailed else WorkerUnavailable)
                               && r.value.profile == Some(e.request.profile) && Shows(r.value.stderr, why))
  {
    var d := e.daemon;
    EveryAttemptIsValid(s, e, why);
    TrimShows(why);
    if d.load.Payload? && d.load.result.Some? { RunnerResultsAreValid(d.load.result.value); }
    VerdictExactly(d, e.request.profile, e.seconds);
    RetriedReply(d, e.request.profile, ReplyTo(s, e), why);
  }

  lemma RetriedReply(d: Daemon, profile: string, reply: Reply, why: string)
    requires Attempt(profile, reply, why).Some?
    ensures ShouldRetry(Attempt(profile, reply, why).value) <==>
      reply == Unavailable || (reply.Executed? && WithinBounds(reply.result) && ShouldRetry(reply.result))
  {
  }
}
