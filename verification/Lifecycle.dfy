/** The lifecycle log of a search turn (backend/app/services/chat_turns.py): a list
    that grows by one attempt with every retry. */
module Lifecycle {
  import opened Prelude

  datatype SearchState = Grounded | MissingGrounding | Denied | SearchUnavailable | ProviderFailed | Timeout

  datatype ToolStatus = StatusSucceeded | StatusDenied | StatusFailed | StatusTimedOut

  /** TOOL_STATUS_BY_STATE. */
  function StatusOf(state: SearchState): ToolStatus {
    match state
    case Grounded => StatusSucceeded
    case MissingGrounding => StatusSucceeded
    case Denied => StatusDenied
    case SearchUnavailable => StatusFailed
    case ProviderFailed => StatusFailed
    case Timeout => StatusTimedOut
  }

  /** RETRYABLE_SEARCH_STATES. */
  predicate Retryable(state: SearchState) { state.SearchUnavailable? || state.ProviderFailed? || state.Timeout? }

  datatype Kind = Requested | Started | Closed(status: ToolStatus)

  datatype LogEvent = LogEvent(kind: Kind, state: SearchState, at: int)

  datatype Attempt = Attempt(state: SearchState, started: bool, at: int)

  /** One attempt as _build_lifecycle logs it. */
  function AttemptEvents(a: Attempt): seq<LogEvent> {
    [LogEvent(Requested, a.state, a.at)]
    + (if a.started then [LogEvent(Started, a.state, a.at)] else [])
    + [LogEvent(Closed(StatusOf(a.state)), a.state, a.at)]
  }

  /** _build_lifecycle: the log keeps its events and gains some of one state, the
      last of them the final event; with the final event that belongs to the
      state, as every caller passes it, they are one attempt. */
  method BuildLifecycle(previous: seq<LogEvent>, final: ToolStatus, state: SearchState, started: bool, now: int)
    returns (lifecycle: seq<LogEvent>)
    ensures final == StatusOf(state) ==> lifecycle == previous + AttemptEvents(Attempt(state, started, now))
    ensures previous < lifecycle && lifecycle[|lifecycle| - 1].kind == Closed(final)
    ensures forall i :: |previous| <= i < |lifecycle| ==> lifecycle[i].state == state && lifecycle[i].at == now
  {
    lifecycle := previous + [LogEvent(Requested, state, now)];
    if started {
      lifecycle := lifecycle + [LogEvent(Started, state, now)];
    }
    lifecycle := lifecycle + [LogEvent(Closed(final), state, now)];
  }

  function Unroll(attempts: seq<Attempt>): seq<LogEvent> {
    if attempts == [] then [] else Unroll(attempts[..|attempts| - 1]) + AttemptEvents(attempts[|attempts| - 1])
  }

  /** Read a log as attempts `requested [started] closed`, each with one state. */
  function Parse(log: seq<LogEvent>): Option<seq<Attempt>>
    decreases |log|
  {
    if log == [] then Some([])
    else
      var first := log[0];
      var started := |log| > 1 && log[1] == LogEvent(Started, first.state, first.at);
      var n := if started then 3 else 2;
      var a := Attempt(first.state, started, first.at);
      if |log| < n || log[..n] != AttemptEvents(a) then None
      else
        var rest := Parse(log[n..]);
        if rest.None? then None else Some([a] + rest.value)
  }

  lemma ParseOne(a: Attempt)
    ensures Parse(AttemptEvents(a)) == Some([a])
  {
    var e := AttemptEvents(a);
    var n := if a.started then 3 else 2;
    assert |e| == n && e[0] == LogEvent(Requested, a.state, a.at);
    assert a.started <==> e[1] == LogEvent(Started, a.state, a.at);
    assert e[..n] == e && e[n..] == [];
    assert Parse([]) == Some([]);
    assert [a] + [] == [a];
  }

  lemma {:induction false} ParseAppend(log: seq<LogEvent>, a: Attempt)
    requires Parse(log).Some?
    ensures Parse(log + AttemptEvents(a)) == Some(Parse(log).value + [a])
    decreases |log|
  {
    var e := AttemptEvents(a);
    if log == [] {
      assert log + e == e;
      ParseOne(a);
      assert Parse(log).value + [a] == [a];
    } else {
      var started := |log| > 1 && log[1] == LogEvent(Started, log[0].state, log[0].at);
      var n := if started then 3 else 2;
      var both := log + e;
      assert both[0] == log[0] && both[1] == log[1];
      assert both[..n] == log[..n] && both[n..] == log[n..] + e;
      ParseAppend(log[n..], a);
      var first := Attempt(log[0].state, started, log[0].at);
      assert Parse(both) == Some([first] + Parse(both[n..]).value);
      assert [first] + (Parse(log[n..]).value + [a]) == ([first] + Parse(log[n..]).value) + [a];
    }
  }

  /** The grammar is unambiguous: reading back what was logged gives the attempts. */
  lemma {:induction false} ParseUnroll(attempts: seq<Attempt>)
    ensures Parse(Unroll(attempts)) == Some(attempts)
  {
    if attempts != [] {
      ParseUnroll(attempts[..|attempts| - 1]);
      ParseAppend(Unroll(attempts[..|attempts| - 1]), attempts[|attempts| - 1]);
      assert attempts == attempts[..|attempts| - 1] + [attempts[|attempts| - 1]];
    }
  }

  /** Every attempt but the last ended in a retryable state. */
  predicate OnlyLastFinal(attempts: seq<Attempt>) {
    forall i :: 0 <= i < |attempts| - 1 ==> Retryable(attempts[i].state)
  }

  /** A log as the service leaves it beside a recorded state: it parses, the last
      attempt has the recorded state, and only the last may be final.  The other
      chat service records a state without a log. */
  ghost predicate LogOk(state: SearchState, log: seq<LogEvent>) {
    && Parse(log).Some?
    && OnlyLastFinal(Parse(log).value)
    && (log != [] ==> Parse(log).value != [] && Parse(log).value[|Parse(log).value| - 1].state == state)
  }

  /** A retry of a retryable turn extends the log by one attempt and keeps it well formed. */
  lemma RetryKeepsLog(state: SearchState, log: seq<LogEvent>, a: Attempt)
    requires LogOk(state, log) && Retryable(state)
    ensures LogOk(a.state, log + AttemptEvents(a)) && log < log + AttemptEvents(a)
  {
    ParseAppend(log, a);
    if log == [] { assert Parse(log).value == []; }
  }

  lemma FirstLog(a: Attempt)
    ensures LogOk(a.state, AttemptEvents(a))
  {
    ParseAppend([], a);
    assert [] + AttemptEvents(a) == AttemptEvents(a);
  }

  lemma {:induction false} ParsedEnds(log: seq<LogEvent>)
    requires Parse(log).Some? && log != []
    ensures var attempts := Parse(log).value;
      attempts != [] && var a := attempts[|attempts| - 1]; log[|log| - 1] == LogEvent(Closed(StatusOf(a.state)), a.state, a.at)
    decreases |log|
  {
    var started := |log| > 1 && log[1] == LogEvent(Started, log[0].state, log[0].at);
    var n := if started then 3 else 2;
    var a := Attempt(log[0].state, started, log[0].at);
    assert log[..n][n - 1] == AttemptEvents(a)[n - 1];
    if log[n..] != [] { ParsedEnds(log[n..]); }
  }

  /** A log ends with the status of the recorded state: it tells an answer from a
      denial, a failure and a timeout, and the turn can be retried exactly after
      the last two. */
  lemma FinalStatusTells(state: SearchState, log: seq<LogEvent>)
    requires LogOk(state, log) && log != []
    ensures log[|log| - 1].kind.Closed? && log[|log| - 1].state == state
    ensures var status := log[|log| - 1].kind.status;
      && (status == StatusSucceeded <==> state == Grounded || state == MissingGrounding)
      && (status == StatusDenied <==> state == Denied)
      && (status == StatusTimedOut <==> state == Timeout)
      && (status == StatusFailed || status == StatusTimedOut <==> Retryable(state))
  {
    ParsedEnds(log);
  }
}
