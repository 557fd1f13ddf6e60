/** The chat screen's controller (frontend/lib/chat-session.ts): what it does
    between awaits, with edits arriving while a turn is in flight. */
module ChatSession {
  import opened Prelude
  import opened Lifecycle

  /** Ids are made locally or by the server. */
  datatype TurnId = LocalUser(n: nat) | LocalAssistant(n: nat) | Server(n: nat)

  datatype Mode = DirectMode | SearchMode

  datatype TurnState = DirectTurn | SearchTurn(state: SearchState)

  datatype Turn =
    | UserTurn(id: TurnId, mode: Mode, content: string)
    | AssistantTurn(id: TurnId, mode: Mode, state: TurnState, answer: Option<string>)

  datatype RetryContext = RetryContext(prompt: string, mode: Mode)

  /** What sendTurn was called with. */
  datatype Request = Request(mode: Mode, prompt: string, retryOf: Option<TurnId>)

  datatype Response = Response(id: TurnId, mode: Mode, state: TurnState, answer: string)

  datatype Announcement = NoAnnouncement | SuggestionFilled

  datatype Model = Model(
    mode: Mode, draft: string, turns: seq<Turn>, isPending: bool, activeRetryId: Option<TurnId>,
    announcement: Announcement, failed: bool)

  /** The controller's fields. */
  datatype Chat = Chat(model: Model, retryContext: map<TurnId, RetryContext>, requestCount: nat)

  /** The locals of a call suspended at its await. */
  datatype Flight =
    | Submitting(prompt: string, mode: Mode)
    | Retrying(id: TurnId, index: nat, retry: RetryContext)

  // ------------------------------------------------------------ String.trim

  predicate IsWhite(c: char) {
    var u := c as int;
    9 <= u <= 13 || u == 32 || u == 0xA0 || u == 0x1680 || 0x2000 <= u <= 0x200A ||
    u == 0x2028 || u == 0x2029 || u == 0x202F || u == 0x205F || u == 0x3000 || u == 0xFEFF
  }

  function TrimStart(s: string): string { if s != "" && IsWhite(s[0]) then TrimStart(s[1..]) else s }

  function TrimEnd(s: string): string { if s != "" && IsWhite(s[|s| - 1]) then TrimEnd(s[..|s| - 1]) else s }

  function Trim(s: string): string { TrimEnd(TrimStart(s)) }

  predicate AllWhite(s: string) { forall i :: 0 <= i < |s| ==> IsWhite(s[i]) }

  lemma {:induction false} TrimStartExactly(s: string) returns (before: string)
    ensures s == before + TrimStart(s) && AllWhite(before) && (TrimStart(s) != "" ==> !IsWhite(TrimStart(s)[0]))
  {
    before := "";
    if s != "" && IsWhite(s[0]) {
      var rest := TrimStartExactly(s[1..]);
      before := [s[0]] + rest;
      assert s == [s[0]] + s[1..];
    }
  }

  lemma {:induction false} TrimEndExactly(s: string) returns (after: string)
    ensures s == TrimEnd(s) + after && AllWhite(after)
    ensures TrimEnd(s) != "" ==> !IsWhite(TrimEnd(s)[|TrimEnd(s)| - 1]) && TrimEnd(s)[0] == s[0]
  {
    after := "";
    if s != "" && IsWhite(s[|s| - 1]) {
      var rest := TrimEndExactly(s[..|s| - 1]);
      after := rest + [s[|s| - 1]];
      assert s == s[..|s| - 1] + [s[|s| - 1]];
    }
  }

  /** Trimming takes white space off both ends, all of it and nothing else. */
  lemma TrimExactly(s: string) returns (before: string, after: string)
    ensures s == before + Trim(s) + after && AllWhite(before) && AllWhite(after)
    ensures Trim(s) != "" ==> !IsWhite(Trim(s)[0]) && !IsWhite(Trim(s)[|Trim(s)| - 1])
  {
    before := TrimStartExactly(s);
    after := TrimEndExactly(TrimStart(s));
  }

  // ------------------------------------------------------------ the stretches

  function Quieted(m: Model): Model { m.(announcement := NoAnnouncement, failed := false) }

  function OnSetMode(c: Chat, mode: Mode): Chat {
    if c.model.isPending then c else c.(model := Quieted(c.model).(mode := mode))
  }

  function OnSetDraft(c: Chat, draft: string): Chat { c.(model := Quieted(c.model).(draft := draft)) }

  function OnPrefill(c: Chat, query: string): Chat {
    c.(model := c.model.(mode := SearchMode, draft := query, announcement := SuggestionFilled, failed := false))
  }

  /** submitTurn up to its await. */
  function OnSubmit(c: Chat): (Chat, Option<Flight>) {
    var prompt := Trim(c.model.draft);
    if c.model.isPending || prompt == "" then (c, None)
    else
      var turn := UserTurn(LocalUser(c.requestCount + 1), c.model.mode, prompt);
      (c.(requestCount := c.requestCount + 1,
          model := Quieted(c.model).(turns := c.model.turns + [turn], draft := "", isPending := true, activeRetryId := None)),
       Some(Submitting(prompt, c.model.mode)))
  }

  function Answered(r: Response): Turn { AssistantTurn(r.id, r.mode, r.state, Some(r.answer)) }

  function TransportFailure(id: TurnId, mode: Mode): Turn { AssistantTurn(id, mode, SearchTurn(ProviderFailed), None) }

  /** The rest of submitTurn; None: the request threw. */
  function OnSubmitSettled(c: Chat, f: Flight, r: Option<Response>): Chat
    requires f.Submitting? && c.model.turns != []
  {
    if r.Some? || f.mode.SearchMode? then
      var turn := if r.Some? then Answered(r.value) else TransportFailure(LocalAssistant(c.requestCount), f.mode);
      c.(retryContext := c.retryContext[turn.id := RetryContext(f.prompt, f.mode)],
         model := c.model.(turns := c.model.turns + [turn], isPending := false))
    else
      c.(model := c.model.(turns := c.model.turns[..|c.model.turns| - 1], draft := f.prompt, isPending := false, failed := true))
  }

  /** findIndex of an assistant turn with this id; the length when there is none. */
  function FindAssistant(turns: seq<Turn>, id: TurnId): (i: nat)
    ensures i <= |turns|
    ensures i < |turns| ==> turns[i].AssistantTurn? && turns[i].id == id
    ensures forall k :: 0 <= k < i ==> !(turns[k].AssistantTurn? && turns[k].id == id)
  {
    if turns == [] || (turns[0].AssistantTurn? && turns[0].id == id) then 0 else 1 + FindAssistant(turns[1..], id)
  }

  predicate RetryableTurn(t: Turn) { t.AssistantTurn? && t.state.SearchTurn? && Retryable(t.state.state) }

  /** retryTurn up to its await. */
  function OnRetry(c: Chat, id: TurnId): (Chat, Option<Flight>) {
    var index := FindAssistant(c.model.turns, id);
    if c.model.isPending || id !in c.retryContext || index == |c.model.turns| || !RetryableTurn(c.model.turns[index]) then (c, None)
    else
      (c.(model := Quieted(c.model).(isPending := true, activeRetryId := Some(id))),
       Some(Retrying(id, index, c.retryContext[id])))
  }

  /** The rest of retryTurn; None: the request threw. */
  function OnRetrySettled(c: Chat, f: Flight, r: Option<Response>): Chat
    requires f.Retrying? && f.index < |c.model.turns|
  {
    var turn := if r.Some? then AssistantTurn(f.id, r.value.mode, r.value.state, Some(r.value.answer)) else TransportFailure(f.id, f.retry.mode);
    c.(retryContext := if r.Some? then c.retryContext[f.id := f.retry] else c.retryContext,
       model := c.model.(turns := c.model.turns[f.index := turn], isPending := false, activeRetryId := None))
  }

  function RequestOf(f: Flight): Request {
    match f
    case Submitting(prompt, mode) => Request(mode, prompt, None)
    case Retrying(id, _, retry) => Request(retry.mode, retry.prompt, Some(id))
  }

  // ----------------------------------------------------------- the controller

  class ChatSessionController {
    var model: Model
    var retryContext: map<TurnId, RetryContext>
    var requestCount: nat

    function View(): Chat
      reads this
    {
      Chat(model, retryContext, requestCount)
    }

    constructor ()
      ensures View() == INITIAL
    {
      model := Model(DirectMode, "", [], false, None, NoAnnouncement, false);
      retryContext := map[];
      requestCount := 0;
    }

    method SetMode(mode: Mode)
      modifies this
      ensures View() == OnSetMode(old(View()), mode)
    {
      if model.isPending { return; }
      model := model.(mode := mode, announcement := NoAnnouncement, failed := false);
    }

    method SetDraft(draft: string)
      modifies this
      ensures View() == OnSetDraft(old(View()), draft)
    {
      model := model.(draft := draft, announcement := NoAnnouncement, failed := false);
    }

    method PrefillSuggestion(query: string)
      modifies this
      ensures View() == OnPrefill(old(View()), query)
    {
      model := model.(mode := SearchMode, draft := query, announcement := SuggestionFilled, failed := false);
    }

    method SubmitTurn() returns (flight: Option<Flight>)
      modifies this
      ensures (View(), flight) == OnSubmit(old(View()))
    {
      if model.isPending { return None; }
      var prompt := Trim(model.draft);
      if prompt == "" { return None; }
      var mode := model.mode;
      requestCount := requestCount + 1;
      var userTurn := UserTurn(LocalUser(requestCount), mode, prompt);
      model := model.(turns := model.turns + [userTurn], draft := "", isPending := true, activeRetryId := None,
                      announcement := NoAnnouncement, failed := false);
      return Some(Submitting(prompt, mode));
    }

    method SubmitSettled(flight: Flight, response: Option<Response>)
      requires flight.Submitting? && model.turns != []
      modifies this
      ensures View() == OnSubmitSettled(old(View()), flight, response)
    {
      match response {
        case Some(r) =>
          var assistantTurn := Answered(r);
          retryContext := retryContext[assistantTurn.id := RetryContext(flight.prompt, flight.mode)];
          model := model.(turns := model.turns + [assistantTurn], isPending := false);
        case None =>
          if flight.mode == SearchMode {
            var failedTurn := TransportFailure(LocalAssistant(requestCount), flight.mode);
            retryContext := retryContext[failedTurn.id := RetryContext(flight.prompt, flight.mode)];
            model := model.(turns := model.turns + [failedTurn], isPending := false);
          } else {
            model := model.(turns := model.turns[..|model.turns| - 1], draft := flight.prompt, isPending := false, failed := true);
          }
      }
    }

    method RetryTurn(id: TurnId) returns (flight: Option<Flight>)
      modifies this
      ensures (View(), flight) == OnRetry(old(View()), id)
    {
      if model.isPending { return None; }
      if id !in retryContext { return None; }
      var retry := retryContext[id];
      var index := FindAssistant(model.turns, id);
      if index == |model.turns| { return None; }
      if !RetryableTurn(model.turns[index]) { return None; }
      model := model.(isPending := true, activeRetryId := Some(id), announcement := NoAnnouncement, failed := false);
      return Some(Retrying(id, index, retry));
    }

    method RetrySettled(flight: Flight, response: Option<Response>)
      requires flight.Retrying? && flight.index < |model.turns|
      modifies this
      ensures View() == OnRetrySettled(old(View()), flight, response)
    {
      match response {
        case Some(r) =>
          var nextTurn := AssistantTurn(flight.id, r.mode, r.state, Some(r.answer));
          retryContext := retryContext[flight.id := flight.retry];
          model := model.(turns := model.turns[flight.index := nextTurn], isPending := false, activeRetryId := None);
        case None =>
          var failedTurn := TransportFailure(flight.id, flight.retry.mode);
          model := model.(turns := model.turns[flight.index := failedTurn], isPending := false, activeRetryId := None);
      }
    }
  }

  const INITIAL: Chat := Chat(Model(DirectMode, "", [], false, None, NoAnnouncement, false), map[], 0)

  // ------------------------------------------------------------------- runs

  /** The controller, its suspended calls, and the requests sent so far. */
  datatype System = System(chat: Chat, flights: seq<Flight>, sent: seq<Request>)

  datatype Event =
    | SetMode(mode: Mode)
    | SetDraft(draft: string)
    | Prefill(query: string)
    | Submit
    | Retry(id: TurnId)
    | Settle(k: nat, response: Option<Response>)

  const START: System := System(INITIAL, [], [])

  predicate KnownId(c: Chat, id: TurnId) { exists i :: 0 <= i < |c.model.turns| && c.model.turns[i].id == id }

  /** A call that is suspended settles; the server's ids for new turns are new. */
  predicate CanHappen(s: System, e: Event) {
    e.Settle? ==>
      && e.k < |s.flights|
      && (s.flights[e.k].Submitting? ==> s.chat.model.turns != [] && (e.response.Some? ==> e.response.value.id.Server? && !KnownId(s.chat, e.response.value.id)))
      && (s.flights[e.k].Retrying? ==> s.flights[e.k].index < |s.chat.model.turns|)
  }

  function Launched(s: System, next: (Chat, Option<Flight>)): System {
    if next.1.None? then s.(chat := next.0)
    else System(next.0, s.flights + [next.1.value], s.sent + [RequestOf(next.1.value)])
  }

  function Step(s: System, e: Event): System
    requires CanHappen(s, e)
  {
    match e
    case SetMode(mode) => s.(chat := OnSetMode(s.chat, mode))
    case SetDraft(draft) => s.(chat := OnSetDraft(s.chat, draft))
    case Prefill(query) => s.(chat := OnPrefill(s.chat, query))
    case Submit => Launched(s, OnSubmit(s.chat))
    case Retry(id) => Launched(s, OnRetry(s.chat, id))
    case Settle(k, response) =>
      var f := s.flights[k];
      System(if f.Submitting? then OnSubmitSettled(s.chat, f, response) else OnRetrySettled(s.chat, f, response),
             s.flights[..k] + s.flights[k + 1..], s.sent)
  }

  predicate Possible(s: System, events: seq<Event>)
    decreases |events|
  {
    events == [] || (CanHappen(s, events[0]) && Possible(Step(s, events[0]), events[1..]))
  }

  function Run(s: System, events: seq<Event>): System
    requires Possible(s, events)
    decreases |events|
  {
    if events == [] then s else Run(Step(s, events[0]), events[1..])
  }

  // -------------------------------------------------------------- invariant

  /** User and assistant turns alternate, beginning with the user's. */
  ghost predicate Alternate(turns: seq<Turn>) {
    forall i :: 0 <= i < |turns| ==> (turns[i].UserTurn? <==> i % 2 == 0)
  }

  /** Every assistant turn has its own id and can be retried with the prompt and
      mode of the user turn before it. */
  ghost predicate Retriable(c: Chat) {
    && (forall i :: 0 <= i < |c.model.turns| && i % 2 == 1 ==>
          c.model.turns[i].id in c.retryContext && c.model.turns[i - 1].UserTurn?
          && c.retryContext[c.model.turns[i].id] == RetryContext(c.model.turns[i - 1].content, c.model.turns[i - 1].mode))
    && (forall i, j :: 0 <= i < j < |c.model.turns| && i % 2 == 1 && j % 2 == 1 ==> c.model.turns[i].id != c.model.turns[j].id)
  }

  ghost predicate LocalIdsPast(c: Chat, pending: bool) {
    forall i :: 0 <= i < |c.model.turns| && i % 2 == 1 ==>
      match c.model.turns[i].id
      case LocalUser(_) => false
      case LocalAssistant(n) => n <= c.requestCount && (pending ==> n < c.requestCount)
      case Server(_) => true
  }

  ghost predicate FlightOk(c: Chat, f: Flight) {
    var turns := c.model.turns;
    match f
    case Submitting(prompt, mode) =>
      |turns| % 2 == 1 && turns[|turns| - 1] == UserTurn(LocalUser(c.requestCount), mode, prompt)
    case Retrying(id, index, retry) =>
      && |turns| % 2 == 0 && index < |turns| && index % 2 == 1 && turns[index].id == id && turns[index - 1].UserTurn?
      && retry == RetryContext(turns[index - 1].content, turns[index - 1].mode)
  }

  /** The answer a call in flight retries. */
  function Retried(flights: seq<Flight>): Option<TurnId> {
    if |flights| == 1 && flights[0].Retrying? then Some(flights[0].id) else None
  }

  ghost predicate Inv(s: System) {
    && Alternate(s.chat.model.turns) && Retriable(s.chat)
    && LocalIdsPast(s.chat, |s.flights| == 1 && s.flights[0].Submitting?)
    && |s.flights| <= 1
    && (s.chat.model.isPending <==> |s.flights| == 1)
    && (|s.flights| == 1 ==> FlightOk(s.chat, s.flights[0]))
    && s.chat.model.activeRetryId == Retried(s.flights)
    && (|s.flights| == 0 ==> |s.chat.model.turns| % 2 == 0)
  }

  lemma SubmitKeepsInv(s: System)
    requires Inv(s)
    ensures Inv(Step(s, Submit))
  {
    var turns, turns' := s.chat.model.turns, Step(s, Submit).chat.model.turns;
    assert forall i :: 0 <= i < |turns| ==> turns'[i] == turns[i];
  }

  lemma RetryKeepsInv(s: System, id: TurnId)
    requires Inv(s)
    ensures Inv(Step(s, Retry(id)))
  {
  }

  /** An answer with a new id after the user's turn it answers. */
  lemma AnswerKeepsOrder(c: Chat, c': Chat, turn: Turn, prompt: string, mode: Mode)
    requires Alternate(c.model.turns) && Retriable(c) && |c.model.turns| % 2 == 1 && turn.AssistantTurn?
    requires c.model.turns[|c.model.turns| - 1].UserTurn?
    requires var last := c.model.turns[|c.model.turns| - 1]; last.content == prompt && last.mode == mode
    requires forall i :: 0 <= i < |c.model.turns| && i % 2 == 1 ==> c.model.turns[i].id != turn.id
    requires c'.model.turns == c.model.turns + [turn] && c'.retryContext == c.retryContext[turn.id := RetryContext(prompt, mode)]
    ensures Alternate(c'.model.turns) && Retriable(c')
  {
    var turns, turns' := c.model.turns, c'.model.turns;
    assert forall i :: 0 <= i < |turns| ==> turns'[i] == turns[i];
  }

  lemma NewTurnKeepsInv(s: System, e: Event)
    requires Inv(s) && CanHappen(s, e) && e.Settle? && s.flights[e.k].Submitting?
    requires e.response.Some? || s.flights[e.k].mode.SearchMode?
    ensures Inv(Step(s, e))
  {
    var s' := Step(s, e);
    var f, turns, turns' := s.flights[e.k], s.chat.model.turns, s'.chat.model.turns;
    var turn := turns'[|turns|];
    assert s'.flights == [] && turns' == turns + [turn];
    forall i | 0 <= i < |turns| && i % 2 == 1 ensures turns[i].id != turn.id {
      if e.response.Some? { assert !KnownId(s.chat, turn.id); }
    }
    AnswerKeepsOrder(s.chat, s'.chat, turn, f.prompt, f.mode);
    assert forall i :: 0 <= i < |turns| ==> turns'[i] == turns[i];
  }

  lemma DroppedTurnKeepsInv(s: System, e: Event)
    requires Inv(s) && CanHappen(s, e) && e.Settle? && s.flights[e.k].Submitting?
    requires e.response.None? && s.flights[e.k].mode.DirectMode?
    ensures Inv(Step(s, e))
  {
    assert Step(s, e).flights == [];
  }

  lemma RetrySettledKeepsInv(s: System, e: Event)
    requires Inv(s) && CanHappen(s, e) && e.Settle? && s.flights[e.k].Retrying?
    ensures Inv(Step(s, e))
  {
    var s' := Step(s, e);
    assert s'.flights == [];
    var turns, turns' := s.chat.model.turns, s'.chat.model.turns;
    assert forall i :: 0 <= i < |turns| ==> turns'[i].id == turns[i].id;
  }

  lemma StepKeepsInv(s: System, e: Event)
    requires Inv(s) && CanHappen(s, e)
    ensures Inv(Step(s, e))
  {
    match e {
      case Submit => SubmitKeepsInv(s);
      case Retry(id) => RetryKeepsInv(s, id);
      case Settle(k, response) =>
        if s.flights[k].Retrying? {
          RetrySettledKeepsInv(s, e);
        } else if response.Some? || s.flights[k].mode.SearchMode? {
          NewTurnKeepsInv(s, e);
        } else {
          DroppedTurnKeepsInv(s, e);
        }
      case _ =>
    }
  }

  // ------------------------------------------------------------ main results

  /** In every reachable state: turns alternate, their number is odd exactly while
      a submit is in flight, at most one call is in flight, the answer shown as
      being retried is the one it retries, and every assistant turn can be retried
      with the prompt and mode it answered. */
  lemma {:induction false} RunKeepsInv(s: System, events: seq<Event>)
    requires Inv(s) && Possible(s, events)
    ensures Inv(Run(s, events))
    decreases |events|
  {
    if events != [] {
      StepKeepsInv(s, events[0]);
      RunKeepsInv(Step(s, events[0]), events[1..]);
    }
  }

  lemma EveryReachableState(events: seq<Event>)
    requires Possible(START, events)
    ensures var s := Run(START, events);
      && Alternate(s.chat.model.turns)
      && |s.flights| <= 1 && (s.chat.model.isPending <==> |s.flights| == 1)
      && (|s.chat.model.turns| % 2 == 1 <==> |s.flights| == 1 && s.flights[0].Submitting?)
      && Retriable(s.chat)
      && s.chat.model.activeRetryId == Retried(s.flights)
  {
    RunKeepsInv(START, events);
  }

  /** What was last typed or filled in, and the mode it left. */
  function LastDraft(draft: string, events: seq<Event>): string {
    if events == [] then draft
    else
      match events[|events| - 1]
      case SetDraft(typed) => typed
      case Prefill(query) => query
      case _ => LastDraft(draft, events[..|events| - 1])
  }

  predicate AnyPrefill(events: seq<Event>) { exists i :: 0 <= i < |events| && events[i].Prefill? }

  lemma {:induction false} LastDraftCons(draft: string, events: seq<Event>)
    requires events != []
    ensures LastDraft(draft, events) == LastDraft(LastDraft(draft, events[..1]), events[1..])
  {
    if |events| == 1 {
      assert events[..1] == events && events[1..] == [];
    } else {
      var front := events[..|events| - 1];
      LastDraftCons(draft, front);
      assert front[..1] == events[..1] && front[1..] == events[1..][..|events| - 2];
      assert events[1..][|events| - 2] == events[|events| - 1];
    }
  }

  lemma EditStep(s: System, e: Event)
    requires Inv(s) && |s.flights| == 1 && CanHappen(s, e) && !e.Settle?
    ensures var s' := Step(s, e);
      && s'.flights == s.flights && s'.sent == s.sent && s'.chat.model.turns == s.chat.model.turns
      && s'.chat.retryContext == s.chat.retryContext && s'.chat.requestCount == s.chat.requestCount
      && s'.chat.model.draft == LastDraft(s.chat.model.draft, [e])
      && s'.chat.model.mode == if e.Prefill? then SearchMode else s.chat.model.mode
  {
    assert [e][..0] == [];
  }

  /** While a call is in flight nothing but its own end changes the turns, the
      calls or what was sent: the rest only edits the draft, and the mode by
      filling in a suggestion. */
  lemma {:induction false} OnlyEditsInFlight(s: System, events: seq<Event>)
    requires Inv(s) && |s.flights| == 1 && Possible(s, events)
    requires forall i :: 0 <= i < |events| ==> !events[i].Settle?
    ensures var s' := Run(s, events);
      && Inv(s') && s'.flights == s.flights && s'.sent == s.sent && s'.chat.model.turns == s.chat.model.turns
      && s'.chat.retryContext == s.chat.retryContext && s'.chat.requestCount == s.chat.requestCount
      && s'.chat.model.draft == LastDraft(s.chat.model.draft, events)
      && s'.chat.model.mode == if AnyPrefill(events) then SearchMode else s.chat.model.mode
    decreases |events|
  {
    if events != [] {
      StepKeepsInv(s, events[0]);
      EditStep(s, events[0]);
      OnlyEditsInFlight(Step(s, events[0]), events[1..]);
      LastDraftCons(s.chat.model.draft, events);
      assert events[..1] == [events[0]];
      assert AnyPrefill(events) <==> events[0].Prefill? || AnyPrefill(events[1..]) by {
        assert forall i :: 1 <= i < |events| ==> events[i] == events[1..][i - 1];
      }
    }
  }

  /** A submit starts exactly when nothing is pending and something is typed: the
      trimmed draft becomes the user's turn and is sent in the mode chosen. */
  lemma SubmitExactly(s: System)
    requires Inv(s)
    ensures var s', prompt := Step(s, Submit), Trim(s.chat.model.draft);
      if s.chat.model.isPending || prompt == "" then s' == s
      else
        && s'.chat.model.turns == s.chat.model.turns + [UserTurn(LocalUser(s'.chat.requestCount), s.chat.model.mode, prompt)]
        && s'.chat.model.draft == "" && s'.chat.model.isPending && s'.chat.model.mode == s.chat.model.mode
        && !s'.chat.model.failed && s'.chat.model.announcement == NoAnnouncement
        && s'.chat.requestCount == s.chat.requestCount + 1 && s'.chat.retryContext == s.chat.retryContext
        && s'.sent == s.sent + [Request(s.chat.model.mode, prompt, None)]
  {
  }

  /** A retry starts exactly when nothing is pending and the id is that of an
      answer that can be retried; otherwise it changes nothing. */
  lemma RetryStartsExactly(s: System, id: TurnId)
    requires Inv(s)
    ensures var s', turns := Step(s, Retry(id)), s.chat.model.turns;
      if !s.chat.model.isPending && exists i :: 0 <= i < |turns| && RetryableTurn(turns[i]) && turns[i].id == id
      then |s'.flights| == 1 && s'.chat.model.turns == turns && s'.chat.model.isPending && s'.chat.model.activeRetryId == Some(id)
      else s' == s
  {
    var turns := s.chat.model.turns;
    var index := FindAssistant(turns, id);
    if i :| 0 <= i < |turns| && RetryableTurn(turns[i]) && turns[i].id == id {
      assert index <= i && turns[i].id in s.chat.retryContext;
      assert index == i;
    }
  }

  /** A mode is chosen exactly when nothing is pending; choosing it, typing and
      filling in take a notice off the screen, a suggestion gives one. */
  lemma EditsExactly(s: System, e: Event)
    requires Inv(s) && CanHappen(s, e) && (e.SetMode? || e.SetDraft? || e.Prefill?)
    ensures var m, m' := s.chat.model, Step(s, e).chat.model;
      && Step(s, e) == s.(chat := s.chat.(model := m'))
      && m'.turns == m.turns && m'.isPending == m.isPending && m'.activeRetryId == m.activeRetryId
      && (e.SetMode? ==> m'.draft == m.draft && (if m.isPending then m' == m else m'.mode == e.mode))
      && (e.SetDraft? ==> m'.draft == e.draft && m'.mode == m.mode)
      && (e.Prefill? ==> m'.draft == e.query && m'.mode == SearchMode)
      && (m' != m ==> !m'.failed && m'.announcement == if e.Prefill? then SuggestionFilled else NoAnnouncement)
  {
  }

  /** A submit that is answered adds the user's turn and the answer to it, as it
      came; what was typed in the meantime stays in the draft, and the answer can
      be retried with its own prompt and mode. */
  lemma AnsweredSubmitAdds(s: System, edits: seq<Event>, r: Response)
    requires Inv(s) && !s.chat.model.isPending && Trim(s.chat.model.draft) != ""
    requires Possible(Step(s, Submit), edits) && forall i :: 0 <= i < |edits| ==> !edits[i].Settle?
    requires r.id.Server? && !KnownId(s.chat, r.id)
    ensures var s' := Run(Step(s, Submit), edits);
      && CanHappen(s', Settle(0, Some(r)))
      && var s'' := Step(s', Settle(0, Some(r)));
         && s''.chat.model.turns == s.chat.model.turns
              + [UserTurn(LocalUser(s.chat.requestCount + 1), s.chat.model.mode, Trim(s.chat.model.draft)),
                 AssistantTurn(r.id, r.mode, r.state, Some(r.answer))]
         && s''.chat.model.draft == LastDraft("", edits) && !s''.chat.model.isPending
         && s''.chat.retryContext == s.chat.retryContext[r.id := RetryContext(Trim(s.chat.model.draft), s.chat.model.mode)]
         && s''.flights == [] && s''.sent == s.sent + [Request(s.chat.model.mode, Trim(s.chat.model.draft), None)]
  {
    var s1 := Step(s, Submit);
    SubmitKeepsInv(s);
    SubmitExactly(s);
    OnlyEditsInFlight(s1, edits);
    var last := s1.chat.model.turns[|s.chat.model.turns|];
    var s2 := Run(s1, edits);
    forall i | 0 <= i < |s2.chat.model.turns| ensures s2.chat.model.turns[i].id != r.id {
      if i < |s.chat.model.turns| { assert s2.chat.model.turns[i] == s.chat.model.turns[i]; }
    }
    AddedTurn(s2, Trim(s.chat.model.draft), s.chat.model.mode, s.chat.model.turns, last, r);
  }

  lemma AddedTurn(s: System, prompt: string, mode: Mode, turns: seq<Turn>, last: Turn, r: Response)
    requires s.flights == [Submitting(prompt, mode)] && s.chat.model.turns == turns + [last]
    requires r.id.Server? && !KnownId(s.chat, r.id)
    ensures CanHappen(s, Settle(0, Some(r)))
    ensures var s' := Step(s, Settle(0, Some(r)));
      && s'.chat.model == s.chat.model.(turns := turns + [last, AssistantTurn(r.id, r.mode, r.state, Some(r.answer))], isPending := false)
      && s'.chat.retryContext == s.chat.retryContext[r.id := RetryContext(prompt, mode)] && s'.sent == s.sent && s'.flights == []
  {
    assert turns + [last] + [Answered(r)] == turns + [last, Answered(r)];
  }

  /** A direct submit that fails puts back the turns it found and its own prompt,
      whatever was typed in the meantime. */
  lemma FailedDirectSubmitRestores(s: System, edits: seq<Event>)
    requires Inv(s) && !s.chat.model.isPending && Trim(s.chat.model.draft) != "" && s.chat.model.mode.DirectMode?
    requires Possible(Step(s, Submit), edits) && forall i :: 0 <= i < |edits| ==> !edits[i].Settle?
    ensures var s' := Run(Step(s, Submit), edits);
      && CanHappen(s', Settle(0, None))
      && var s'' := Step(s', Settle(0, None));
         && s''.chat.model.turns == s.chat.model.turns
         && s''.chat.model.draft == Trim(s.chat.model.draft)
         && !s''.chat.model.isPending && s''.chat.model.failed
         && s''.chat.retryContext == s.chat.retryContext
         && s''.sent == s.sent + [Request(DirectMode, Trim(s.chat.model.draft), None)]
  {
    var s1 := Step(s, Submit);
    SubmitKeepsInv(s);
    OnlyEditsInFlight(s1, edits);
    DroppedTurn(Run(s1, edits), Trim(s.chat.model.draft), s.chat.model.turns, s1.chat.model.turns[|s.chat.model.turns|]);
  }

  lemma DroppedTurn(s: System, prompt: string, turns: seq<Turn>, last: Turn)
    requires s.flights == [Submitting(prompt, DirectMode)] && s.chat.model.turns == turns + [last]
    ensures CanHappen(s, Settle(0, None))
    ensures var s' := Step(s, Settle(0, None));
      && s'.chat.model == s.chat.model.(turns := turns, draft := prompt, isPending := false, failed := true)
      && s'.chat.retryContext == s.chat.retryContext && s'.sent == s.sent
  {
  }

  /** A retry resends the original prompt and mode, and when it settles, with or
      without an answer, it has replaced only its own entry and kept its id. */
  lemma RetryReplacesOwnEntry(s: System, id: TurnId, edits: seq<Event>, response: Option<Response>, i: nat)
    requires Inv(s) && !s.chat.model.isPending
    requires i < |s.chat.model.turns| && s.chat.model.turns[i].id == id && RetryableTurn(s.chat.model.turns[i])
    requires Possible(Step(s, Retry(id)), edits) && forall k :: 0 <= k < |edits| ==> !edits[k].Settle?
    ensures i % 2 == 1 && s.chat.model.turns[i - 1].UserTurn?
    ensures var s' := Run(Step(s, Retry(id)), edits);
      && CanHappen(s', Settle(0, response))
      && var s'' := Step(s', Settle(0, response));
         var turns, turns'' := s.chat.model.turns, s''.chat.model.turns;
         && s''.sent == s.sent + [Request(turns[i - 1].mode, turns[i - 1].content, Some(id))]
         && |turns''| == |turns| && (forall k :: 0 <= k < |turns| && k != i ==> turns''[k] == turns[k])
         && turns''[i] == (match response
                           case Some(r) => AssistantTurn(id, r.mode, r.state, Some(r.answer))
                           case None => AssistantTurn(id, turns[i - 1].mode, SearchTurn(ProviderFailed), None))
         && (response.None? ==> RetryableTurn(turns''[i]))
         && !s''.chat.model.isPending && s''.chat.retryContext == s.chat.retryContext
  {
    assert FindAssistant(s.chat.model.turns, id) == i;
    var s1 := Step(s, Retry(id));
    RetryKeepsInv(s, id);
    OnlyEditsInFlight(s1, edits);
    RetrySettles(Run(s1, edits), id, i, s.chat.retryContext[id], response);
    assert s.chat.retryContext[id := s.chat.retryContext[id]] == s.chat.retryContext;
  }

  /** The end of a retry replaces its own entry alone. */
  lemma RetrySettles(s: System, id: TurnId, i: nat, retry: RetryContext, response: Option<Response>)
    requires s.flights == [Retrying(id, i, retry)] && i < |s.chat.model.turns|
    ensures CanHappen(s, Settle(0, response))
    ensures var s' := Step(s, Settle(0, response));
      var turns, turns' := s.chat.model.turns, s'.chat.model.turns;
      && s'.sent == s.sent && !s'.chat.model.isPending
      && |turns'| == |turns| && (forall k :: 0 <= k < |turns| && k != i ==> turns'[k] == turns[k])
      && turns'[i] == (match response
                       case Some(r) => AssistantTurn(id, r.mode, r.state, Some(r.answer))
                       case None => AssistantTurn(id, retry.mode, SearchTurn(ProviderFailed), None))
      && s'.chat.retryContext == if response.Some? then s.chat.retryContext[id := retry] else s.chat.retryContext
  {
  }

  lemma FailedSearchSubmit(s: System)
    requires Inv(s) && !s.chat.model.isPending && Trim(s.chat.model.draft) != "" && s.chat.model.mode.SearchMode?
    ensures CanHappen(Step(s, Submit), Settle(0, None))
    ensures var s' := Step(Step(s, Submit), Settle(0, None));
      && Inv(s') && !s'.chat.model.isPending
      && s'.chat.model.turns == s.chat.model.turns
           + [UserTurn(LocalUser(s'.chat.requestCount), SearchMode, Trim(s.chat.model.draft)),
              AssistantTurn(LocalAssistant(s'.chat.requestCount), SearchMode, SearchTurn(ProviderFailed), None)]
  {
    SubmitKeepsInv(s);
    NewTurnKeepsInv(Step(s, Submit), Settle(0, None));
  }

  /** A search submit that fails in transport leaves a turn whose id the server
      never gave: every retry of it names that id. */
  lemma FailedSearchIsRetriedByLocalId(s: System)
    requires Inv(s) && !s.chat.model.isPending && Trim(s.chat.model.draft) != "" && s.chat.model.mode.SearchMode?
    ensures CanHappen(Step(s, Submit), Settle(0, None))
    ensures var s' := Step(Step(s, Submit), Settle(0, None));
      var id := LocalAssistant(s'.chat.requestCount);
      Step(s', Retry(id)).sent == s'.sent + [Request(SearchMode, Trim(s.chat.model.draft), Some(id))]
  {
    FailedSearchSubmit(s);
    var s' := Step(Step(s, Submit), Settle(0, None));
    var i := |s.chat.model.turns| + 1;
    assert RetryableTurn(s'.chat.model.turns[i]);
    RetryReplacesOwnEntry(s', LocalAssistant(s'.chat.requestCount), [], None, i);
  }
}
