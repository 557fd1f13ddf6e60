/** One conversation under two services: ChatService opens a turn under the row
    lock, runs its executor outside the lock and closes the turn later
    (backend/app/services/chat.py); ChatTurnsService does a whole turn in one
    transaction and retries in place (backend/app/services/chat_turns.py).

    Requests interleave freely; what happens under the lock is one step. */
module Conversations {
  import opened Prelude
  import opened Lifecycle

  type UserId = nat
  type ClientId = nat
  type ExecutorId = nat
  type MessageId = nat

  datatype Role = User | Assistant
  datatype Status = Pending | Completed | Failed

  datatype Metadata =
    | NoMetadata
    | ProviderError(retryable: bool)
    | Guardrail
    | Search(state: SearchState, log: seq<LogEvent>)

  datatype Message = Message(
    role: Role, status: Status, sequenceNo: nat, clientId: Option<ClientId>, content: string, metadata: Metadata)

  /** A turn being completed: the row it will close and the context it was given. */
  datatype Executor = Executor(target: MessageId, context: seq<Message>)

  /** The rows of one conversation in insertion order; a row's id is its position.
      A deletion is undoable for six seconds. */
  datatype Conversation = Conversation(
    owner: UserId, deleted: bool, undoable: bool, rows: seq<Message>, executors: map<ExecutorId, Executor>)

  datatype Outcome = Opened(target: MessageId) | Replayed | NotFound | TurnInProgress | Answered

  // ----------------------------------------------------------- the queries

  function MaxSequenceNo(rows: seq<Message>): nat {
    if rows == [] then 0
    else
      var rest := MaxSequenceNo(rows[..|rows| - 1]);
      if rest < rows[|rows| - 1].sequenceNo then rows[|rows| - 1].sequenceNo else rest
  }

  function NextSequenceNo(rows: seq<Message>): nat { MaxSequenceNo(rows) + 1 }

  /** get_existing_user_message. */
  function FindUser(rows: seq<Message>, id: ClientId): (r: Option<MessageId>)
    ensures r.Some? ==> r.value < |rows| && rows[r.value].clientId == Some(id) && rows[r.value].role == User
    ensures r.None? ==> forall i :: 0 <= i < |rows| && rows[i].role == User ==> rows[i].clientId != Some(id)
  {
    if rows == [] then None
    else
      var last := |rows| - 1;
      var r := FindUser(rows[..last], id);
      if r.Some? then r
      else if rows[last].clientId == Some(id) && rows[last].role == User then Some(last)
      else None
  }

  /** get_paired_assistant_message. */
  function FindPaired(rows: seq<Message>, sequenceNo: nat): (r: Option<MessageId>)
    ensures r.Some? ==> r.value < |rows| && rows[r.value].sequenceNo == sequenceNo + 1 && rows[r.value].role == Assistant
    ensures r.None? ==> forall i :: 0 <= i < |rows| && rows[i].role == Assistant ==> rows[i].sequenceNo != sequenceNo + 1
  {
    if rows == [] then None
    else
      var last := |rows| - 1;
      var r := FindPaired(rows[..last], sequenceNo);
      if r.Some? then r
      else if rows[last].sequenceNo == sequenceNo + 1 && rows[last].role == Assistant then Some(last)
      else None
  }

  /** get_pending_assistant. */
  predicate AnyPending(rows: seq<Message>) {
    exists i :: 0 <= i < |rows| && rows[i].role == Assistant && rows[i].status == Pending
  }

  /** provider_context: completed rows up to a sequence number, in order. */
  function ProviderContext(rows: seq<Message>, through: nat): seq<Message> {
    if rows == [] then []
    else
      var last := rows[|rows| - 1];
      ProviderContext(rows[..|rows| - 1], through)
      + (if last.sequenceNo <= through && last.status == Completed then [last] else [])
  }

  // --------------------------------------------------------------- the steps

  function UserRow(rows: seq<Message>, id: Option<ClientId>, content: string): Message {
    Message(User, Completed, NextSequenceNo(rows), id, content, NoMetadata)
  }

  function AssistantRow(rows: seq<Message>, status: Status, content: string, metadata: Metadata): Message {
    Message(Assistant, status, NextSequenceNo(rows), None, content, metadata)
  }

  predicate Owned(c: Conversation, user: UserId) { c.owner == user && !c.deleted }

  /** ChatService.send_message up to its first commit. */
  function SendStep(c: Conversation, user: UserId, id: ClientId, content: string, e: ExecutorId): (Conversation, Outcome) {
    if !Owned(c, user) then (c, NotFound)
    else if FindUser(c.rows, id).Some? then (c, Replayed)
    else if AnyPending(c.rows) then (c, TurnInProgress)
    else
      var withUser := c.rows + [UserRow(c.rows, Some(id), content)];
      var rows := withUser + [AssistantRow(withUser, Pending, "", NoMetadata)];
      (c.(rows := rows,
          executors := c.executors[e := Executor(|withUser|, ProviderContext(rows, UserRow(c.rows, Some(id), content).sequenceNo))]),
       Opened(|withUser|))
  }

  /** ChatService.retry_message up to its first commit. */
  function RetryStep(c: Conversation, user: UserId, id: ClientId, e: ExecutorId): (Conversation, Outcome) {
    if !Owned(c, user) then (c, NotFound)
    else
      var asked := FindUser(c.rows, id);
      if asked.None? then (c, NotFound)
      else
        var sequenceNo := c.rows[asked.value].sequenceNo;
        var paired := FindPaired(c.rows, sequenceNo);
        if paired.None? then (c, NotFound)
        else
          var m := c.rows[paired.value];
          if m.status == Pending then (c, TurnInProgress)
          else if m.status == Completed then (c, Replayed)
          else
            var rows := c.rows[paired.value := m.(status := Pending, content := "", metadata := NoMetadata)];
            (c.(rows := rows,
                executors := c.executors[e := Executor(paired.value, ProviderContext(rows, sequenceNo))]),
             Opened(paired.value))
  }

  /** _complete_turn on success: the update is by row id, without the lock. */
  function FinishStep(c: Conversation, e: ExecutorId, content: string, metadata: Metadata): Conversation
    requires e in c.executors && c.executors[e].target < |c.rows|
  {
    var t := c.executors[e].target;
    c.(rows := if c.rows[t].role == Assistant
               then c.rows[t := c.rows[t].(status := Completed, content := content, metadata := metadata)] else c.rows,
       executors := c.executors - {e})
  }

  /** _complete_turn on a ChatProviderError. */
  function FailStep(c: Conversation, e: ExecutorId, retryable: bool): Conversation
    requires e in c.executors && c.executors[e].target < |c.rows|
  {
    var t := c.executors[e].target;
    c.(rows := if c.rows[t].role == Assistant
               then c.rows[t := c.rows[t].(status := Failed, content := "", metadata := ProviderError(retryable))] else c.rows,
       executors := c.executors - {e})
  }

  /** Any other exception, or the process dying: nothing closes the turn. */
  function CrashStep(c: Conversation, e: ExecutorId): Conversation { c.(executors := c.executors - {e}) }

  /** delete_conversation, and its undo while the window is open. */
  function DeleteStep(c: Conversation, user: UserId): Conversation {
    if Owned(c, user) then c.(deleted := true, undoable := true) else c
  }

  function UndoDeleteStep(c: Conversation, user: UserId): Conversation {
    if c.owner == user && c.deleted && c.undoable then c.(deleted := false, undoable := false) else c
  }

  /** What a ChatTurnsService turn finds out while it runs. */
  datatype TurnResult =
    | Blocked(refusal: string)
    | Direct
    | Searched(state: SearchState, started: bool, answer: string)

  /** Any turn can be blocked; otherwise direct turns are answered directly and
      search turns, the only ones that are retried, search. */
  predicate Suits(result: TurnResult, searchMode: bool) {
    match result
    case Blocked(_) => true
    case Direct => !searchMode
    case Searched(_, _, _) => searchMode
  }

  /** ChatTurnsService.submit_turn, one transaction.  NotFound: it raised and rolled back. */
  function SubmitStep(c: Conversation, user: UserId, prompt: string, searchMode: bool, retryOf: Option<MessageId>,
                      result: TurnResult, now: int): (Conversation, Outcome)
    requires Suits(result, searchMode)
  {
    if !Owned(c, user) then (c, NotFound)
    else if retryOf.Some? then
      if !searchMode || RetryTarget(c.rows, retryOf.value).None? then (c, NotFound)
      else
        var m := c.rows[retryOf.value];
        (c.(rows := c.rows[retryOf.value := m.(content := ResultContent(result), metadata := ResultMetadata(result, m.metadata.log, now))]), Answered)
    else
      var withUser := c.rows + [UserRow(c.rows, None, prompt)];
      (c.(rows := withUser + [AssistantRow(withUser, Completed, ResultContent(result), ResultMetadata(result, [], now))]), Answered)
  }

  /** _load_retry_target: an assistant row with a retryable search state, after a user row. */
  function RetryTarget(rows: seq<Message>, id: MessageId): (r: Option<MessageId>)
    ensures r.Some? ==> id < |rows| && rows[id].role == Assistant && rows[id].metadata.Search? && Retryable(rows[id].metadata.state)
  {
    if id < |rows| && rows[id].role == Assistant && rows[id].metadata.Search? && Retryable(rows[id].metadata.state)
       && exists j :: 0 <= j < |rows| && rows[j].role == User && rows[j].sequenceNo + 1 == rows[id].sequenceNo
    then Some(id) else None
  }

  const PLACEHOLDER: string := "Lượt trò chuyện bình thường chưa được triển khai trong nhánh hiện tại."

  function ResultContent(result: TurnResult): string {
    match result
    case Blocked(refusal) => refusal
    case Direct => PLACEHOLDER
    case Searched(_, _, answer) => answer
  }

  function ResultMetadata(result: TurnResult, previous: seq<LogEvent>, now: int): Metadata {
    match result
    case Blocked(_) => Guardrail
    case Direct => NoMetadata
    case Searched(state, started, _) => Search(state, previous + AttemptEvents(Attempt(state, started, now)))
  }

  // ------------------------------------------------------ the rows, in place

  class ConversationStore {
    const owner: UserId
    var deleted: bool
    var undoable: bool
    var rows: seq<Message>
    var executors: map<ExecutorId, Executor>

    function View(): Conversation
      reads this
    {
      Conversation(owner, deleted, undoable, rows, executors)
    }

    constructor (owner: UserId)
      ensures View() == Conversation(owner, false, false, [], map[])
    {
      this.owner := owner;
      deleted, undoable, rows, executors := false, false, [], map[];
    }

    method SendMessage(user: UserId, id: ClientId, content: string, e: ExecutorId) returns (o: Outcome)
      modifies this
      ensures (View(), o) == SendStep(old(View()), user, id, content, e)
    {
      if owner != user || deleted { return NotFound; }
      if FindUser(rows, id).Some? { return Replayed; }
      if AnyPending(rows) { return TurnInProgress; }
      var next := NextSequenceNo(rows);
      rows := rows + [Message(User, Completed, next, Some(id), content, NoMetadata)];
      var target := |rows|;
      SequenceAfter(rows[..|rows| - 1], rows[|rows| - 1]);
      assert rows[..|rows| - 1] == old(rows);
      rows := rows + [Message(Assistant, Pending, next + 1, None, "", NoMetadata)];
      executors := executors[e := Executor(target, ProviderContext(rows, next))];
      return Opened(target);
    }

    method RetryMessage(user: UserId, id: ClientId, e: ExecutorId) returns (o: Outcome)
      modifies this
      ensures (View(), o) == RetryStep(old(View()), user, id, e)
    {
      if owner != user || deleted { return NotFound; }
      var asked := FindUser(rows, id);
      if asked.None? { return NotFound; }
      var paired := FindPaired(rows, rows[asked.value].sequenceNo);
      if paired.None? { return NotFound; }
      var m := rows[paired.value];
      if m.status == Pending { return TurnInProgress; }
      if m.status == Completed { return Replayed; }
      var through := rows[asked.value].sequenceNo;
      rows := rows[paired.value := m.(status := Pending, content := "", metadata := NoMetadata)];
      executors := executors[e := Executor(paired.value, ProviderContext(rows, through))];
      return Opened(paired.value);
    }

    method CompleteTurn(e: ExecutorId, content: string, metadata: Metadata)
      requires e in executors && executors[e].target < |rows|
      modifies this
      ensures View() == FinishStep(old(View()), e, content, metadata)
    {
      var t := executors[e].target;
      if rows[t].role == Assistant {
        rows := rows[t := rows[t].(status := Completed, content := content, metadata := metadata)];
      }
      executors := executors - {e};
    }

    method FailTurn(e: ExecutorId, retryable: bool)
      requires e in executors && executors[e].target < |rows|
      modifies this
      ensures View() == FailStep(old(View()), e, retryable)
    {
      var t := executors[e].target;
      if rows[t].role == Assistant {
        rows := rows[t := rows[t].(status := Failed, content := "", metadata := ProviderError(retryable))];
      }
      executors := executors - {e};
    }

    method DeleteConversation(user: UserId) returns (found: bool)
      modifies this
      ensures View() == DeleteStep(old(View()), user) && found == Owned(old(View()), user)
    {
      if owner != user || deleted { return false; }
      deleted, undoable := true, true;
      return true;
    }

    method UndoDeleteConversation(user: UserId) returns (found: bool)
      modifies this
      ensures View() == UndoDeleteStep(old(View()), user)
      ensures found == (owner == user && old(deleted) && old(undoable))
    {
      if owner != user || !deleted || !undoable { return false; }
      deleted, undoable := false, false;
      return true;
    }

    method SubmitTurn(user: UserId, prompt: string, searchMode: bool, retryOf: Option<MessageId>,
                      result: TurnResult, now: int) returns (o: Outcome)
      requires Suits(result, searchMode)
      modifies this
      ensures (View(), o) == SubmitStep(old(View()), user, prompt, searchMode, retryOf, result, now)
    {
      if owner != user || deleted { return NotFound; }
      if retryOf.Some? {
        if !searchMode { return NotFound; }
        var target := RetryTarget(rows, retryOf.value);
        if target.None? { return NotFound; }
        var m := rows[retryOf.value];
        var metadata := TurnMetadata(result, m.metadata.log, now);
        rows := rows[retryOf.value := m.(content := ResultContent(result), metadata := metadata)];
        return Answered;
      }
      rows := rows + [UserRow(rows, None, prompt)];
      var metadata := TurnMetadata(result, [], now);
      rows := rows + [AssistantRow(rows, Completed, ResultContent(result), metadata)];
      return Answered;
    }

    method TurnMetadata(result: TurnResult, previous: seq<LogEvent>, now: int) returns (m: Metadata)
      ensures m == ResultMetadata(result, previous, now)
    {
      match result {
        case Blocked(_) => return Guardrail;
        case Direct => return NoMetadata;
        case Searched(state, started, _) =>
          var log := BuildLifecycle(previous, StatusOf(state), state, started, now);
          return Search(state, log);
      }
    }
  }

  lemma SequenceAfter(rows: seq<Message>, m: Message)
    requires m.sequenceNo == NextSequenceNo(rows)
    ensures NextSequenceNo(rows + [m]) == m.sequenceNo + 1
  {
    assert (rows + [m])[..|rows|] == rows;
  }

  // ------------------------------------------------------------------- runs

  datatype Event =
    | Send(user: UserId, id: ClientId, content: string, e: ExecutorId)
    | Retry(user: UserId, id: ClientId, e: ExecutorId)
    | Finish(e: ExecutorId, content: string, metadata: Metadata)
    | Fail(e: ExecutorId, retryable: bool)
    | Crash(e: ExecutorId)
    | Submit(user: UserId, prompt: string, searchMode: bool, retryOf: Option<MessageId>, result: TurnResult, now: int)
    | Delete(user: UserId)
    | UndoDelete(user: UserId)
    | UndoWindowCloses

  /** Executors are new objects; only one in flight can finish, fail or crash.
      An executor's search metadata carries no log. */
  predicate CanHappen(c: Conversation, ev: Event) {
    match ev
    case Send(_, _, _, e) => e !in c.executors
    case Retry(_, _, e) => e !in c.executors
    case Finish(e, _, metadata) =>
      e in c.executors && c.executors[e].target < |c.rows| && (metadata.Search? ==> metadata.log == [])
    case Fail(e, _) => e in c.executors && c.executors[e].target < |c.rows|
    case Crash(e) => e in c.executors
    case Submit(_, _, searchMode, _, result, _) => Suits(result, searchMode)
    case _ => true
  }

  function Step(c: Conversation, ev: Event): Conversation
    requires CanHappen(c, ev)
  {
    match ev
    case Send(user, id, content, e) => SendStep(c, user, id, content, e).0
    case Retry(user, id, e) => RetryStep(c, user, id, e).0
    case Finish(e, content, metadata) => FinishStep(c, e, content, metadata)
    case Fail(e, retryable) => FailStep(c, e, retryable)
    case Crash(e) => CrashStep(c, e)
    case Submit(user, prompt, mode, retryOf, result, now) => SubmitStep(c, user, prompt, mode, retryOf, result, now).0
    case Delete(user) => DeleteStep(c, user)
    case UndoDelete(user) => UndoDeleteStep(c, user)
    case UndoWindowCloses => c.(undoable := false)
  }

  predicate Possible(c: Conversation, evs: seq<Event>)
    decreases |evs|
  {
    evs == [] || (CanHappen(c, evs[0]) && Possible(Step(c, evs[0]), evs[1..]))
  }

  function Run(c: Conversation, evs: seq<Event>): Conversation
    requires Possible(c, evs)
    decreases |evs|
  {
    if evs == [] then c else Run(Step(c, evs[0]), evs[1..])
  }

  function New(owner: UserId): Conversation { Conversation(owner, false, false, [], map[]) }

  // ----------------------------------------------------------- the invariant

  /** Rows are numbered 1..2n as user/assistant pairs, and users are completed. */
  ghost predicate Paired(rows: seq<Message>) {
    && |rows| % 2 == 0
    && forall i :: 0 <= i < |rows| ==> RowOk(rows[i], i)
  }

  predicate RowOk(m: Message, i: nat) {
    && m.sequenceNo == i + 1
    && m.role == (if i % 2 == 0 then User else Assistant)
    && (m.role == User ==> m.status == Completed)
    && (m.role == Assistant ==> m.clientId.None?)
  }

  /** A client message id names at most one row. */
  ghost predicate ClientIdsUnique(rows: seq<Message>) {
    forall i, j :: 0 <= i < j < |rows| && rows[i].clientId.Some? ==> rows[i].clientId != rows[j].clientId
  }

  /** Each executor in flight works on its own pending assistant row. */
  ghost predicate ExecutorsOk(c: Conversation) {
    && (forall e :: e in c.executors ==>
          var t := c.executors[e].target;
          t < |c.rows| && c.rows[t].role == Assistant && c.rows[t].status == Pending)
    && (forall e, f :: e in c.executors && f in c.executors && e != f ==> c.executors[e].target != c.executors[f].target)
  }

  /** Recorded lifecycles are well formed; a pending or failed row records none. */
  ghost predicate LogsOk(rows: seq<Message>) {
    forall i :: 0 <= i < |rows| ==> RecordOk(rows[i])
  }

  ghost predicate RecordOk(m: Message) {
    m.metadata.Search? ==> m.status == Completed && LogOk(m.metadata.state, m.metadata.log)
  }

  ghost predicate Inv(c: Conversation) {
    Paired(c.rows) && ClientIdsUnique(c.rows) && ExecutorsOk(c) && LogsOk(c.rows)
  }

  lemma {:induction false} PairedSequence(rows: seq<Message>)
    requires forall i :: 0 <= i < |rows| ==> RowOk(rows[i], i)
    ensures NextSequenceNo(rows) == |rows| + 1
  {
    if rows != [] {
      PairedSequence(rows[..|rows| - 1]);
      assert RowOk(rows[|rows| - 1], |rows| - 1);
    }
  }

  /** Appending a completed user row and an assistant row. */
  lemma AppendPair(c: Conversation, u: Message, a: Message)
    requires Inv(c)
    requires u.role == User && u.status == Completed && u.sequenceNo == NextSequenceNo(c.rows) && u.metadata == NoMetadata
    requires u.clientId.Some? ==> forall i :: 0 <= i < |c.rows| ==> c.rows[i].clientId != u.clientId
    requires a.role == Assistant && a.clientId.None? && a.sequenceNo == u.sequenceNo + 1 && RecordOk(a)
    ensures Inv(c.(rows := c.rows + [u] + [a]))
  {
    PairedSequence(c.rows);
    var rows := c.rows + [u] + [a];
    forall i | 0 <= i < |rows| ensures RowOk(rows[i], i) && RecordOk(rows[i]) {
      if i < |c.rows| { assert rows[i] == c.rows[i] && RowOk(c.rows[i], i) && RecordOk(c.rows[i]); }
    }
  }

  /** Rewriting one assistant row in place. */
  lemma RewriteRow(c: Conversation, c': Conversation, t: MessageId, m: Message)
    requires Inv(c) && t < |c.rows| && c.rows[t].role == Assistant
    requires m.role == Assistant && m.sequenceNo == c.rows[t].sequenceNo && m.clientId == c.rows[t].clientId && RecordOk(m)
    requires c'.rows == c.rows[t := m] && ExecutorsOk(c')
    ensures Inv(c')
  {
    forall i | 0 <= i < |c'.rows| ensures RowOk(c'.rows[i], i) && RecordOk(c'.rows[i]) {
      assert RowOk(c.rows[i], i) && RecordOk(c.rows[i]);
    }
  }

  lemma SendKeepsInv(c: Conversation, user: UserId, id: ClientId, content: string, e: ExecutorId)
    requires Inv(c) && e !in c.executors
    ensures Inv(SendStep(c, user, id, content, e).0)
  {
    var (c', o) := SendStep(c, user, id, content, e);
    if o.Opened? {
      var u := UserRow(c.rows, Some(id), content);
      var a := AssistantRow(c.rows + [u], Pending, "", NoMetadata);
      SequenceAfter(c.rows, u);
      forall i | 0 <= i < |c.rows| ensures c.rows[i].clientId != u.clientId { assert RowOk(c.rows[i], i); }
      AppendPair(c, u, a);
      assert c'.rows == c.rows + [u] + [a];
    }
  }

  lemma RetryKeepsInv(c: Conversation, user: UserId, id: ClientId, e: ExecutorId)
    requires Inv(c) && e !in c.executors
    ensures Inv(RetryStep(c, user, id, e).0)
  {
    var (c', o) := RetryStep(c, user, id, e);
    if o.Opened? {
      var t := o.target;
      RewriteRow(c, c', t, c'.rows[t]);
    }
  }

  lemma CloseKeepsInv(c: Conversation, ev: Event)
    requires Inv(c) && CanHappen(c, ev) && (ev.Finish? || ev.Fail? || ev.Crash?)
    ensures Inv(Step(c, ev))
  {
    if !ev.Crash? {
      var t := c.executors[ev.e].target;
      RewriteRow(c, Step(c, ev), t, Step(c, ev).rows[t]);
    }
  }

  lemma SubmitKeepsInv(c: Conversation, user: UserId, prompt: string, mode: bool, retryOf: Option<MessageId>, result: TurnResult, now: int)
    requires Inv(c) && Suits(result, mode)
    ensures Inv(SubmitStep(c, user, prompt, mode, retryOf, result, now).0)
  {
    var (c', o) := SubmitStep(c, user, prompt, mode, retryOf, result, now);
    if o.Answered? {
      if retryOf.Some? {
        var t := retryOf.value;
        assert RecordOk(c.rows[t]);
        if result.Searched? {
          RetryKeepsLog(c.rows[t].metadata.state, c.rows[t].metadata.log, Attempt(result.state, result.started, now));
        }
        RewriteRow(c, c', t, c'.rows[t]);
      } else {
        var u := UserRow(c.rows, None, prompt);
        var a := AssistantRow(c.rows + [u], Completed, ResultContent(result), ResultMetadata(result, [], now));
        SequenceAfter(c.rows, u);
        if result.Searched? {
          FirstLog(Attempt(result.state, result.started, now));
          assert [] + AttemptEvents(Attempt(result.state, result.started, now)) == AttemptEvents(Attempt(result.state, result.started, now));
        }
        AppendPair(c, u, a);
        assert c'.rows == c.rows + [u] + [a];
      }
    }
  }

  lemma StepKeepsInv(c: Conversation, ev: Event)
    requires Inv(c) && CanHappen(c, ev)
    ensures Inv(Step(c, ev)) && |c.rows| <= |Step(c, ev).rows|
  {
    match ev {
      case Send(user, id, content, e) => SendKeepsInv(c, user, id, content, e);
      case Retry(user, id, e) => RetryKeepsInv(c, user, id, e);
      case Submit(user, prompt, mode, retryOf, result, now) => SubmitKeepsInv(c, user, prompt, mode, retryOf, result, now);
      case Delete(_) =>
      case UndoDelete(_) =>
      case UndoWindowCloses =>
      case _ => CloseKeepsInv(c, ev);
    }
  }

  // ------------------------------------------------------------ main results

  /** Under every interleaving: pairs numbered 1..2n, unique client ids, one
      executor per pending row, well-formed lifecycles. */
  lemma {:induction false} RunKeepsInv(c: Conversation, evs: seq<Event>)
    requires Inv(c) && Possible(c, evs)
    ensures Inv(Run(c, evs)) && |c.rows| <= |Run(c, evs).rows|
    decreases |evs|
  {
    if evs != [] {
      StepKeepsInv(c, evs[0]);
      RunKeepsInv(Step(c, evs[0]), evs[1..]);
    }
  }

  lemma EveryReachableConversation(owner: UserId, evs: seq<Event>)
    requires Possible(New(owner), evs)
    ensures var c := Run(New(owner), evs);
      && |c.rows| % 2 == 0
      && (forall i :: 0 <= i < |c.rows| ==> c.rows[i].sequenceNo == i + 1 && c.rows[i].role == (if i % 2 == 0 then User else Assistant))
      && (forall i, j :: 0 <= i < j < |c.rows| && c.rows[i].clientId.Some? ==> c.rows[i].clientId != c.rows[j].clientId)
      && (forall e :: e in c.executors ==> c.executors[e].target < |c.rows| && c.rows[c.executors[e].target].status == Pending)
      && (forall e, f :: e in c.executors && f in c.executors && e != f ==> c.executors[e].target != c.executors[f].target)
  {
    RunKeepsInv(New(owner), evs);
    var c := Run(New(owner), evs);
    assert forall i :: 0 <= i < |c.rows| ==> RowOk(c.rows[i], i);
  }

  /** What one step may do to one row: a completed row stays completed, and its
      content changes only in a retry of a retryable search, which extends its
      log or replaces it with a guardrail record. */
  ghost predicate RowEvolves(m: Message, m': Message) {
    && m'.role == m.role && m'.sequenceNo == m.sequenceNo && m'.clientId == m.clientId
    && (m.role == User ==> m' == m)
    && (m.status == Completed ==>
          m'.status == Completed &&
          (m' != m ==> m.metadata.Search? && Retryable(m.metadata.state) &&
                       (m'.metadata == Guardrail || (m'.metadata.Search? && m.metadata.log < m'.metadata.log))))
  }

  lemma StepEvolvesRow(c: Conversation, ev: Event, i: MessageId)
    requires Inv(c) && CanHappen(c, ev) && i < |c.rows|
    ensures i < |Step(c, ev).rows| && RowEvolves(c.rows[i], Step(c, ev).rows[i])
  {
    assert RowOk(c.rows[i], i);
    if ev.Submit? {
      SubmitEvolvesRow(c, ev, i);
    } else if ev.Finish? || ev.Fail? {
      assert c.rows[c.executors[ev.e].target].status == Pending;
    }
  }

  lemma SubmitEvolvesRow(c: Conversation, ev: Event, i: MessageId)
    requires Inv(c) && ev.Submit? && CanHappen(c, ev) && i < |c.rows|
    ensures i < |Step(c, ev).rows| && RowEvolves(c.rows[i], Step(c, ev).rows[i])
  {
    assert RowOk(c.rows[i], i) && RecordOk(c.rows[i]);
    if ev.retryOf == Some(i) && ev.result.Searched? {
      var a := Attempt(ev.result.state, ev.result.started, ev.now);
      assert |AttemptEvents(a)| > 0;
    }
  }

  /** `completed` is absorbing over any continuation, and every earlier row
      survives with its number, role and client id. */
  lemma {:induction false} CompletedIsAbsorbing(c: Conversation, evs: seq<Event>, i: MessageId)
    requires Inv(c) && Possible(c, evs) && i < |c.rows|
    ensures i < |Run(c, evs).rows|
    ensures var m, m' := c.rows[i], Run(c, evs).rows[i];
            && m'.role == m.role && m'.sequenceNo == m.sequenceNo && m'.clientId == m.clientId
            && (m.status == Completed ==> m'.status == Completed)
            && (m.status == Completed && !(m.metadata.Search? && Retryable(m.metadata.state)) ==> m' == m)
    decreases |evs|
  {
    if evs != [] {
      StepEvolvesRow(c, evs[0], i);
      StepKeepsInv(c, evs[0]);
      CompletedIsAbsorbing(Step(c, evs[0]), evs[1..], i);
    }
  }

  predicate IsRetry(ev: Event) { ev.Submit? && ev.retryOf.Some? }

  /** The old log is kept as a proper prefix, or a guardrail record replaced it. */
  predicate LogGrew(m: Message, m': Message) {
    m' == m || m'.metadata == Guardrail || (m.metadata.Search? && m'.metadata.Search? && m.metadata.log < m'.metadata.log)
  }

  /** Over any series of retries in place the list keeps its length, and every
      row's log only grows, unless the guardrail replaced it. */
  lemma {:induction false} RetriesOnlyGrowLogs(c: Conversation, evs: seq<Event>, i: MessageId)
    requires Inv(c) && Possible(c, evs) && i < |c.rows| && forall k :: 0 <= k < |evs| ==> IsRetry(evs[k])
    ensures |Run(c, evs).rows| == |c.rows|
    ensures LogGrew(c.rows[i], Run(c, evs).rows[i])
    ensures Run(c, evs).rows[i].metadata.Search? ==>
      LogOk(Run(c, evs).rows[i].metadata.state, Run(c, evs).rows[i].metadata.log)
    decreases |evs|
  {
    if evs == [] {
      assert RecordOk(c.rows[i]);
    } else {
      var next := Step(c, evs[0]);
      StepKeepsInv(c, evs[0]);
      RetryGrowsLog(c, evs[0], i);
      RetriesOnlyGrowLogs(next, evs[1..], i);
    }
  }

  lemma RetryGrowsLog(c: Conversation, ev: Event, i: MessageId)
    requires Inv(c) && CanHappen(c, ev) && IsRetry(ev) && i < |c.rows|
    ensures |Step(c, ev).rows| == |c.rows| && LogGrew(c.rows[i], Step(c, ev).rows[i])
    ensures c.rows[i].metadata == Guardrail ==> Step(c, ev).rows[i] == c.rows[i]
  {
    if ev.result.Searched? {
      var a := Attempt(ev.result.state, ev.result.started, ev.now);
      assert |AttemptEvents(a)| > 0;
    }
  }

  /** Only completing a turn closes it: a pending row with no executor stays
      pending for ever, and no later send opens a turn. */
  lemma {:induction false} OrphanBlocksSends(c: Conversation, evs: seq<Event>, i: MessageId,
                                            user: UserId, id: ClientId, content: string, e: ExecutorId)
    requires Inv(c) && Possible(c, evs) && i < |c.rows| && c.rows[i].role == Assistant && c.rows[i].status == Pending
    requires forall x :: x in c.executors ==> c.executors[x].target != i
    ensures var c' := Run(c, evs);
            && i < |c'.rows| && c'.rows[i] == c.rows[i]
            && !SendStep(c', user, id, content, e).1.Opened?
    decreases |evs|
  {
    if evs != [] {
      StepEvolvesRow(c, evs[0], i);
      StepKeepsInv(c, evs[0]);
      OrphanStays(c, evs[0], i);
      OrphanBlocksSends(Step(c, evs[0]), evs[1..], i, user, id, content, e);
    }
  }

  /** Such a row is reached by a send whose executor dies. */
  lemma OrphanIsReachable(user: UserId, id: ClientId, content: string, e: ExecutorId) returns (evs: seq<Event>)
    ensures Possible(New(user), evs)
    ensures var c := Run(New(user), evs);
      |c.rows| == 2 && c.rows[1].role == Assistant && c.rows[1].status == Pending && c.executors == map[]
  {
    var send, crash := Send(user, id, content, e), Crash(e);
    var c := Step(New(user), send);
    SendOpensExactly(New(user), user, id, content, e);
    assert c.executors.Keys == {e};
    assert Step(c, crash).executors.Keys == {};
    RunCons(c, crash, []);
    RunCons(New(user), send, [crash] + []);
    evs := [send] + ([crash] + []);
  }

  lemma RunCons(c: Conversation, ev: Event, rest: seq<Event>)
    requires CanHappen(c, ev) && Possible(Step(c, ev), rest)
    ensures Possible(c, [ev] + rest) && Run(c, [ev] + rest) == Run(Step(c, ev), rest)
  {
    assert ([ev] + rest)[0] == ev && ([ev] + rest)[1..] == rest;
  }

  /** Every pending row has an executor at work on it. */
  ghost predicate EveryPendingServed(c: Conversation) {
    forall i :: 0 <= i < |c.rows| && c.rows[i].role == Assistant && c.rows[i].status == Pending ==> Served(c, i)
  }

  ghost predicate Served(c: Conversation, i: MessageId) { exists e :: e in c.executors && c.executors[e].target == i }

  /** After some continuation a new send opens a turn. */
  ghost predicate CanSendAgain(c: Conversation) {
    exists evs, user, id, content, e :: Possible(c, evs) && SendStep(Run(c, evs), user, id, content, e).1.Opened?
  }

  /** Only the owner deletes a conversation, which keeps its turns; within the window
      the owner, and nobody else, gets it back as it was. */
  lemma DeletionUndoneExactly(c: Conversation, user: UserId, other: UserId)
    requires Owned(c, user) && !c.undoable
    ensures other != user ==> Step(c, Delete(other)) == c
    ensures var d := Step(c, Delete(user));
      && d.deleted && d.rows == c.rows && d.executors == c.executors
      && Step(d, UndoDelete(other)) == (if other == user then c else d)
      && Step(d, Delete(other)) == d
      && var late := Step(d, UndoWindowCloses);
         late.deleted && late.rows == c.rows && Step(late, UndoDelete(other)) == late
  {
  }

  /** A deletion whose window has closed is final, and no later send opens a turn. */
  lemma {:induction false} ExpiredDeletionBlocksSends(c: Conversation, evs: seq<Event>,
                                                      user: UserId, id: ClientId, content: string, e: ExecutorId)
    requires c.deleted && !c.undoable && Possible(c, evs)
    ensures Run(c, evs).deleted && !Run(c, evs).undoable
    ensures !SendStep(Run(c, evs), user, id, content, e).1.Opened?
    decreases |evs|
  {
    if evs != [] { ExpiredDeletionBlocksSends(Step(c, evs[0]), evs[1..], user, id, content, e); }
  }

  /** It takes a deletion and six seconds, with nothing pending at all. */
  lemma ExpiredDeletionIsReachable(user: UserId) returns (evs: seq<Event>)
    ensures Possible(New(user), evs)
    ensures var c := Run(New(user), evs); c.deleted && !c.undoable && EveryPendingServed(c) && !CanSendAgain(c)
  {
    var c := Step(New(user), Delete(user));
    RunCons(c, UndoWindowCloses, []);
    RunCons(New(user), Delete(user), [UndoWindowCloses] + []);
    evs := [Delete(user)] + ([UndoWindowCloses] + []);
    CanSendAgainExactly(user, evs);
  }

  /** In every reachable state a send can open a turn again exactly when every
      pending row has its executor and a deletion, if any, can still be undone. */
  lemma CanSendAgainExactly(owner: UserId, past: seq<Event>)
    requires Possible(New(owner), past)
    ensures var c := Run(New(owner), past);
      CanSendAgain(c) <==> EveryPendingServed(c) && (!c.deleted || c.undoable)
  {
    RunKeepsInv(New(owner), past);
    var c := Run(New(owner), past);
    if !EveryPendingServed(c) {
      var i :| 0 <= i < |c.rows| && c.rows[i].role == Assistant && c.rows[i].status == Pending && !Served(c, i);
      forall evs, user, id, content, e | Possible(c, evs)
        ensures !SendStep(Run(c, evs), user, id, content, e).1.Opened?
      {
        OrphanBlocksSends(c, evs, i, user, id, content, e);
      }
    } else if c.deleted && !c.undoable {
      forall evs, user, id, content, e | Possible(c, evs)
        ensures !SendStep(Run(c, evs), user, id, content, e).1.Opened?
      {
        ExpiredDeletionBlocksSends(c, evs, user, id, content, e);
      }
    } else {
      SendsAgainWhenServed(c);
    }
  }

  lemma SendsAgainWhenServed(c: Conversation)
    requires Inv(c) && EveryPendingServed(c) && (!c.deleted || c.undoable)
    ensures CanSendAgain(c)
  {
    var evs := CompleteAll(c);
    var last := Run(c, evs);
    var id := UnusedClientId(last.rows);
    SendOpensExactly(last, last.owner, id, "", 0);
    assert SendStep(Run(c, evs), last.owner, id, "", 0).1.Opened?;
  }

  /** Every executor completes, and a deletion is undone. */
  lemma {:induction false} CompleteAll(c: Conversation) returns (evs: seq<Event>)
    requires Inv(c) && EveryPendingServed(c) && (!c.deleted || c.undoable)
    ensures Possible(c, evs)
    ensures var c' := Run(c, evs); Inv(c') && !AnyPending(c'.rows) && !c'.deleted
    decreases |c.executors.Keys|
  {
    if c.executors.Keys == {} {
      var undo := UndoDelete(c.owner);
      StepKeepsInv(c, undo);
      NothingPendingUnserved(c);
      RunCons(c, undo, []);
      evs := [undo] + [];
    } else {
      var e :| e in c.executors;
      var ev := Finish(e, "", NoMetadata);
      StepKeepsInv(c, ev);
      CompletionKeepsServed(c, e);
      assert Step(c, ev).executors.Keys == c.executors.Keys - {e};
      var rest := CompleteAll(Step(c, ev));
      RunCons(c, ev, rest);
      evs := [ev] + rest;
    }
  }

  lemma NothingPendingUnserved(c: Conversation)
    requires EveryPendingServed(c) && c.executors.Keys == {}
    ensures !AnyPending(c.rows)
  {
  }

  lemma CompletionKeepsServed(c: Conversation, e: ExecutorId)
    requires Inv(c) && EveryPendingServed(c) && e in c.executors
    ensures EveryPendingServed(Step(c, Finish(e, "", NoMetadata)))
  {
    var c' := Step(c, Finish(e, "", NoMetadata));
    forall i | 0 <= i < |c'.rows| && c'.rows[i].role == Assistant && c'.rows[i].status == Pending ensures Served(c', i) {
      assert i != c.executors[e].target && c.rows[i] == c'.rows[i];
      assert Served(c, i);
      var f :| f in c.executors && c.executors[f].target == i;
      assert f in c'.executors && c'.executors[f].target == i;
    }
  }

  lemma {:induction false} UnusedClientId(rows: seq<Message>) returns (id: ClientId)
    ensures forall i :: 0 <= i < |rows| && rows[i].clientId.Some? ==> rows[i].clientId.value < id
  {
    if rows == [] {
      id := 0;
    } else {
      id := UnusedClientId(rows[..|rows| - 1]);
      var last := rows[|rows| - 1].clientId;
      if last.Some? && last.value >= id { id := last.value + 1; }
    }
  }

  lemma OrphanStays(c: Conversation, ev: Event, i: MessageId)
    requires Inv(c) && CanHappen(c, ev) && i < |c.rows| && c.rows[i].role == Assistant && c.rows[i].status == Pending
    requires forall x :: x in c.executors ==> c.executors[x].target != i
    ensures var c' := Step(c, ev);
            && i < |c'.rows| && c'.rows[i] == c.rows[i]
            && forall x :: x in c'.executors ==> c'.executors[x].target != i
  {
    assert RecordOk(c.rows[i]);
  }

  /** A send opens a turn exactly when the conversation is the caller's, the
      client id is new and no assistant row is pending; the turn then gets the
      next two numbers and all completed rows before it as context, its own
      prompt last. */
  lemma SendOpensExactly(c: Conversation, user: UserId, id: ClientId, content: string, e: ExecutorId)
    requires Inv(c)
    ensures var (c', o) := SendStep(c, user, id, content, e);
            && (o.Opened? <==> Owned(c, user) && !AnyPending(c.rows) && forall i :: 0 <= i < |c.rows| ==> c.rows[i].clientId != Some(id))
            && (!o.Opened? ==> c' == c)
            && (o.Opened? ==>
                  var n := |c.rows|;
                  && |c'.rows| == n + 2 && c'.rows[..n] == c.rows
                  && c'.rows[n] == Message(User, Completed, n + 1, Some(id), content, NoMetadata)
                  && c'.rows[n + 1] == Message(Assistant, Pending, n + 2, None, "", NoMetadata)
                  && e in c'.executors && c'.executors[e].target == n + 1
                  && var context := c'.executors[e].context;
                     context != [] && context[|context| - 1] == c'.rows[n])
  {
    var (c', o) := SendStep(c, user, id, content, e);
    forall i | 0 <= i < |c.rows| ensures c.rows[i].clientId.Some? ==> c.rows[i].role == User { assert RowOk(c.rows[i], i); }
    if o.Opened? {
      PairedSequence(c.rows);
      var u := UserRow(c.rows, Some(id), content);
      var a := AssistantRow(c.rows + [u], Pending, "", NoMetadata);
      SequenceAfter(c.rows, u);
      ContextEndsWithPrompt(c.rows, u, a);
      assert c'.rows == c.rows + [u] + [a];
    }
  }

  /** The context holds exactly the completed rows up to a number, each once, in order. */
  ghost predicate HoldsCompleted(context: seq<Message>, rows: seq<Message>, through: nat) {
    && (forall m :: m in context <==> m in rows && m.sequenceNo <= through && m.status == Completed)
    && Increasing(context, |rows|)
  }

  lemma ContextHoldsCompleted(rows: seq<Message>, through: nat)
    requires Paired(rows)
    ensures HoldsCompleted(ProviderContext(rows, through), rows, through)
  {
    forall m ensures m in ProviderContext(rows, through) <==> m in rows && m.sequenceNo <= through && m.status == Completed {
      ContextIsCompleted(rows, through, m);
    }
    ContextInOrder(rows, through);
  }

  /** The context of a turn just opened ends with its prompt. */
  lemma ContextEndsWithPrompt(rows: seq<Message>, u: Message, a: Message)
    requires u.status == Completed && a.status == Pending
    ensures var context := ProviderContext(rows + [u] + [a], u.sequenceNo);
      context != [] && context[|context| - 1] == u
  {
    var before := ProviderContext(rows, u.sequenceNo);
    assert (rows + [u])[..|rows|] == rows;
    assert ProviderContext(rows + [u], u.sequenceNo) == before + [u];
    assert (rows + [u] + [a])[..|rows| + 1] == rows + [u];
    assert ProviderContext(rows + [u] + [a], u.sequenceNo) == before + [u] + [];
  }

  /** create_conversation_with_initial_message up to its commit. */
  function CreateStep(user: UserId, id: ClientId, content: string, e: ExecutorId): Conversation {
    var first := Message(User, Completed, 1, Some(id), content, NoMetadata);
    Conversation(user, false, false, [first, Message(Assistant, Pending, 2, None, "", NoMetadata)], map[e := Executor(1, [first])])
  }

  /** Creating a conversation with a message is sending to an empty one. */
  lemma CreateIsFirstSend(user: UserId, id: ClientId, content: string, e: ExecutorId)
    ensures SendStep(New(user), user, id, content, e) == (CreateStep(user, id, content, e), Opened(1))
  {
    FirstSend(New(user), user, id, content, e);
  }

  lemma FirstSend(c: Conversation, user: UserId, id: ClientId, content: string, e: ExecutorId)
    requires c.rows == [] && c.executors == map[] && Owned(c, user) && !c.undoable
    ensures SendStep(c, user, id, content, e) == (CreateStep(user, id, content, e), Opened(1))
  {
    var first := UserRow(c.rows, Some(id), content);
    var second := AssistantRow(c.rows + [first], Pending, "", NoMetadata);
    var rows := c.rows + [first] + [second];
    SequenceAfter(c.rows, first);
    assert rows == [first, second];
    ContextOfPair(rows, first.sequenceNo);
    assert c.executors[e := Executor(1, [first])] == map[e := Executor(1, [first])];
  }

  lemma ContextOfPair(rows: seq<Message>, through: nat)
    requires |rows| == 2 && rows[0].sequenceNo <= through && rows[0].status == Completed && rows[1].status == Pending
    ensures ProviderContext(rows, through) == [rows[0]]
  {
    var front := rows[..1];
    assert front[..0] == [] && front[0] == rows[0];
    assert ProviderContext(front[..0], through) == [];
    assert ProviderContext(front, through) == [] + [rows[0]] == [rows[0]];
    assert ProviderContext(rows, through) == [rows[0]] + [] == [rows[0]];
  }

  /** The context handed to an executor holds exactly the completed rows up to
      its prompt. */
  lemma {:induction false} ContextIsCompleted(rows: seq<Message>, through: nat, m: Message)
    ensures m in ProviderContext(rows, through) <==> m in rows && m.sequenceNo <= through && m.status == Completed
  {
    if rows != [] {
      ContextIsCompleted(rows[..|rows| - 1], through, m);
      assert rows == rows[..|rows| - 1] + [rows[|rows| - 1]];
    }
  }

  /** Strictly increasing numbers up to n. */
  ghost predicate Increasing(ms: seq<Message>, n: int) {
    && (forall i :: 0 <= i < |ms| ==> ms[i].sequenceNo <= n)
    && (forall i, j :: 0 <= i < j < |ms| ==> ms[i].sequenceNo < ms[j].sequenceNo)
  }

  /** In a conversation with numbered rows the context is in strictly increasing
      order, so each completed row is in it once. */
  lemma {:induction false} ContextInOrder(rows: seq<Message>, through: nat)
    requires forall i :: 0 <= i < |rows| ==> RowOk(rows[i], i)
    ensures Increasing(ProviderContext(rows, through), |rows|)
  {
    if rows != [] {
      var front, last := ProviderContext(rows[..|rows| - 1], through), rows[|rows| - 1];
      ContextInOrder(rows[..|rows| - 1], through);
      assert RowOk(last, |rows| - 1);
      if last.sequenceNo <= through && last.status == Completed {
        assert ProviderContext(rows, through) == front + [last];
      } else {
        assert ProviderContext(rows, through) == front + [] == front;
      }
    }
  }

  /** A failed turn is retried in its own place: the row keeps its id and number,
      and no other row changes. */
  lemma RetryReopensOwnPair(c: Conversation, user: UserId, i: MessageId, id: ClientId, e: ExecutorId)
    requires Inv(c) && Owned(c, user) && i < |c.rows| && c.rows[i].clientId == Some(id)
    ensures i + 1 < |c.rows| && c.rows[i + 1].role == Assistant
    ensures var (c', o) := RetryStep(c, user, id, e);
            match c.rows[i + 1].status
            case Pending => (c', o) == (c, TurnInProgress)
            case Completed => (c', o) == (c, Replayed)
            case Failed => o == Opened(i + 1) && c'.rows[i + 1] == Message(Assistant, Pending, i + 2, None, "", NoMetadata) &&
                           (forall j :: 0 <= j < |c.rows| && j != i + 1 ==> c'.rows[j] == c.rows[j]) &&
                           |c'.rows| == |c.rows| && e in c'.executors && c'.executors[e].target == i + 1
  {
    assert RowOk(c.rows[i], i) && i % 2 == 0;
    assert RowOk(c.rows[i + 1], i + 1);
    var asked := FindUser(c.rows, id);
    assert asked == Some(i);
    var paired := FindPaired(c.rows, c.rows[i].sequenceNo);
    assert paired.Some?;
    assert RowOk(c.rows[paired.value], paired.value);
  }

  /** Whoever opens a turn, its executor is told exactly the completed rows up to
      the prompt, which stands right before the row it will close. */
  lemma OpenedContextExactly(c: Conversation, ev: Event)
    requires Inv(c) && CanHappen(c, ev) && (ev.Send? || ev.Retry?)
    ensures var (c', o) := OpenStep(c, ev);
      o.Opened? ==> ev.e in c'.executors && c'.executors[ev.e].target == o.target
                    && HoldsCompleted(c'.executors[ev.e].context, c'.rows, o.target)
  {
    var (c', o) := OpenStep(c, ev);
    StepKeepsInv(c, ev);
    if o.Opened? {
      ContextHoldsCompleted(c'.rows, o.target);
      if ev.Send? { SendContext(c, ev); } else { RetryContext(c, ev); }
    }
  }

  function OpenStep(c: Conversation, ev: Event): (Conversation, Outcome)
    requires ev.Send? || ev.Retry?
  {
    if ev.Send? then SendStep(c, ev.user, ev.id, ev.content, ev.e) else RetryStep(c, ev.user, ev.id, ev.e)
  }

  lemma SendContext(c: Conversation, ev: Event)
    requires Inv(c) && ev.Send? && OpenStep(c, ev).1.Opened?
    ensures var (c', o) := OpenStep(c, ev);
      ev.e in c'.executors && c'.executors[ev.e] == Executor(o.target, ProviderContext(c'.rows, o.target))
  {
    PairedSequence(c.rows);
  }

  lemma RetryContext(c: Conversation, ev: Event)
    requires Inv(c) && ev.Retry? && OpenStep(c, ev).1.Opened?
    ensures var (c', o) := OpenStep(c, ev);
      ev.e in c'.executors && c'.executors[ev.e] == Executor(o.target, ProviderContext(c'.rows, o.target))
  {
    var (c', o) := OpenStep(c, ev);
    assert RowOk(c.rows[o.target], o.target);
  }

  /** And nothing else is retried: only the owner's own turns, by their client id. */
  lemma OthersCannotRetry(c: Conversation, user: UserId, id: ClientId, e: ExecutorId)
    requires Inv(c)
    requires !Owned(c, user) || forall i :: 0 <= i < |c.rows| ==> c.rows[i].clientId != Some(id)
    ensures RetryStep(c, user, id, e) == (c, NotFound)
  {
  }

  // ------------------------------------------------------- how a turn closes

  /** Closing a turn writes its own row and no other: completed, with what the
      executor brought, or failed and empty.  The executor is gone. */
  lemma CloseExactly(c: Conversation, ev: Event)
    requires Inv(c) && CanHappen(c, ev) && (ev.Finish? || ev.Fail?)
    ensures var c', t := Step(c, ev), c.executors[ev.e].target;
      && |c'.rows| == |c.rows| && (forall j :: 0 <= j < |c.rows| && j != t ==> c'.rows[j] == c.rows[j])
      && c'.rows[t] == (if ev.Finish? then Message(Assistant, Completed, t + 1, None, ev.content, ev.metadata)
                        else Message(Assistant, Failed, t + 1, None, "", ProviderError(ev.retryable)))
      && c'.executors == c.executors - {ev.e} && c'.owner == c.owner && c'.deleted == c.deleted && c'.undoable == c.undoable
  {
    var t := c.executors[ev.e].target;
    assert RowOk(c.rows[t], t);
  }

  /** The event ends executor e. */
  predicate Ends(ev: Event, e: ExecutorId) { (ev.Finish? || ev.Fail? || ev.Crash?) && ev.e == e }

  /** Until it ends an executor keeps its row and the context it was given. */
  lemma {:induction false} ExecutorKeepsTurn(c: Conversation, evs: seq<Event>, e: ExecutorId)
    requires Possible(c, evs) && e in c.executors && forall k :: 0 <= k < |evs| ==> !Ends(evs[k], e)
    ensures e in Run(c, evs).executors && Run(c, evs).executors[e] == c.executors[e]
    decreases |evs|
  {
    if evs != [] { ExecutorKeepsTurn(Step(c, evs[0]), evs[1..], e); }
  }

  /** What an executor brings is what later turns are told: whatever happens while
      it works and after it finished, every turn that a send opens later has the
      answer, unchanged and in its place, in its context.  A search that may be
      retried is the one exception. */
  lemma AnswerReachesLaterTurns(c: Conversation, before: seq<Event>, e: ExecutorId, content: string, metadata: Metadata,
                                after: seq<Event>, user: UserId, id: ClientId, prompt: string, f: ExecutorId)
    requires Inv(c) && e in c.executors && Possible(c, before) && forall k :: 0 <= k < |before| ==> !Ends(before[k], e)
    requires !metadata.Search? || (metadata.log == [] && !Retryable(metadata.state))
    requires CanHappen(Run(c, before), Finish(e, content, metadata))
    requires Possible(Step(Run(c, before), Finish(e, content, metadata)), after)
    requires CanHappen(Run(Step(Run(c, before), Finish(e, content, metadata)), after), Send(user, id, prompt, f))
    requires SendStep(Run(Step(Run(c, before), Finish(e, content, metadata)), after), user, id, prompt, f).1.Opened?
    ensures var t := c.executors[e].target;
      var last := SendStep(Run(Step(Run(c, before), Finish(e, content, metadata)), after), user, id, prompt, f).0;
      && t < |last.rows| && last.rows[t] == Message(Assistant, Completed, t + 1, None, content, metadata)
      && last.rows[t] in last.executors[f].context
  {
    var c1, finish, t := Run(c, before), Finish(e, content, metadata), c.executors[e].target;
    RunKeepsInv(c, before);
    ExecutorKeepsTurn(c, before, e);
    var c2 := Step(c1, finish);
    StepKeepsInv(c1, finish);
    CloseExactly(c1, finish);
    CompletedIsAbsorbing(c2, after, t);
    RunKeepsInv(c2, after);
    var c3 := Run(c2, after);
    SendOpensExactly(c3, user, id, prompt, f);
    OpenedContextExactly(c3, Send(user, id, prompt, f));
    var last := SendStep(c3, user, id, prompt, f).0;
    assert last.rows[..|c3.rows|][t] == c3.rows[t];
  }

  // --------------------------------------------- turns in one transaction

  /** What a result becomes: the refusal, the placeholder, or the search's answer
      and state with one more attempt in the log. */
  ghost predicate Records(m: Message, result: TurnResult, previous: seq<LogEvent>, now: int) {
    match result
    case Blocked(refusal) => m.content == refusal && m.metadata == Guardrail
    case Direct => m.content == PLACEHOLDER && m.metadata == NoMetadata
    case Searched(state, started, answer) =>
      && m.content == answer && m.metadata.Search? && m.metadata.state == state
      && Parse(previous).Some? && Parse(m.metadata.log) == Some(Parse(previous).value + [Attempt(state, started, now)])
  }

  /** A turn is answered exactly when the caller owns the conversation and it is
      new, or a search that retries a retryable one; otherwise nothing changes. */
  lemma SubmitAnswersExactly(c: Conversation, user: UserId, prompt: string, mode: bool, retryOf: Option<MessageId>, result: TurnResult, now: int)
    requires Inv(c) && Suits(result, mode)
    ensures var c', o := Step(c, Submit(user, prompt, mode, retryOf, result, now)), SubmitStep(c, user, prompt, mode, retryOf, result, now).1;
      && (o == Answered <==> Owned(c, user) && (retryOf.None? || (mode && CanRetry(c.rows, retryOf.value))))
      && (o != Answered ==> (c', o) == (c, NotFound))
  {
    if retryOf.Some? && CanRetry(c.rows, retryOf.value) {
      var i := retryOf.value;
      assert RowOk(c.rows[i], i) && RowOk(c.rows[i - 1], i - 1);
    }
  }

  predicate CanRetry(rows: seq<Message>, i: MessageId) {
    i < |rows| && rows[i].role == Assistant && rows[i].metadata.Search? && Retryable(rows[i].metadata.state)
  }

  /** A new turn adds its pair, the prompt as it was asked and the result; a retry
      rewrites the one answer it retries. */
  lemma SubmitRecordsExactly(c: Conversation, user: UserId, prompt: string, mode: bool, retryOf: Option<MessageId>, result: TurnResult, now: int)
    requires Inv(c) && Suits(result, mode) && SubmitStep(c, user, prompt, mode, retryOf, result, now).1 == Answered
    ensures var c', n := Step(c, Submit(user, prompt, mode, retryOf, result, now)), |c.rows|;
      && c'.executors == c.executors && c'.owner == c.owner && c'.deleted == c.deleted && c'.undoable == c.undoable
      && (retryOf.None? ==>
            && |c'.rows| == n + 2 && c'.rows[..n] == c.rows
            && c'.rows[n] == Message(User, Completed, n + 1, None, prompt, NoMetadata)
            && c'.rows[n + 1] == Message(Assistant, Completed, n + 2, None, c'.rows[n + 1].content, c'.rows[n + 1].metadata)
            && Records(c'.rows[n + 1], result, [], now))
      && (retryOf.Some? ==>
            var i := retryOf.value;
            && |c'.rows| == n && i < n && (forall j :: 0 <= j < n && j != i ==> c'.rows[j] == c.rows[j])
            && c'.rows[i] == c.rows[i].(content := c'.rows[i].content, metadata := c'.rows[i].metadata)
            && Records(c'.rows[i], result, c.rows[i].metadata.log, now))
  {
    var c', n := SubmitStep(c, user, prompt, mode, retryOf, result, now).0, |c.rows|;
    if retryOf.Some? {
      assert RecordOk(c.rows[retryOf.value]);
      if result.Searched? { ParseAppend(c.rows[retryOf.value].metadata.log, Attempt(result.state, result.started, now)); }
    } else {
      PairedSequence(c.rows);
      SequenceAfter(c.rows, UserRow(c.rows, None, prompt));
      assert c'.rows[..n] == c.rows;
      if result.Searched? { ParseAppend([], Attempt(result.state, result.started, now)); }
    }
  }

  // ------------------------------------------- one pending turn at a time

  ghost predicate AtMostOnePending(rows: seq<Message>) {
    forall i, j :: 0 <= i < j < |rows| && rows[i].status == Pending ==> rows[j].status != Pending
  }

  /** A retry that opens a turn while another row is pending. */
  predicate OpensBeside(c: Conversation, ev: Event) {
    ev.Retry? && RetryStep(c, ev.user, ev.id, ev.e).1.Opened? && AnyPending(c.rows)
  }

  /** At most one row is pending in every state of the run. */
  ghost predicate OnePendingThroughout(c: Conversation, evs: seq<Event>)
    requires Possible(c, evs)
    decreases |evs|
  {
    AtMostOnePending(c.rows) && (evs == [] || OnePendingThroughout(Step(c, evs[0]), evs[1..]))
  }

  predicate NeverOpensBeside(c: Conversation, evs: seq<Event>)
    requires Possible(c, evs)
    decreases |evs|
  {
    evs == [] || (!OpensBeside(c, evs[0]) && NeverOpensBeside(Step(c, evs[0]), evs[1..]))
  }

  lemma SendKeepsOnePending(c: Conversation, ev: Event)
    requires Inv(c) && CanHappen(c, ev) && ev.Send? && AtMostOnePending(c.rows)
    ensures AtMostOnePending(Step(c, ev).rows)
  {
    SendOpensExactly(c, ev.user, ev.id, ev.content, ev.e);
    var (c', o) := SendStep(c, ev.user, ev.id, ev.content, ev.e);
    if o.Opened? {
      var n := |c.rows|;
      assert forall i :: 0 <= i < n ==> c'.rows[i] == c.rows[i] && RowOk(c.rows[i], i) && c.rows[i].status != Pending;
    }
  }

  lemma RetryKeepsOnePendingExactly(c: Conversation, ev: Event)
    requires Inv(c) && CanHappen(c, ev) && ev.Retry? && AtMostOnePending(c.rows)
    ensures AtMostOnePending(Step(c, ev).rows) <==> !OpensBeside(c, ev)
  {
    var (c', o) := RetryStep(c, ev.user, ev.id, ev.e);
    if o.Opened? {
      var t := o.target;
      assert c'.rows[t].status == Pending && c.rows[t].status != Pending;
      assert forall i :: 0 <= i < |c.rows| && i != t ==> c'.rows[i] == c.rows[i];
      assert forall i :: 0 <= i < |c.rows| ==> RowOk(c.rows[i], i);
      if AnyPending(c.rows) {
        var k :| 0 <= k < |c.rows| && c.rows[k].role == Assistant && c.rows[k].status == Pending;
        assert c'.rows[k].status == Pending && k != t;
      }
    }
  }

  lemma SubmitKeepsOnePending(c: Conversation, ev: Event)
    requires Inv(c) && CanHappen(c, ev) && ev.Submit? && AtMostOnePending(c.rows)
    ensures AtMostOnePending(Step(c, ev).rows)
  {
    var c' := Step(c, ev);
    assert forall i :: 0 <= i < |c.rows| ==> c'.rows[i].status == c.rows[i].status;
    assert forall i :: |c.rows| <= i < |c'.rows| ==> c'.rows[i].status == Completed;
  }

  lemma StepKeepsOnePendingExactly(c: Conversation, ev: Event)
    requires Inv(c) && CanHappen(c, ev) && AtMostOnePending(c.rows)
    ensures AtMostOnePending(Step(c, ev).rows) <==> !OpensBeside(c, ev)
  {
    match ev {
      case Send(_, _, _, _) => SendKeepsOnePending(c, ev);
      case Retry(_, _, _) => RetryKeepsOnePendingExactly(c, ev);
      case Submit(_, _, _, _, _, _) => SubmitKeepsOnePending(c, ev);
      case _ =>
    }
  }

  lemma {:induction false} OnePendingFrom(c: Conversation, evs: seq<Event>)
    requires Inv(c) && AtMostOnePending(c.rows) && Possible(c, evs)
    ensures OnePendingThroughout(c, evs) <==> NeverOpensBeside(c, evs)
    decreases |evs|
  {
    if evs != [] {
      StepKeepsInv(c, evs[0]);
      StepKeepsOnePendingExactly(c, evs[0]);
      if AtMostOnePending(Step(c, evs[0]).rows) { OnePendingFrom(Step(c, evs[0]), evs[1..]); }
    }
  }

  /** Over any run of a conversation at most one row is ever pending exactly when
      no retry opened a turn while another row was pending. */
  lemma OnePendingExactly(owner: UserId, evs: seq<Event>)
    requires Possible(New(owner), evs)
    ensures OnePendingThroughout(New(owner), evs) <==> NeverOpensBeside(New(owner), evs)
  {
    OnePendingFrom(New(owner), evs);
  }

  /** A turn that was sent and failed: the conversation grows by one failed pair. */
  lemma SendThenFail(c: Conversation, user: UserId, id: ClientId, content: string, e: ExecutorId)
    requires Inv(c) && Owned(c, user) && !AnyPending(c.rows) && c.executors == map[]
    requires forall i :: 0 <= i < |c.rows| ==> c.rows[i].clientId != Some(id)
    ensures CanHappen(c, Send(user, id, content, e))
    ensures var c1 := Step(c, Send(user, id, content, e));
      && CanHappen(c1, Fail(e, true))
      && var c2 := Step(c1, Fail(e, true));
         && Inv(c2) && c2.owner == c.owner && c2.deleted == c.deleted && c2.executors == map[]
         && c2.rows == c.rows + [Message(User, Completed, |c.rows| + 1, Some(id), content, NoMetadata),
                                 Message(Assistant, Failed, |c.rows| + 2, None, "", ProviderError(true))]
  {
    SendOpensExactly(c, user, id, content, e);
    var c1 := Step(c, Send(user, id, content, e));
    StepKeepsInv(c, Send(user, id, content, e));
    assert c1.executors.Keys == {e};
    var c2 := Step(c1, Fail(e, true));
    StepKeepsInv(c1, Fail(e, true));
    assert c2.executors.Keys == {};
    assert c1.rows == c.rows + [c1.rows[|c.rows|], c1.rows[|c.rows| + 1]];
  }

  /** Two failed turns with ids i and j. */
  ghost predicate TwoFailed(c: Conversation, user: UserId, i: ClientId, j: ClientId) {
    && Inv(c) && Owned(c, user) && c.executors == map[] && |c.rows| == 4
    && c.rows[0].clientId == Some(i) && c.rows[1].status == Failed
    && c.rows[2].clientId == Some(j) && c.rows[3].status == Failed
  }

  lemma SentAndFailed(c: Conversation, user: UserId, id: ClientId, content: string, e: ExecutorId) returns (evs: seq<Event>)
    requires Inv(c) && Owned(c, user) && !AnyPending(c.rows) && c.executors == map[]
    requires forall i :: 0 <= i < |c.rows| ==> c.rows[i].clientId != Some(id)
    ensures Possible(c, evs)
    ensures var c2 := Run(c, evs);
      && Inv(c2) && c2.owner == c.owner && c2.deleted == c.deleted && c2.executors == map[]
      && c2.rows == c.rows + [Message(User, Completed, |c.rows| + 1, Some(id), content, NoMetadata),
                              Message(Assistant, Failed, |c.rows| + 2, None, "", ProviderError(true))]
  {
    var send, fail := Send(user, id, content, e), Fail(e, true);
    SendThenFail(c, user, id, content, e);
    RunCons(Step(c, send), fail, []);
    RunCons(c, send, [fail] + []);
    evs := [send] + ([fail] + []);
  }

  lemma TwoFailedTurns(user: UserId, i: ClientId, j: ClientId, content: string, e: ExecutorId) returns (evs: seq<Event>)
    requires i != j
    ensures Possible(New(user), evs) && TwoFailed(Run(New(user), evs), user, i, j)
  {
    var one := SentAndFailed(New(user), user, i, content, e);
    var two := SentAndFailed(Run(New(user), one), user, j, content, e);
    RunAppend(New(user), one, two);
    evs := one + two;
  }

  /** And a run in which a retry does: two sent turns fail and are retried together. */
  lemma TwoRetriesCanBePending(user: UserId, i: ClientId, j: ClientId, content: string) returns (evs: seq<Event>)
    requires i != j
    ensures Possible(New(user), evs)
    ensures var c := Run(New(user), evs);
      |c.rows| == 4 && c.rows[1].status == Pending && c.rows[3].status == Pending
    ensures !NeverOpensBeside(New(user), evs)
  {
    var failed := TwoFailedTurns(user, i, j, content, 0);
    var retries := BothRetried(Run(New(user), failed), user, i, j);
    RunAppend(New(user), failed, retries);
    evs := failed + retries;
    OnePendingExactly(user, evs);
    if OnePendingThroughout(New(user), evs) { LastOfOnePending(New(user), evs); }
  }

  lemma BothRetried(c: Conversation, user: UserId, i: ClientId, j: ClientId) returns (retries: seq<Event>)
    requires TwoFailed(c, user, i, j)
    ensures Possible(c, retries)
    ensures var c' := Run(c, retries); |c'.rows| == 4 && c'.rows[1].status == Pending && c'.rows[3].status == Pending
  {
    var first, second := Retry(user, i, 2), Retry(user, j, 3);
    RetryReopensOwnPair(c, user, 0, i, 2);
    var c1 := Step(c, first);
    StepKeepsInv(c, first);
    RetryReopensOwnPair(c1, user, 2, j, 3);
    RunCons(c1, second, []);
    RunCons(c, first, [second] + []);
    retries := [first] + ([second] + []);
  }

  lemma {:induction false} RunAppend(c: Conversation, a: seq<Event>, b: seq<Event>)
    requires Possible(c, a) && Possible(Run(c, a), b)
    ensures Possible(c, a + b) && Run(c, a + b) == Run(Run(c, a), b)
    decreases |a|
  {
    if a == [] {
      assert a + b == b;
    } else {
      RunAppend(Step(c, a[0]), a[1..], b);
      RunCons(c, a[0], a[1..] + b);
      assert a + b == [a[0]] + (a[1..] + b);
    }
  }

  lemma {:induction false} LastOfOnePending(c: Conversation, evs: seq<Event>)
    requires Possible(c, evs) && OnePendingThroughout(c, evs)
    ensures AtMostOnePending(Run(c, evs).rows)
    decreases |evs|
  {
    if evs != [] { LastOfOnePending(Step(c, evs[0]), evs[1..]); }
  }
}
