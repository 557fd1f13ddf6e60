/** The result of a Python execution: the rule every result must satisfy
    (backend/app/schemas/python.py), and everything that builds one. */
module ExecutionResult {
  import opened Prelude
  import PolicyReview

  datatype Status = Accepted | Running | Succeeded | Failed | Denied | PolicyError | LimitReached | InfraFailure

  datatype Limit = WallTime | Cpu | Memory | PidCount | ProcessCount | FileSize | OutputSize

  datatype DeniedReason = MissingPermission | SearchRequired | PolicyDenied

  datatype InfraReason = WorkerStartFailed | WorkerUnavailable

  type Artifact = string

  /** The fields the rule reads, and those it leaves to their own bounds. */
  datatype Execution = Execution(
    status: Status,
    duration: Option<nat>,
    profile: Option<string>,
    stdout: Option<string>,
    stderr: Option<string>,
    artifacts: seq<Artifact>,
    limit: Option<Limit>,
    denial: Option<DeniedReason>,
    policyCode: Option<PolicyReview.ErrorCode>,
    infra: Option<InfraReason>,
    retryable: bool)

  datatype Violation =
    | NoProfile | NoDenialReason | DeniedDuration | DeniedOutput | StrayDenial | NoPolicyCode | StrayPolicyCode
    | NoInfraReason | StrayInfraReason | StrayRetryable | NoLimit | NoLimitDuration | StrayLimit | NoDuration
    | StrayArtifacts

  /** validate_state_specific_fields: None when nothing is raised. */
  function Validate(r: Execution): Option<Violation> {
    if r.profile.None? && !r.status.Denied? then Some(NoProfile)
    else if r.status.Denied? && r.denial.None? then Some(NoDenialReason)
    else if r.status.Denied? && r.duration.Some? then Some(DeniedDuration)
    else if r.status.Denied? && (r.stdout.Some? || r.stderr.Some?) then Some(DeniedOutput)
    else if !r.status.Denied? && r.denial.Some? then Some(StrayDenial)
    else if r.status.PolicyError? && r.policyCode.None? then Some(NoPolicyCode)
    else if !r.status.PolicyError? && r.policyCode.Some? then Some(StrayPolicyCode)
    else if r.status.InfraFailure? && r.infra.None? then Some(NoInfraReason)
    else if !r.status.InfraFailure? && r.infra.Some? then Some(StrayInfraReason)
    else if r.retryable && !r.status.InfraFailure? then Some(StrayRetryable)
    else if r.status.LimitReached? && r.limit.None? then Some(NoLimit)
    else if r.status.LimitReached? && r.duration.None? then Some(NoLimitDuration)
    else if !r.status.LimitReached? && r.limit.Some? then Some(StrayLimit)
    else if (r.status.Succeeded? || r.status.Failed?) && r.duration.None? then Some(NoDuration)
    else if (r.status.Accepted? || r.status.Running? || r.status.Failed? || r.status.Denied? || r.status.PolicyError?
             || r.status.InfraFailure?) && r.artifacts != [] then Some(StrayArtifacts)
    else None
  }

  /** The same rule as a table: each status has its own evidence and no other's. */
  predicate Valid(r: Execution) {
    && (r.denial.Some? <==> r.status.Denied?)
    && (r.policyCode.Some? <==> r.status.PolicyError?)
    && (r.infra.Some? <==> r.status.InfraFailure?)
    && (r.limit.Some? <==> r.status.LimitReached?)
    && (r.retryable ==> r.status.InfraFailure?)
    && (r.artifacts != [] ==> r.status.Succeeded? || r.status.LimitReached?)
    && (match r.status
        case Denied => r.duration.None? && r.stdout.None? && r.stderr.None?
        case Succeeded => r.profile.Some? && r.duration.Some?
        case Failed => r.profile.Some? && r.duration.Some?
        case LimitReached => r.profile.Some? && r.duration.Some?
        case _ => r.profile.Some?)
  }

  lemma ValidExactly(r: Execution)
    ensures Validate(r).None? <==> Valid(r)
  {
  }

  const EXCERPT_MAX: nat := 8192

  /** trim_text. */
  function Trim(value: Option<string>): (r: Option<string>)
    ensures r.Some? <==> value.Some?
    ensures r.Some? ==> |r.value| <= EXCERPT_MAX
    ensures value.Some? && |value.value| <= EXCERPT_MAX ==> r == value
  {
    if value.None? || |value.value| <= EXCERPT_MAX then value else Some(value.value[..EXCERPT_MAX - 3] + "...")
  }

  /** The bounds the reply is parsed with. */
  predicate WithinBounds(r: Execution) {
    && (r.stdout.Some? ==> |r.stdout.value| <= EXCERPT_MAX)
    && (r.stderr.Some? ==> |r.stderr.value| <= EXCERPT_MAX)
    && |r.artifacts| <= 4
  }

  // ------------------------------------------------------------ the producers

  /** How a run inside the container ends; a run that is cut off, or whose code
      does not parse, ends without a result. */
  datatype RunEnd =
    | Refused(code: PolicyReview.ErrorCode, message: string)
    | Completed(artifacts: seq<Artifact>)
    | OutputExceeded
    | ArtifactRefused(message: string)
    | Raised
    | NoResult

  function NonEmpty(text: string): Option<string> { if text == "" then None else Some(text) }

  /** execute_run_spec (sandbox/runtime/runner.py) through build_result. */
  function RunnerResult(end: RunEnd, profile: string, stdout: string, stderr: string, ms: nat): Option<Execution> {
    match end
    case Refused(code, message) =>
      Some(Execution(PolicyError, Some(ms), Some(profile), None, Trim(Some(message)), [], None, None, Some(code), None, false))
    case Completed(artifacts) =>
      Some(Execution(Succeeded, Some(ms), Some(profile), Trim(NonEmpty(stdout)), Trim(NonEmpty(stderr)), artifacts, None, None, None, None, false))
    case OutputExceeded =>
      Some(Execution(LimitReached, Some(ms), Some(profile), Trim(NonEmpty(stdout)), Trim(NonEmpty(stderr)), [], Some(OutputSize), None, None, None, false))
    case ArtifactRefused(message) =>
      Some(Execution(LimitReached, Some(ms), Some(profile), Trim(NonEmpty(stdout)), Trim(Some(message)), [], Some(FileSize), None, None, None, false))
    case Raised =>
      Some(Execution(Failed, Some(ms), Some(profile), Trim(NonEmpty(stdout)), Trim(NonEmpty(stderr)), [], None, None, None, None, false))
    case NoResult => None
  }

  /** _infra_failure_result (sandbox/server.py) and _infra_failure_response (backend/app/tools/python_client.py). */
  function InfraFailureResult(profile: string, reason: InfraReason, retryable: bool, stderr: Option<string>): Execution {
    Execution(InfraFailure, None, Some(profile), None, Trim(stderr), [], None, None, None, Some(reason), retryable)
  }

  /** _wall_time_limit_result (sandbox/server.py). */
  function WallTimeResult(profile: string, seconds: nat): Execution {
    Execution(LimitReached, Some(seconds * 1000), Some(profile), None, None, [], Some(WallTime), None, None, None, false)
  }

  /** build_denied_result (backend/app/agent/policy.py). */
  function DeniedResult(reason: DeniedReason): Execution {
    Execution(Denied, None, None, None, None, [], None, Some(reason), None, None, false)
  }

  /** persist_execution_response (backend/app/services/python_sessions.py): the copy is not validated again. */
  function AttachArtifacts(r: Execution, stored: seq<Artifact>, profile: string): Execution {
    if r.status.Succeeded? || r.status.LimitReached? then r.(artifacts := stored, profile := Some(profile)) else r
  }

  /** What the supervisor's own container can report. */
  ghost predicate FromRunner(r: Execution) {
    exists end: RunEnd, profile, stdout, stderr, ms :: EndBounded(end) && RunnerResult(end, profile, stdout, stderr, ms) == Some(r)
  }

  /** Artifact collection stops at the profile's limit. */
  predicate EndBounded(end: RunEnd) { end.Completed? ==> |end.artifacts| <= 4 }

  lemma RunnerResultsAreValid(r: Execution)
    requires FromRunner(r)
    ensures Valid(r) && WithinBounds(r)
    ensures !r.status.InfraFailure?
  {
  }

  lemma DeniedResultsAreValid(reason: DeniedReason)
    ensures Valid(DeniedResult(reason)) && WithinBounds(DeniedResult(reason))
  {
  }

  lemma SupervisorResultsAreValid(profile: string, reason: InfraReason, retryable: bool, stderr: Option<string>, seconds: nat)
    ensures Valid(InfraFailureResult(profile, reason, retryable, stderr)) && WithinBounds(InfraFailureResult(profile, reason, retryable, stderr))
    ensures Valid(WallTimeResult(profile, seconds)) && WithinBounds(WallTimeResult(profile, seconds))
  {
  }

  /** An excerpt shows a text: all of it if it fits, otherwise its beginning and an
      ellipsis, as long as an excerpt may be. */
  predicate Shows(excerpt: Option<string>, text: string) {
    excerpt.Some? &&
    if |text| <= EXCERPT_MAX then excerpt.value == text
    else |excerpt.value| == EXCERPT_MAX && exists k :: 0 <= k < |text| && excerpt.value == text[..k] + "..."
  }

  /** What was written to a stream is shown, and nothing if nothing was. */
  predicate ShowsStream(excerpt: Option<string>, text: string) {
    if text == "" then excerpt.None? else Shows(excerpt, text)
  }

  /** The result of a run says how it ended, and shows what it wrote. */
  ghost predicate Tells(r: Execution, end: RunEnd, stdout: string, stderr: string) {
    match end
    case Refused(code, message) =>
      r.status == PolicyError && r.policyCode == Some(code) && r.stdout.None? && Shows(r.stderr, message)
    case Completed(_) => r.status == Succeeded && ShowsStream(r.stdout, stdout) && ShowsStream(r.stderr, stderr)
    case OutputExceeded =>
      r.status == LimitReached && r.limit == Some(OutputSize) && ShowsStream(r.stdout, stdout) && ShowsStream(r.stderr, stderr)
    case ArtifactRefused(message) =>
      r.status == LimitReached && r.limit == Some(FileSize) && ShowsStream(r.stdout, stdout) && Shows(r.stderr, message)
    case Raised => r.status == Failed && ShowsStream(r.stdout, stdout) && ShowsStream(r.stderr, stderr)
    case NoResult => false
  }

  lemma TrimShows(text: string)
    ensures Shows(Trim(Some(text)), text)
    ensures ShowsStream(Trim(NonEmpty(text)), text)
  {
    if |text| > EXCERPT_MAX {
      assert Trim(Some(text)).value == text[..EXCERPT_MAX - 3] + "...";
    }
  }

  /** Every end but one without a result is told, with its artifacts. */
  lemma RunnerTells(end: RunEnd, profile: string, stdout: string, stderr: string, ms: nat)
    ensures RunnerResult(end, profile, stdout, stderr, ms).None? <==> end.NoResult?
    ensures !end.NoResult? ==>
      var r := RunnerResult(end, profile, stdout, stderr, ms).value;
      && Tells(r, end, stdout, stderr) && r.profile == Some(profile) && r.duration == Some(ms)
      && r.artifacts == if end.Completed? then end.artifacts else []
  {
    TrimShows(stdout);
    TrimShows(stderr);
    if end.Refused? || end.ArtifactRefused? { TrimShows(end.message); }
  }

  /** Attaching artifacts keeps the rule exactly because it only touches the two
      statuses that may carry them. */
  lemma AttachedIsValid(r: Execution, stored: seq<Artifact>, profile: string)
    requires Valid(r)
    ensures Valid(AttachArtifacts(r, stored, profile))
    ensures Valid(r.(artifacts := stored)) <==> stored == [] || AttachArtifacts(r, stored, profile).artifacts == stored
    ensures AttachArtifacts(r, stored, profile).(artifacts := r.artifacts, profile := r.profile) == r
  {
  }

  // -------------------------------------------------------------- translation

  /** _translate_success_payload: the rule raises on a parsed reply that breaks it. */
  function Translate(profile: string, payload: Execution, why: string): Result<Execution, Violation> {
    if !WithinBounds(payload) then Ok(InfraFailureResult(profile, WorkerUnavailable, false, Some(why)))
    else
      var result := payload.(artifacts := []);
      var violation := Validate(result);
      if violation.Some? then Err(violation.value) else Ok(result)
  }

  /** Translation of a valid reply never raises, and gives a valid result. */
  lemma TranslateNeverRaises(profile: string, payload: Execution, why: string)
    requires Valid(payload)
    ensures Translate(profile, payload, why).Ok? && Valid(Translate(profile, payload, why).value)
  {
    ValidExactly(payload.(artifacts := []));
  }
}
