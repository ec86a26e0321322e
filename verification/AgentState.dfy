/** The resident agent's side of the request protocol as a function of its state.
    Each function is the code that runs between two awaits. */
module AgentState {
  import opened Json
  import opened Outcome
  import opened Wrappers
  import opened Wire

  datatype Phase = Execution | Precommit | Commit | Committed | CommitFailed

  /** Where `handleLine` is with a scoped request. */
  datatype Progress =
    | Running
    | Returned(result: ResultObject)   // the handler's value, before transport
    | Threw(error: ErrorObject)
    | Completed

  datatype Scope = Scope(
    verb: string, policy: Policy, phase: Phase, cancelled: bool, quiesced: bool,
    outcome: Option<Receipt>, progress: Progress,
    committedBody: Json,    // history: the result the commit completed with
    failure: string,        // history: the error code the commit failed with
    found: bool)            // history: whether finalizing its processes reported quiescence

  /** What `rememberCompletedCancellableRequest` keeps. */
  datatype Finished = Finished(id: Id, quiesced: bool, outcome: Option<Receipt>)

  const COMPLETED_LIMIT := 256

  datatype CancelJob = Waiting(target: Id) | Ready(reply: Payload)

  /** `scopes` keeps completed scopes too: cancel jobs hold on to them. The
      registry `cancellableRequestScopes` is the part that is not completed. */
  datatype Agent = Agent(
    scopes: map<Id, Scope>, plain: set<Id>, recent: seq<Finished>, jobs: map<Id, CancelJob>)

  const InitialAgent := Agent(map[], {}, [], map[])

  predicate Active(a: Agent, id: Id) { id in a.scopes && !a.scopes[id].progress.Completed? }

  /** The first remembered completion of `id`. */
  function Recall(recent: seq<Finished>, id: Id): (r: Option<Finished>)
    ensures r.Some? ==> r.value in recent && r.value.id == id
    ensures r.None? ==> forall i :: 0 <= i < |recent| ==> recent[i].id != id
  {
    if recent == [] then None
    else if recent[0].id == id then Some(recent[0])
    else Recall(recent[1..], id)
  }

  /** `Map.set`: an entry for the same id keeps its place; the oldest goes when the limit is passed. */
  function Remember(recent: seq<Finished>, f: Finished): (r: seq<Finished>)
    ensures forall x :: x in r ==> x in recent || x == f
    ensures |recent| <= COMPLETED_LIMIT ==> |r| <= COMPLETED_LIMIT
  {
    var next := Put(recent, f);
    if |next| > COMPLETED_LIMIT then next[|next| - COMPLETED_LIMIT..] else next
  }

  function Put(recent: seq<Finished>, f: Finished): (r: seq<Finished>)
    ensures forall x :: x in r ==> x in recent || x == f
    ensures |r| <= |recent| + 1
  {
    if recent == [] then [f]
    else if recent[0].id == f.id then [f] + recent[1..]
    else [recent[0]] + Put(recent[1..], f)
  }

  function NewScope(verb: string, policy: Policy): Scope {
    Scope(verb, policy, if policy == TwoPhaseMutation then Precommit else Execution,
      false, false, None, Running, Null, "", false)
  }

  function Failure(code: ErrorCode): ErrorObject { ErrorObject(code, true, false, None) }

  /** `handleLine` on a request up to its handler's first await. */
  function ReceiveRequest(a: Agent, id: Id, verb: string, apply: bool): (Agent, seq<Message>) {
    var policy := PolicyOf(verb, apply);
    if policy == Unsupported then (a.(plain := a.plain + {id}), [])
    else if id == "" || Active(a, id) then
      (a, [Message(id, Err(ErrorObject(RequestIdInvalid, false, false, None)))])
    else (a.(scopes := a.scopes[id := NewScope(verb, policy)]), [])
  }

  /** `cancelScopedRequest` up to its first await. */
  function ReceiveCancel(a: Agent, id: Id, target: Id): Agent {
    if target == "" then a.(jobs := a.jobs[id := Ready(Err(Failure(TargetMissing)))])
    else
      var done := Recall(a.recent, target);
      if done.Some? then
        a.(jobs := a.jobs[id := Ready(
          if !done.value.quiesced
          then Err(ErrorObject(QuiescenceUnproven, true, false, done.value.outcome))
          else Ok(ResultObject(Null, None, Some(Acknowledgement(target, true, true, done.value.outcome)))))])
      else if !Active(a, target) then a.(jobs := a.jobs[id := Ready(Err(Failure(TargetUnavailable)))])
      else a.(
        scopes := a.scopes[target := a.scopes[target].(cancelled := true)],
        jobs := a.jobs[id := Waiting(target)])
  }

  /** `beginCurrentRequestCommit`; it throws when the result is the same scope. */
  function Begin(s: Scope): Scope {
    if s.policy == TwoPhaseMutation && !(s.cancelled && s.phase != Commit) && s.phase == Precommit
    then s.(phase := Commit) else s
  }

  /** `completeCurrentRequestCommit`; it throws when the result is the same scope. */
  function Complete(s: Scope, id: Id, body: Json, retained: bool): Scope {
    if s.phase == Commit && CommitKind(s.verb).Some? then
      s.(phase := Committed, committedBody := body,
         outcome := Some(CommittedReceipt(id, s.verb, CommitKind(s.verb).value, retained, body)))
    else s
  }

  /** The handler returns `body`, with the commit receipt when it has completed one. */
  function Return(s: Scope, body: Json): Scope {
    s.(progress := Returned(
      if s.phase == Committed then ResultObject(s.committedBody, s.outcome, None)
      else ResultObject(body, None, None)))
  }

  /** The handler throws an error with code `raw`; `mutationCommitFailureError`. */
  function Throw(s: Scope, id: Id, raw: string): Scope {
    if s.phase == Commit && CommitKind(s.verb).Some? then
      var receipt := FailedReceipt(id, s.verb, CommitKind(s.verb).value, raw);
      s.(phase := CommitFailed, outcome := Some(receipt), failure := raw,
         progress := Threw(ErrorObject(CommitFailedIndeterminate, true, false, Some(receipt))))
    else s.(progress := Threw(ErrorObject(HandlerCode(raw), true, false, None)))
  }

  /** A result object after JSON transport. */
  function OnWire(r: ResultObject): ResultObject { r.(body := Transport(r.body)) }

  /** The error the request ends with, if any. */
  function RequestError(s: Scope, quiesced: bool): Option<ErrorObject> {
    match s.progress
    case Threw(e) =>
      Some(e.(quiesced := quiesced, mutationOutcome := if e.mutationOutcome.Some? then e.mutationOutcome else s.outcome))
    case _ =>
      if quiesced then None else Some(ErrorObject(CompletionUnproven, true, false, s.outcome))
  }

  /** What is sent under the request's own id once custody has been finalized. */
  function FinalMessages(s: Scope, id: Id, quiesced: bool): seq<Message>
    requires s.progress.Returned? || s.progress.Threw?
  {
    var error := RequestError(s, quiesced);
    if s.cancelled then
      if error.None? && s.outcome.Some? && s.outcome.value.committed && s.progress.Returned?
      then [Message(id, Ok(OnWire(s.progress.result)))]
      else if error.Some? && s.outcome.Some? then [Message(id, Err(error.value))]
      else []
    else if error.Some? then [Message(id, Err(error.value))]
    else if s.progress.Returned? then [Message(id, Ok(OnWire(s.progress.result)))]
    else []
  }

  /** The rest of `handleLine` after `finalizeRequestProcessCustody` answered `quiesced`. */
  function Finalize(a: Agent, id: Id, quiesced: bool): (Agent, seq<Message>)
    requires id in a.scopes && (a.scopes[id].progress.Returned? || a.scopes[id].progress.Threw?)
  {
    var s := a.scopes[id];
    (a.(scopes := a.scopes[id := s.(quiesced := quiesced, found := quiesced, progress := Completed)],
        recent := Remember(a.recent, Finished(id, quiesced, s.outcome))),
     FinalMessages(s, id, quiesced))
  }

  /** A handler without a scope ends. */
  function FinishPlain(a: Agent, id: Id, body: Json, raw: Option<string>): (Agent, Message) {
    (a.(plain := a.plain - {id}),
     Message(id,
       if raw.Some? then Err(ErrorObject(HandlerCode(raw.value), true, false, None))
       else Ok(ResultObject(Transport(body), None, None))))
  }

  /** The cancel job resumes once its scope is done and its terminations have answered. */
  function Resume(a: Agent, id: Id, terminated: bool): Agent
    requires id in a.jobs && a.jobs[id].Waiting? && a.jobs[id].target in a.scopes
  {
    var target := a.jobs[id].target;
    var s := a.scopes[target].(quiesced := a.scopes[target].quiesced && terminated);
    a.(scopes := a.scopes[target := s],
       jobs := a.jobs[id := Ready(
         if !s.quiesced then Err(Failure(QuiescenceUnproven))
         else Ok(ResultObject(Null, None, Some(Acknowledgement(target, true, true, s.outcome)))))])
  }

  /** The cancel job's answer is sent. */
  function Answer(a: Agent, id: Id): (Agent, Message)
    requires id in a.jobs && a.jobs[id].Ready?
  {
    (a.(jobs := a.jobs - {id}), Message(id, a.jobs[id].reply))
  }
}
