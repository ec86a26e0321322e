/** Host and agent joined by two byte streams that keep their order. `calls` is
    everything the host ever wrote and `heard` how far the agent has read;
    `log` is everything the agent ever wrote and `taken` how far the host has
    read. A stream that breaks is one whose reader stops. */
module Protocol {
  import opened Json
  import opened Outcome
  import opened Wrappers
  import opened Wire
  import opened HostState
  import opened AgentState

  datatype Issue = Asked(verb: string, apply: bool) | Cancelling(target: Id)

  datatype System = System(
    host: Host, agent: Agent,
    calls: seq<Call>, heard: nat,
    log: seq<Message>, taken: nat,
    issued: map<Id, Issue>,      // every id ever used
    cancelOf: map<Id, Id>,       // the cancel request sent for a request
    askedAt: map<Id, nat>,       // where an id stands in calls
    sentAt: map<Id, nat>,        // where an id stands in log
    cancelLost: bool)            // a cancel request could not be written

  const Initial := System(InitialHost, InitialAgent, [], 0, [], 0, map[], map[], map[], map[], false)

  datatype Event =
    // host
    | Ask(id: Id, verb: string, apply: bool, signal: bool)
    | AskThrows(id: Id, verb: string, apply: bool, code: string)
    | AskAlreadyAborted(id: Id, verb: string, apply: bool)
    | DeadlinePasses(id: Id, cancelId: Id, throws: bool)
    | SignalAborts(id: Id, cancelId: Id, throws: bool)
    | CallWritten(id: Id, error: Option<string>)
    | CancelCallWritten(id: Id, failed: bool)
    | StdinFails(code: string)
    | CloseTransport
    | TakeMessage
    // agent
    | HearCall
    | BeginCommit(id: Id)
    | CompleteCommit(id: Id, body: Json, retained: bool)
    | HandlerReturns(id: Id, body: Json)
    | HandlerThrows(id: Id, code: string)
    | CustodyFinalized(id: Id, quiesced: bool)
    | PlainHandlerEnds(id: Id, body: Json, error: Option<string>)
    | CancelResumes(id: Id, terminated: bool)
    | CancelAnswers(id: Id)

  predicate Fresh(s: System, id: Id) { RequestId(id) && id !in s.issued }

  predicate Handling(s: System, id: Id) { id in s.agent.scopes && s.agent.scopes[id].progress.Running? }

  predicate IsRequest(h: Host, id: Id) { id in h.pending && h.pending[id].RequestEntry? }

  /** Which events can happen. Ids are fresh UUIDs; a handler that has entered
      its commit returns only by completing it. */
  predicate Enabled(s: System, e: Event) {
    match e
    case Ask(id, _, _, _) => Fresh(s, id) && !s.host.closed
    case AskThrows(id, _, _, _) => Fresh(s, id) && !s.host.closed
    case AskAlreadyAborted(id, _, _) => Fresh(s, id) && !s.host.closed
    case DeadlinePasses(id, c, _) => IsRequest(s.host, id) && s.host.pending[id].timerArmed && Fresh(s, c)
    case SignalAborts(id, c, _) => IsRequest(s.host, id) && s.host.pending[id].listening && Fresh(s, c)
    case CallWritten(id, _) => id in s.issued && s.issued[id].Asked?
    case CancelCallWritten(id, _) => id in s.issued && s.issued[id].Cancelling?
    case StdinFails(_) => true
    case CloseTransport => true
    case TakeMessage => s.taken < |s.log|
    case HearCall => s.heard < |s.calls|
    case BeginCommit(id) => Handling(s, id)
    case CompleteCommit(id, body, _) => Handling(s, id) && body.Obj?
    case HandlerReturns(id, body) => Handling(s, id) && s.agent.scopes[id].phase != Commit && body.Obj?
    case HandlerThrows(id, _) => Handling(s, id)
    case CustodyFinalized(id, _) =>
      id in s.agent.scopes && (s.agent.scopes[id].progress.Returned? || s.agent.scopes[id].progress.Threw?)
    case PlainHandlerEnds(id, body, _) => id in s.agent.plain && body.Obj?
    case CancelResumes(c, _) =>
      c in s.agent.jobs && s.agent.jobs[c].Waiting? && s.agent.jobs[c].target in s.agent.scopes
      && s.agent.scopes[s.agent.jobs[c].target].progress.Completed?
    case CancelAnswers(c) => c in s.agent.jobs && s.agent.jobs[c].Ready?
  }

  function Say(s: System, call: Call): System {
    s.(calls := s.calls + [call], askedAt := s.askedAt[call.id := |s.calls|])
  }

  function Send(s: System, m: Message): System {
    s.(log := s.log + [m], sentAt := s.sentAt[m.id := |s.log|])
  }

  function SendAll(s: System, ms: seq<Message>): System
    requires |ms| <= 1
  {
    if ms == [] then s else Send(s, ms[0])
  }

  /** The host has tried to cancel `id`; `host` is its state if the write was accepted. */
  function Cancelled(s: System, id: Id, c: Id, host: Host, throws: bool): System
    requires IsRequest(s.host, id)
  {
    if c !in host.pending then s.(host := host)     // a cancel request was sent before
    else
      var t := s.(issued := s.issued[c := Cancelling(id)], cancelOf := s.cancelOf[id := c]);
      if throws then t.(host := CancelWritten(host, c, id, true), cancelLost := true)
      else Say(t.(host := host), CancelRequest(c, id))
  }

  function WithScope(s: System, id: Id, scope: Scope): System {
    s.(agent := s.agent.(scopes := s.agent.scopes[id := scope]))
  }

  predicate AtHost(e: Event) {
    e.Ask? || e.AskThrows? || e.AskAlreadyAborted? || e.DeadlinePasses? || e.SignalAborts?
    || e.CallWritten? || e.CancelCallWritten? || e.StdinFails? || e.CloseTransport? || e.TakeMessage?
  }

  function Step(s: System, e: Event): System
    requires Enabled(s, e)
  {
    if AtHost(e) then HostStep(s, e)
    else if InHandler(e) then WithScope(s, e.id, Handled(s.agent.scopes[e.id], e))
    else AgentStep(s, e)
  }

  predicate InHandler(e: Event) {
    e.BeginCommit? || e.CompleteCommit? || e.HandlerReturns? || e.HandlerThrows?
  }

  /** What a running handler's scope becomes. */
  function Handled(c: Scope, e: Event): Scope
    requires InHandler(e)
  {
    match e
    case BeginCommit(id) => Begin(c)
    case CompleteCommit(id, body, retained) => Complete(c, id, body, retained)
    case HandlerReturns(id, body) => Return(c, body)
    case HandlerThrows(id, code) => Throw(c, id, code)
  }

  function HostStep(s: System, e: Event): System
    requires AtHost(e) && Enabled(s, e)
  {
    match e
    case Ask(id, verb, apply, signal) =>
      Say(s.(host := HostState.Ask(s.host, id, verb, signal), issued := s.issued[id := Asked(verb, apply)]),
        Request(id, verb, apply))
    case AskThrows(id, verb, apply, code) =>
      s.(host := Written(HostState.Ask(s.host, id, verb, false), id, Some(code)),
         issued := s.issued[id := Asked(verb, apply)])
    case AskAlreadyAborted(id, verb, apply) =>
      s.(host := AskAborted(s.host, id), issued := s.issued[id := Asked(verb, apply)])
    case DeadlinePasses(id, c, throws) => Cancelled(s, id, c, Deadline(s.host, id, c), throws)
    case SignalAborts(id, c, throws) => Cancelled(s, id, c, Abort(s.host, id, c), throws)
    case CallWritten(id, error) => s.(host := Written(s.host, id, error))
    case CancelCallWritten(id, failed) =>
      s.(host := CancelWritten(s.host, id, s.issued[id].target, failed), cancelLost := s.cancelLost || failed)
    case StdinFails(code) => s.(host := StdinFailed(s.host, code))
    case CloseTransport => s.(host := Close(s.host))
    case TakeMessage => s.(host := Handle(s.host, s.log[s.taken]), taken := s.taken + 1)
  }

  function AgentStep(s: System, e: Event): System
    requires !AtHost(e) && !InHandler(e) && Enabled(s, e)
  {
    match e
    case HearCall =>
      var t := s.(heard := s.heard + 1);
      (match s.calls[s.heard]
       case Request(id, verb, apply) =>
         var (a, ms) := ReceiveRequest(s.agent, id, verb, apply);
         SendAll(t.(agent := a), ms)
       case CancelRequest(id, target) => t.(agent := ReceiveCancel(s.agent, id, target)))
    case CustodyFinalized(id, quiesced) =>
      var (a, ms) := Finalize(s.agent, id, quiesced);
      SendAll(s.(agent := a), ms)
    case PlainHandlerEnds(id, body, code) =>
      var (a, m) := FinishPlain(s.agent, id, body, code);
      Send(s.(agent := a), m)
    case CancelResumes(c, terminated) => s.(agent := Resume(s.agent, c, terminated))
    case CancelAnswers(c) =>
      var (a, m) := Answer(s.agent, c);
      Send(s.(agent := a), m)
  }

  // ---------- the invariant ----------

  predicate Heard(s: System, id: Id) { id in s.askedAt && s.askedAt[id] < s.heard }
  predicate Sent(s: System, id: Id) { id in s.sentAt }
  predicate Taken(s: System, id: Id) { id in s.sentAt && s.sentAt[id] < s.taken }

  predicate PastCommit(p: Phase) { p == Commit || p == Committed || p == CommitFailed }

  ghost predicate Indexed(s: System) {
    && s.heard <= |s.calls| && s.taken <= |s.log|
    && (forall i :: 0 <= i < |s.calls| ==> s.calls[i].id in s.askedAt && s.askedAt[s.calls[i].id] == i)
    && (forall id :: id in s.askedAt ==> s.askedAt[id] < |s.calls| && s.calls[s.askedAt[id]].id == id)
    && (forall i :: 0 <= i < |s.log| ==> s.log[i].id in s.sentAt && s.sentAt[s.log[i].id] == i)
    && (forall id :: id in s.sentAt ==> s.sentAt[id] < |s.log| && s.log[s.sentAt[id]].id == id)
  }

  /** Every id has one use, and a cancel request follows the request it names. */
  ghost predicate CallOk(s: System, id: Id)
    requires id in s.askedAt && s.askedAt[id] < |s.calls|
  {
    && id in s.issued
    && match s.calls[s.askedAt[id]]
       case Request(_, verb, apply) => s.issued[id] == Asked(verb, apply)
       case CancelRequest(_, t) => s.issued[id] == Cancelling(t) && t in s.askedAt && s.askedAt[t] < s.askedAt[id]
  }

  ghost predicate IssueOk(s: System, id: Id)
    requires id in s.issued
  {
    && RequestId(id)
    && (s.issued[id].Cancelling? ==>
        var t := s.issued[id].target;
        t in s.cancelOf && s.cancelOf[t] == id && t in s.issued && s.issued[t].Asked?)
  }

  ghost predicate CancelOk(s: System, t: Id)
    requires t in s.cancelOf
  {
    s.cancelOf[t] in s.issued && s.issued[s.cancelOf[t]] == Cancelling(t)
  }

  ghost predicate IssuesOk(s: System) {
    && (forall id {:trigger CallOk(s, id)} :: id in s.askedAt && s.askedAt[id] < |s.calls| ==> CallOk(s, id))
    && (forall id {:trigger IssueOk(s, id)} :: id in s.issued ==> IssueOk(s, id))
    && (forall t {:trigger CancelOk(s, t)} :: t in s.cancelOf ==> CancelOk(s, t))
  }

  ghost predicate PhaseOk(id: Id, c: Scope) {
    && (c.phase == Execution <==> c.policy != TwoPhaseMutation)
    && (c.policy == TwoPhaseMutation ==> CommitKind(c.verb).Some?)
    && (c.phase == Committed ==>
        c.committedBody.Obj? && c.outcome.Some?
        && c.outcome.value == CommittedReceipt(id, c.verb, CommitKind(c.verb).value, c.outcome.value.retained, c.committedBody))
    && (c.phase == CommitFailed ==>
        c.outcome == Some(FailedReceipt(id, c.verb, CommitKind(c.verb).value, c.failure)))
    && (c.phase != Committed && c.phase != CommitFailed ==> c.outcome.None?)
    && match c.progress
       case Running => c.phase != CommitFailed
       case Returned(r) =>
         c.phase != Commit && c.phase != CommitFailed && r.ack.None? &&
         r == (if c.phase == Committed then ResultObject(c.committedBody, c.outcome, None)
               else ResultObject(r.body, None, None))
       case Threw(e) =>
         c.phase != Commit && (e.mutationOutcome.Some? ==> e.mutationOutcome == c.outcome)
       case Completed => c.phase != Commit
  }

  ghost predicate ScopeOk(s: System, id: Id)
    requires id in s.agent.scopes
  {
    var c := s.agent.scopes[id];
    && Heard(s, id)
    && id in s.issued && s.issued[id].Asked? && s.issued[id].verb == c.verb
    && c.policy == PolicyOf(c.verb, s.issued[id].apply) && c.policy != Unsupported
    && PhaseOk(id, c)
    && (Sent(s, id) <==> c.progress.Completed? && (!c.cancelled || c.outcome.Some?))
    && (c.cancelled ==> id in s.cancelOf && Heard(s, s.cancelOf[id]))
  }

  ghost predicate PlainOk(s: System, id: Id) {
    && Heard(s, id) && !Sent(s, id)
    && id in s.issued && s.issued[id].Asked? && PolicyOf(s.issued[id].verb, s.issued[id].apply) == Unsupported
  }

  ghost predicate HeardOk(s: System, id: Id)
    requires id in s.issued
  {
    if s.issued[id].Cancelling? then id in s.agent.jobs || Sent(s, id)
    else if PolicyOf(s.issued[id].verb, s.issued[id].apply) == Unsupported
    then id !in s.agent.scopes && (id in s.agent.plain || Sent(s, id))
    else id in s.agent.scopes
  }

  /** An answer to the cancel request for `t`. */
  ghost predicate AckOk(s: System, t: Id, p: Payload) {
    match p
    case Ok(r) =>
      && t in s.agent.scopes && s.agent.scopes[t].progress.Completed?
      && r.ack == Some(Acknowledgement(t, true, true, s.agent.scopes[t].outcome))
    case Err(e) =>
      || e.code == QuiescenceUnproven
      || t !in s.agent.scopes
      || (s.agent.scopes[t].progress.Completed? && !s.agent.scopes[t].cancelled)
  }

  ghost predicate JobOk(s: System, c: Id)
    requires c in s.agent.jobs
  {
    && Heard(s, c) && !Sent(s, c) && c in s.issued && s.issued[c].Cancelling?
    && match s.agent.jobs[c]
       case Waiting(t) => s.issued[c].target == t && t in s.agent.scopes && s.agent.scopes[t].cancelled
       case Ready(p) => AckOk(s, s.issued[c].target, p)
  }

  ghost predicate RecentOk(s: System, f: Finished) {
    && f.id in s.agent.scopes && s.agent.scopes[f.id].progress.Completed?
    && f.outcome == s.agent.scopes[f.id].outcome
  }

  ghost predicate ScopesOk(s: System) { forall id {:trigger ScopeOk(s, id)} :: id in s.agent.scopes ==> ScopeOk(s, id) }
  ghost predicate PlainsOk(s: System) { forall id {:trigger PlainOk(s, id)} :: id in s.agent.plain ==> PlainOk(s, id) }
  ghost predicate AllHeardOk(s: System) { forall id {:trigger HeardOk(s, id)} :: Heard(s, id) && id in s.issued ==> HeardOk(s, id) }
  ghost predicate JobsOk(s: System) { forall c {:trigger JobOk(s, c)} :: c in s.agent.jobs ==> JobOk(s, c) }
  ghost predicate RecentsOk(s: System) { forall f {:trigger RecentOk(s, f)} :: f in s.agent.recent ==> RecentOk(s, f) }

  /** What a message under the id of a scoped request says about its scope. */
  ghost predicate ReplyOf(c: Scope, p: Payload) {
    match p
    case Ok(r) =>
      if c.phase == Committed then r.requestOutcome == c.outcome && r.body == Transport(c.committedBody)
      else r.requestOutcome.None? && c.outcome.None?
    case Err(e) => e.mutationOutcome == c.outcome
  }

  ghost predicate CarriesNothing(p: Payload) {
    match p
    case Ok(r) => r.requestOutcome.None?
    case Err(e) => e.mutationOutcome.None?
  }

  /** A message under a request's own id. */
  ghost predicate ReplyOk(s: System, id: Id, p: Payload) {
    if id in s.agent.scopes then s.agent.scopes[id].progress.Completed? && ReplyOf(s.agent.scopes[id], p)
    else id !in s.agent.plain && CarriesNothing(p)
  }

  ghost predicate MessageOk(s: System, i: nat)
    requires i < |s.log|
  {
    var m := s.log[i];
    && Heard(s, m.id) && m.id in s.issued
    && match s.issued[m.id]
       case Asked(_, _) => ReplyOk(s, m.id, m.payload)
       case Cancelling(t) =>
         && AckOk(s, t, m.payload)
         && (m.payload.Ok? && s.agent.scopes[t].outcome.Some? ==> t in s.sentAt && s.sentAt[t] < i)
  }

  ghost predicate LogOk(s: System) {
    forall i: nat {:trigger MessageOk(s, i)} :: i < |s.log| ==> MessageOk(s, i)
  }

  ghost predicate EntryOk(s: System, id: Id)
    requires id in s.host.pending
  {
    && !Taken(s, id) && id in s.issued
    && match s.host.pending[id]
       case RequestEntry(verb, _, abortRequested, _, clientSettled, cancelId, controlError, receipt, _, _) =>
         && s.issued[id].Asked? && s.issued[id].verb == verb && id in s.askedAt
         && id !in s.host.verdicts && !clientSettled && receipt.None?
         && (cancelId.Some? <==> id in s.cancelOf)
         && (cancelId.Some? ==> cancelId.value == s.cancelOf[id])
         && (abortRequested <==> cancelId.Some?)
         && (controlError.Some? ==> cancelId.Some? && (controlError.value.AgentSaid? || controlError.value.CancelUnwritten?))
       case CancelEntry(t, _) =>
         s.issued[id] == Cancelling(t) && IsRequest(s.host, t)
  }

  /** The scope, if there ever is one, stopped short of its commit point. */
  ghost predicate NeverCommits(s: System, id: Id) {
    && (id in s.agent.scopes ==> s.agent.scopes[id].progress.Completed? && !PastCommit(s.agent.scopes[id].phase))
    && (id !in s.agent.scopes ==> Heard(s, id) || id !in s.askedAt)
  }

  ghost predicate VerdictOk(s: System, id: Id, v: Verdict) {
    match v
    case Resolved(body, receipt) =>
      if receipt.Some? then
        && id in s.agent.scopes && s.agent.scopes[id].phase == Committed && s.agent.scopes[id].progress.Completed?
        && s.agent.scopes[id].outcome == receipt && body == Transport(s.agent.scopes[id].committedBody)
        && NoUndefined(s.agent.scopes[id].committedBody)
      else NeverCommits(s, id)
    case Aborted(_, _, _) => NeverCommits(s, id)
    case AgentFailed(_, _, _, _, outcome) =>
      if id in s.agent.scopes then
        var c := s.agent.scopes[id];
        && c.progress.Completed?
        && outcome == if c.phase == CommitFailed && !PublicCode(FailureCode(c.failure)) then None else c.outcome
      else Heard(s, id) && outcome.None?
    case HostRejected(fault, _) =>
      fault == InvalidOutcome
      && id in s.agent.scopes && s.agent.scopes[id].phase == Committed && s.agent.scopes[id].progress.Completed?
      && !NoUndefined(s.agent.scopes[id].committedBody)
    case Unwritten(_) => true
    case TransportClosed => true
  }

  ghost predicate EntriesOk(s: System) { forall id {:trigger EntryOk(s, id)} :: id in s.host.pending ==> EntryOk(s, id) }

  ghost predicate SettledOk(s: System, id: Id)
    requires id in s.host.verdicts
  {
    id in s.issued && s.issued[id].Asked? && id !in s.host.pending && VerdictOk(s, id, s.host.verdicts[id])
  }

  ghost predicate VerdictsOk(s: System) { forall id {:trigger SettledOk(s, id)} :: id in s.host.verdicts ==> SettledOk(s, id) }

  ghost predicate HostFlagsOk(s: System) {
    !s.host.settledTwice && (s.host.closed ==> s.host.pending == map[])
  }

  /** A cancel request in flight keeps its record; one answered with an error
      has left that error on its target. */
  ghost predicate Tracked(s: System, id: Id)
    requires IsRequest(s.host, id)
  {
    s.host.pending[id].cancelId.Some? ==>
      var c := s.host.pending[id].cancelId.value;
      && c in s.askedAt
      && (!Taken(s, c) ==> c in s.host.pending)
      && (Taken(s, c) ==>
          s.sentAt[c] < |s.log| && s.log[s.sentAt[c]].payload.Err?
          && s.host.pending[id].controlError == Some(AgentSaid(s.log[s.sentAt[c]].payload.error.code)))
  }

  ghost predicate TrackedOk(s: System) {
    !s.cancelLost ==> forall id {:trigger Tracked(s, id)} :: IsRequest(s.host, id) ==> Tracked(s, id)
  }

  ghost predicate AgentInv(s: System) {
    Indexed(s) && IssuesOk(s) && ScopesOk(s) && PlainsOk(s) && AllHeardOk(s) && JobsOk(s) && RecentsOk(s) && LogOk(s)
  }

  ghost predicate HostInv(s: System) {
    EntriesOk(s) && VerdictsOk(s) && HostFlagsOk(s) && TrackedOk(s)
  }

  ghost predicate Inv(s: System) { AgentInv(s) && HostInv(s) }
}
