/** Every event keeps the invariant, so it holds in every run. */
module ProtocolSteps {
  import opened Json
  import opened Outcome
  import opened Wrappers
  import opened Wire
  import opened HostState
  import opened AgentState
  import opened Protocol
  import opened ProtocolFrames
  import opened ProtocolHost
  import opened ProtocolTake
  import opened ProtocolAgent

  // ---------- host events, agent's part ----------

  /** Only the host's own state changed. */
  ghost predicate HostOnly(s: System, t: System) {
    && t.agent == s.agent && t.calls == s.calls && t.heard == s.heard && t.log == s.log
    && t.issued == s.issued && t.cancelOf == s.cancelOf && t.askedAt == s.askedAt && t.sentAt == s.sentAt
    && s.taken <= t.taken <= |s.log|
  }

  lemma HostOnlyKeeps(s: System, t: System)
    requires Inv(s) && HostOnly(s, t)
    ensures AgentInv(t) && AgentSame(s, t)
  {
    IssuesWork(s, t);
    AgentInvSame(s, t);
  }

  lemma AskStep(s: System, id: Id, verb: string, apply: bool, signal: bool)
    requires Inv(s) && Fresh(s, id) && !s.host.closed
    ensures Inv(Say(s.(host := HostState.Ask(s.host, id, verb, signal), issued := s.issued[id := Asked(verb, apply)]),
      Request(id, verb, apply)))
  {
    var mid := s.(host := HostState.Ask(s.host, id, verb, signal), issued := s.issued[id := Asked(verb, apply)]);
    var t := Say(mid, Request(id, verb, apply));
    FreshNowhere(s, id);
    AskedAgent(s, t, id, verb, apply);
    AskKeepsHost(s, t, id, verb, apply, signal);
  }

  lemma AskedAgent(s: System, t: System, id: Id, verb: string, apply: bool)
    requires AgentInv(s) && Nowhere(s, id)
    requires t == Say(s.(host := t.host, issued := s.issued[id := Asked(verb, apply)]), Request(id, verb, apply))
    ensures AgentInv(t) && AgentSame(s, t)
  {
    SayIndexed(s.(host := t.host, issued := t.issued), Request(id, verb, apply));
    AskIssues(s, t, id, verb, apply);
    AgentInvSame(s, t);
  }

  lemma UnsentStep(s: System, id: Id, verb: string, apply: bool, v: Verdict)
    requires Inv(s) && Fresh(s, id) && (v.Unwritten? || v.Aborted?)
    ensures Inv(s.(host := s.host.(verdicts := s.host.verdicts[id := v]), issued := s.issued[id := Asked(verb, apply)]))
  {
    var t := s.(host := s.host.(verdicts := s.host.verdicts[id := v]), issued := s.issued[id := Asked(verb, apply)]);
    FreshNowhere(s, id);
    assert id in s.agent.scopes ==> ScopeOk(s, id);
    AskIssues(s, t, id, verb, apply);
    AgentInvSame(s, t);
    UnsentKeepsHost(s, t, id, verb, apply, v);
  }

  /** The record of a request whose cancellation was asked for. */
  ghost predicate Aborting(e: Entry, f: Entry) {
    e.RequestEntry? && f.RequestEntry? && f == e.(timerArmed := f.timerArmed, listening := f.listening,
      timeoutTriggered := f.timeoutTriggered, abortRequested := true)
  }

  lemma RepeatedCancelStep(s: System, t: System, id: Id, e: Entry)
    requires Inv(s) && IsRequest(s.host, id) && Aborting(s.host.pending[id], e) && e.cancelId.Some?
    requires t == s.(host := s.host.(pending := s.host.pending[id := e]))
    ensures Inv(t)
  {
    assert EntryOk(s, id);
    HostOnlyKeeps(s, t);
    RecordsKeepHost(s, t);
  }

  lemma FirstCancelAgent(s: System, t: System, id: Id, c: Id)
    requires AgentInv(s) && Nowhere(s, c) && id in s.issued && s.issued[id].Asked? && id in s.askedAt && id !in s.cancelOf
    requires t == Say(s.(host := t.host, issued := s.issued[c := Cancelling(id)], cancelOf := s.cancelOf[id := c]),
      CancelRequest(c, id))
    ensures AgentInv(t) && AgentSame(s, t)
  {
    CancelIssues(s, t, id, c);
    SayIndexed(s.(host := t.host, issued := t.issued, cancelOf := t.cancelOf), CancelRequest(c, id));
    AgentInvSame(s, t);
  }

  lemma FirstCancelStep(s: System, t: System, id: Id, c: Id, e: Entry)
    requires Inv(s) && IsRequest(s.host, id) && Nowhere(s, c) && Aborting(s.host.pending[id], e) && e.cancelId.None?
    requires t == Say(s.(
        host := s.host.(pending := s.host.pending[id := e.(cancelId := Some(c))][c := CancelEntry(id, true)]),
        issued := s.issued[c := Cancelling(id)], cancelOf := s.cancelOf[id := c]), CancelRequest(c, id))
    ensures Inv(t)
  {
    assert EntryOk(s, id);
    FirstCancelAgent(s, t, id, c);
    CancelKeepsHost(s, t, id, c, false);
  }

  lemma LostCancelStep(s: System, t: System, id: Id, c: Id, e: Entry)
    requires Inv(s) && IsRequest(s.host, id) && Nowhere(s, c) && Aborting(s.host.pending[id], e) && e.cancelId.None?
    requires t == s.(
        host := s.host.(pending := s.host.pending[id := e.(cancelId := Some(c), controlError := Some(CancelUnwritten))]),
        issued := s.issued[c := Cancelling(id)], cancelOf := s.cancelOf[id := c], cancelLost := true)
    ensures Inv(t)
  {
    assert EntryOk(s, id);
    CancelIssues(s, t, id, c);
    AgentInvSame(s, t);
    CancelKeepsHost(s, t, id, c, true);
  }

  /** A cancel write that throws leaves only its error. */
  lemma ThrownCancel(h: Host, id: Id, c: Id, e: Entry)
    requires id in h.pending && c !in h.pending && c != id && e.RequestEntry? && e.cancelId.None? && !h.closed
    ensures CancelWritten(SendCancel(h, id, e, c), c, id, true)
      == h.(pending := h.pending[id := e.(cancelId := Some(c), controlError := Some(CancelUnwritten))])
  {
    var p := h.pending[id := e.(cancelId := Some(c))];
    assert p[c := CancelEntry(id, true)] - {c} == p;
  }

  lemma CancelStep(s: System, t: System, id: Id, c: Id, e: Entry, throws: bool)
    requires Inv(s) && IsRequest(s.host, id) && Fresh(s, c) && Aborting(s.host.pending[id], e)
    requires t == Cancelled(s, id, c, SendCancel(s.host, id, e, c), throws)
    ensures Inv(t)
  {
    FreshNowhere(s, c);
    if e.cancelId.Some? {
      RepeatedCancelStep(s, t, id, e);
    } else if throws {
      ThrownCancel(s.host, id, c, e);
      LostCancelStep(s, t, id, c, e);
    } else {
      FirstCancelStep(s, t, id, c, e);
    }
  }

  lemma AbortStep(s: System, id: Id, c: Id, throws: bool)
    requires Inv(s) && IsRequest(s.host, id) && Fresh(s, c)
    ensures Inv(Cancelled(s, id, c, Abort(s.host, id, c), throws))
  {
    FreshNowhere(s, c);
    if !s.host.pending[id].abortRequested {
      CancelStep(s, Cancelled(s, id, c, Abort(s.host, id, c), throws), id, c,
        s.host.pending[id].(abortRequested := true, listening := false), throws);
    }
  }

  lemma WrittenStep(s: System, t: System, id: Id, error: Option<string>)
    requires Inv(s) && t == s.(host := Written(s.host, id, error))
    ensures Inv(t)
  {
    HostOnlyKeeps(s, t);
    if IsRequest(s.host, id) && error.Some? {
      WriteFailureKeepsHost(s, t, id, error.value);
    } else {
      RecordsKeepHost(s, t);
    }
  }

  lemma CancelWrittenStep(s: System, t: System, c: Id, failed: bool)
    requires Inv(s) && c in s.issued && s.issued[c].Cancelling?
    requires t == s.(host := CancelWritten(s.host, c, s.issued[c].target, failed), cancelLost := s.cancelLost || failed)
    ensures Inv(t)
  {
    HostOnlyKeeps(s, t);
    if failed {
      CancelLostKeepsHost(s, t, c, s.issued[c].target);
    } else {
      RecordsKeepHost(s, t);
    }
  }

  lemma ClosingStep(s: System, t: System, code: Option<string>)
    requires Inv(s)
    requires t == s.(host := if code.Some? then StdinFailed(s.host, code.value) else Close(s.host))
    ensures Inv(t)
  {
    HostOnlyKeeps(s, t);
    if code.Some? { StdinFailureKeepsHost(s, t, code.value); } else { CloseKeepsHost(s, t); }
  }

  lemma TakeStep(s: System, t: System)
    requires Inv(s) && Took(s, t) && t.host == Handle(s.host, s.log[s.taken])
    ensures Inv(t)
  {
    HostOnlyKeeps(s, t);
    TakeKeepsHost(s, t);
  }

  lemma HostStepKeeps(s: System, e: Event)
    requires Inv(s) && AtHost(e) && Enabled(s, e)
    ensures Inv(Step(s, e))
  {
    var t := Step(s, e);
    match e
    case Ask(id, verb, apply, signal) => AskStep(s, id, verb, apply, signal);
    case AskThrows(id, verb, apply, code) =>
      FreshNowhere(s, id);
      ThrownAsk(s, id, verb, code);
      UnsentStep(s, id, verb, apply, Unwritten(UnwrittenOutcome(id, verb, code)));
    case AskAlreadyAborted(id, verb, apply) =>
      FreshNowhere(s, id);
      UnsentStep(s, id, verb, apply, Aborted(false, true, true));
    case DeadlinePasses(id, c, throws) =>
      CancelStep(s, t, id, c,
        s.host.pending[id].(timerArmed := false, abortRequested := true, timeoutTriggered := true, listening := false),
        throws);
    case SignalAborts(id, c, throws) => AbortStep(s, id, c, throws);
    case CallWritten(id, error) => WrittenStep(s, t, id, error);
    case CancelCallWritten(id, failed) => CancelWrittenStep(s, t, id, failed);
    case StdinFails(code) => ClosingStep(s, t, Some(code));
    case CloseTransport => ClosingStep(s, t, None);
    case TakeMessage => TakeStep(s, t);
  }

  lemma ThrownAsk(s: System, id: Id, verb: string, code: string)
    requires Nowhere(s, id)
    ensures Written(HostState.Ask(s.host, id, verb, false), id, Some(code))
      == s.host.(verdicts := s.host.verdicts[id := Unwritten(UnwrittenOutcome(id, verb, code))])
  {
    assert s.host.pending[id := FreshEntry(verb, false)] - {id} == s.host.pending;
  }

  lemma HandlerStepKeeps(s: System, e: Event)
    requires Inv(s) && InHandler(e) && Enabled(s, e)
    ensures Inv(WithScope(s, e.id, Handled(s.agent.scopes[e.id], e)))
  {
    var c := s.agent.scopes[e.id];
    assert ScopeOk(s, e.id);
    HandlerKeepsPhase(c, e);
    RunningScopeKeeps(s, WithScope(s, e.id, Handled(c, e)), e.id, Handled(c, e));
  }

  lemma FinalizeStep(s: System, id: Id, quiesced: bool)
    requires Inv(s) && id in s.agent.scopes
    requires s.agent.scopes[id].progress.Returned? || s.agent.scopes[id].progress.Threw?
    ensures var (a, ms) := Finalize(s.agent, id, quiesced); |ms| <= 1 && Inv(SendAll(s.(agent := a), ms))
  {
    assert ScopeOk(s, id);
    FinalMessagesOk(s.agent.scopes[id], id, quiesced);
    var (a, ms) := Finalize(s.agent, id, quiesced);
    FinalizeKeeps(s, SendAll(s.(agent := a), ms), id, quiesced);
  }

  lemma HearStep(s: System, t: System)
    requires Inv(s) && s.heard < |s.calls| && t == Step(s, HearCall)
    ensures Inv(t)
  {
    if s.calls[s.heard].Request? {
      HearRequestSilent(s);
      HearRequestKeeps(s, t);
    } else {
      HearCancelKeeps(s, t);
    }
  }

  lemma AgentStepKeeps(s: System, e: Event)
    requires Inv(s) && !AtHost(e) && !InHandler(e) && Enabled(s, e)
    ensures Inv(Step(s, e))
  {
    var t := Step(s, e);
    match e
    case HearCall =>
      HearStep(s, t);
    case CustodyFinalized(id, quiesced) =>
      FinalizeStep(s, id, quiesced);
    case PlainHandlerEnds(id, body, error) => PlainEndKeeps(s, t, id, body, error);
    case CancelResumes(c, terminated) => ResumeKeeps(s, t, c, terminated);
    case CancelAnswers(c) => AnswerKeeps(s, t, c);
  }

  /** Every event keeps the invariant. */
  lemma StepKeeps(s: System, e: Event)
    requires Inv(s) && Enabled(s, e)
    ensures Inv(Step(s, e))
  {
    if AtHost(e) {
      HostStepKeeps(s, e);
    } else if InHandler(e) {
      HandlerStepKeeps(s, e);
    } else {
      AgentStepKeeps(s, e);
    }
  }
}
