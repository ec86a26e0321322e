/** What the protocol promises over whole runs. */
module ProtocolTheorems {
  import opened Json
  import opened Outcome
  import opened Wrappers
  import opened Wire
  import opened HostState
  import opened AgentState
  import opened Protocol
  import opened ProtocolFrames
  import opened ProtocolHost
  import opened ProtocolTake
  import opened ProtocolAgent
  import opened ProtocolSteps

  ghost predicate Next(s: System, t: System) {
    exists e :: Enabled(s, e) && t == Step(s, e)
  }

  /** Any interleaving of events at the two ends, from the start. */
  ghost predicate IsRun(run: seq<System>) {
    && |run| > 0 && run[0] == Initial
    && forall i :: 0 <= i < |run| - 1 ==> Next(run[i], run[i + 1])
  }

  // ---------- nothing is lost from the books ----------

  /** Every caller's promise is in the map or has been settled. */
  ghost predicate Accounted(s: System) {
    forall id :: id in s.issued && s.issued[id].Asked? ==> id in s.host.pending || id in s.host.verdicts
  }

  /** The host forgets no verdict, and what leaves the map has one. */
  ghost predicate Books(g: Host, h: Host) {
    && (forall id :: id in g.verdicts ==> id in h.verdicts && h.verdicts[id] == g.verdicts[id])
    && (forall id :: IsRequest(g, id) ==> id in h.pending || id in h.verdicts)
  }

  lemma ClearedCancel(s: System, id: Id)
    requires EntriesOk(s) && IssuesOk(s) && IsRequest(s.host, id)
    ensures forall x :: IsRequest(s.host, x) && x != id ==>
      IsRequest(ClearCancel(Clear(s.host, id), s.host.pending[id]), x)
  {
    CancelIdsApart(s, id);
  }

  lemma HandleBooks(s: System, m: Message)
    requires HostInv(s) && IssuesOk(s)
    ensures Books(s.host, Handle(s.host, m))
  {
    if m.id in s.host.pending {
      assert EntryOk(s, m.id);
      if s.host.pending[m.id].CancelEntry? {
        assert EntryOk(s, s.host.pending[m.id].target);
      } else {
        ClearedCancel(s, m.id);
      }
    }
  }

  lemma WrittenBooks(s: System, id: Id, error: Option<string>)
    requires HostInv(s) && IssuesOk(s)
    ensures Books(s.host, Written(s.host, id, error))
  {
    if IsRequest(s.host, id) {
      assert EntryOk(s, id);
      assert s.host.pending[id].cancelId.Some? ==> CancelOk(s, id);
      ClearedCancel(s, id);
    }
  }

  lemma ClosingBooks(s: System, code: string)
    requires HostInv(s)
    ensures Books(s.host, Close(s.host)) && Books(s.host, StdinFailed(s.host, code))
  {
    PendingUnsettled(s);
  }

  lemma CancelBooks(s: System, id: Id, c: Id, e: Entry)
    requires HostInv(s) && IsRequest(s.host, id) && Fresh(s, c) && e.RequestEntry?
    ensures Books(s.host, SendCancel(s.host, id, e, c))
    ensures Books(s.host, CancelWritten(SendCancel(s.host, id, e, c), c, id, true))
  {
    assert c in s.host.pending ==> EntryOk(s, c);
  }

  lemma CancelWrittenBooks(s: System, c: Id, id: Id, failed: bool)
    requires HostInv(s) && c in s.issued && s.issued[c] == Cancelling(id)
    ensures Books(s.host, CancelWritten(s.host, c, id, failed))
  {
    assert c in s.host.pending ==> EntryOk(s, c);
  }

  lemma AskBooks(s: System, e: Event)
    requires Inv(s) && Enabled(s, e) && (e.Ask? || e.AskThrows? || e.AskAlreadyAborted?)
    ensures Books(s.host, Step(s, e).host)
  {
    FreshNowhere(s, e.id);
    if e.AskThrows? { ThrownAsk(s, e.id, e.verb, e.code); }
  }

  lemma CancelledBooks(s: System, id: Id, c: Id, e: Entry, throws: bool)
    requires HostInv(s) && IsRequest(s.host, id) && Fresh(s, c) && e.RequestEntry?
    ensures Books(s.host, Cancelled(s, id, c, SendCancel(s.host, id, e, c), throws).host)
  {
    CancelBooks(s, id, c, e);
  }

  lemma CancelEventBooks(s: System, e: Event)
    requires HostInv(s) && Enabled(s, e) && (e.DeadlinePasses? || e.SignalAborts?)
    ensures Books(s.host, HostStep(s, e).host)
  {
    if e.DeadlinePasses? {
      CancelledBooks(s, e.id, e.cancelId, s.host.pending[e.id].(
        timerArmed := false, abortRequested := true, timeoutTriggered := true, listening := false), e.throws);
    } else if s.host.pending[e.id].abortRequested {
      assert e.cancelId in s.host.pending ==> EntryOk(s, e.cancelId);
    } else {
      CancelledBooks(s, e.id, e.cancelId, s.host.pending[e.id].(abortRequested := true, listening := false), e.throws);
    }
  }

  lemma OtherBooks(s: System, e: Event)
    requires HostInv(s) && IssuesOk(s) && Enabled(s, e)
    requires e.CallWritten? || e.CancelCallWritten? || e.StdinFails? || e.CloseTransport? || e.TakeMessage?
    ensures Books(s.host, Step(s, e).host)
  {
    match e
    case CallWritten(id, error) => WrittenBooks(s, id, error);
    case CancelCallWritten(id, failed) => CancelWrittenBooks(s, id, s.issued[id].target, failed);
    case StdinFails(code) => ClosingBooks(s, code);
    case CloseTransport => ClosingBooks(s, "");
    case TakeMessage => HandleBooks(s, s.log[s.taken]);
  }

  lemma HostBooks(s: System, e: Event)
    requires Inv(s) && Enabled(s, e) && AtHost(e)
    ensures Books(s.host, Step(s, e).host)
  {
    if e.Ask? || e.AskThrows? || e.AskAlreadyAborted? {
      AskBooks(s, e);
    } else if e.DeadlinePasses? || e.SignalAborts? {
      CancelEventBooks(s, e);
    } else {
      OtherBooks(s, e);
    }
  }

  lemma AgentLeavesHost(s: System, e: Event)
    requires Inv(s) && Enabled(s, e) && !AtHost(e)
    ensures Step(s, e).host == s.host && Step(s, e).issued == s.issued
  {
    if e.HearCall? && s.calls[s.heard].Request? { HearRequestSilent(s); }
  }

  lemma BooksAccount(s: System, t: System)
    requires Accounted(s) && EntriesOk(s) && Books(s.host, t.host)
    requires forall id :: id in t.issued && t.issued[id].Asked? ==>
      (id in s.issued && t.issued[id] == s.issued[id]) || id in t.host.pending || id in t.host.verdicts
    ensures Accounted(t)
  {
    forall id | id in t.issued && t.issued[id].Asked? ensures id in t.host.pending || id in t.host.verdicts {
      assert id in s.host.pending ==> EntryOk(s, id);
    }
  }

  lemma StepAccounts(s: System, e: Event)
    requires Inv(s) && Accounted(s) && Enabled(s, e)
    ensures Accounted(Step(s, e)) && Books(s.host, Step(s, e).host)
  {
    if AtHost(e) {
      HostBooks(s, e);
      NewIssue(s, e);
      BooksAccount(s, Step(s, e));
    } else {
      AgentLeavesHost(s, e);
    }
  }

  /** An id that asks for something is old, pending or settled. */
  ghost predicate NewKnown(s: System, t: System) {
    forall id :: id in t.issued && t.issued[id].Asked? ==>
      (id in s.issued && t.issued[id] == s.issued[id]) || id in t.host.pending || id in t.host.verdicts
  }

  lemma AskIssue(s: System, e: Event)
    requires Inv(s) && Enabled(s, e) && (e.Ask? || e.AskThrows? || e.AskAlreadyAborted?)
    ensures NewKnown(s, HostStep(s, e))
  {
    FreshNowhere(s, e.id);
    if e.AskThrows? { ThrownAsk(s, e.id, e.verb, e.code); }
  }

  lemma CancelIssue(s: System, id: Id, c: Id, host: Host, throws: bool)
    requires IsRequest(s.host, id)
    ensures NewKnown(s, Cancelled(s, id, c, host, throws))
  {
  }

  lemma NewIssue(s: System, e: Event)
    requires Inv(s) && Enabled(s, e) && AtHost(e)
    ensures NewKnown(s, HostStep(s, e))
  {
    if e.Ask? || e.AskThrows? || e.AskAlreadyAborted? {
      AskIssue(s, e);
    } else if e.DeadlinePasses? {
      CancelIssue(s, e.id, e.cancelId, Deadline(s.host, e.id, e.cancelId), e.throws);
    } else if e.SignalAborts? {
      CancelIssue(s, e.id, e.cancelId, Abort(s.host, e.id, e.cancelId), e.throws);
    }
  }

  // ---------- invariants hold in every run ----------

  lemma {:induction false} RunInv(run: seq<System>, i: nat)
    requires IsRun(run) && i < |run|
    ensures Inv(run[i]) && Accounted(run[i])
  {
    if i > 0 {
      RunInv(run, i - 1);
      assert Next(run[i - 1], run[i - 1 + 1]);
      var e :| Enabled(run[i - 1], e) && run[i] == Step(run[i - 1], e);
      StepKeeps(run[i - 1], e);
      StepAccounts(run[i - 1], e);
    }
  }

  /** Each caller is settled at most once. Until then it has one record in the
      map, unsettled, and at most one cancel record names it. Nobody vanishes. */
  lemma SettledOnce(run: seq<System>, i: nat)
    requires IsRun(run) && i < |run|
    ensures var s := run[i];
      && !s.host.settledTwice
      && (forall id :: id in s.issued && s.issued[id].Asked? ==> (id in s.host.pending <==> id !in s.host.verdicts))
      && (forall id :: IsRequest(s.host, id) ==> !s.host.pending[id].clientSettled)
      && (forall c :: c in s.host.pending && s.host.pending[c].CancelEntry? ==>
          IsRequest(s.host, s.host.pending[c].target)
          && s.host.pending[s.host.pending[c].target].cancelId == Some(c))
  {
    var s := run[i];
    RunInv(run, i);
    PendingUnsettled(s);
    forall id | id in s.issued && s.issued[id].Asked? ensures id in s.host.pending <==> id !in s.host.verdicts {
      assert id in s.host.pending ==> EntryOk(s, id);
    }
    forall c | c in s.host.pending && s.host.pending[c].CancelEntry?
      ensures IsRequest(s.host, s.host.pending[c].target)
        && s.host.pending[s.host.pending[c].target].cancelId == Some(c)
    {
      assert EntryOk(s, c);
      SoleCancel(s, s.host.pending[c].target, c);
    }
  }

  /** Verdicts come only with a message, a failed write, a close, or before
      anything was sent; a deadline or an abort settles nobody. */
  lemma OnlyTheseSettle(s: System, e: Event)
    requires AgentInv(s) && Enabled(s, e) && Step(s, e).host.verdicts != s.host.verdicts
    ensures e.TakeMessage? || (e.CallWritten? && e.error.Some?) || e.StdinFails? || e.CloseTransport?
      || e.AskThrows? || e.AskAlreadyAborted?
  {
    if !AtHost(e) {
      if e.HearCall? && s.calls[s.heard].Request? { HearRequestSilent(s); }
    } else {
      SettlesNobody(s, e);
    }
  }

  lemma CancellingSettlesNobody(s: System, id: Id, c: Id, host: Host, throws: bool)
    requires IsRequest(s.host, id)
    ensures Cancelled(s, id, c, host, throws).host.verdicts == host.verdicts
  {
  }

  lemma SettlesNobody(s: System, e: Event)
    requires Enabled(s, e) && AtHost(e)
    ensures e.Ask? || e.DeadlinePasses? || e.SignalAborts? || e.CancelCallWritten? || (e.CallWritten? && e.error.None?)
      ==> HostStep(s, e).host.verdicts == s.host.verdicts
  {
    if e.DeadlinePasses? {
      CancellingSettlesNobody(s, e.id, e.cancelId, Deadline(s.host, e.id, e.cancelId), e.throws);
    }
    if e.SignalAborts? {
      CancellingSettlesNobody(s, e.id, e.cancelId, Abort(s.host, e.id, e.cancelId), e.throws);
    }
  }

  // ---------- phases ----------

  function Rank(p: Phase): nat {
    match p
    case Execution => 0
    case Precommit => 0
    case Commit => 1
    case Committed => 2
    case CommitFailed => 2
  }

  /** How one event may move a scope. */
  ghost predicate Forward(c: Scope, d: Scope) {
    && d.verb == c.verb && d.policy == c.policy
    && (c.cancelled ==> d.cancelled)
    && (d.phase == c.phase
        || (c.phase == Precommit && d.phase == Commit && !c.cancelled)
        || (c.phase == Commit && (d.phase == Committed || d.phase == CommitFailed)))
    && (c.outcome.Some? ==> d.outcome == c.outcome && d.committedBody == c.committedBody && d.failure == c.failure)
    && (c.progress.Completed? ==> SameButQuiesced(c, d))
  }

  lemma HandlerForward(c: Scope, e: Event)
    requires InHandler(e) && PhaseOk(e.id, c) && c.progress.Running?
    ensures Forward(c, Handled(c, e))
  {
  }

  lemma HandlerEventForward(s: System, e: Event, id: Id)
    requires InHandler(e) && Handling(s, e.id) && ScopeOk(s, e.id) && id in s.agent.scopes
    ensures Forward(s.agent.scopes[id], WithScope(s, e.id, Handled(s.agent.scopes[e.id], e)).agent.scopes[id])
  {
    if id == e.id { HandlerForward(s.agent.scopes[id], e); }
  }

  lemma HearForward(s: System, id: Id)
    requires AgentInv(s) && s.heard < |s.calls| && id in s.agent.scopes
    ensures id in AgentStep(s, HearCall).agent.scopes
    ensures Forward(s.agent.scopes[id], AgentStep(s, HearCall).agent.scopes[id])
  {
    Unheard(s);
    if s.calls[s.heard].Request? { HearRequestSilent(s); }
  }

  lemma FinalizeForward(a: Agent, id: Id, quiesced: bool, x: Id)
    requires id in a.scopes && (a.scopes[id].progress.Returned? || a.scopes[id].progress.Threw?) && x in a.scopes
    ensures var b := Finalize(a, id, quiesced).0; x in b.scopes && Forward(a.scopes[x], b.scopes[x])
  {
  }

  lemma EndForward(s: System, e: Event, id: Id)
    requires Enabled(s, e) && id in s.agent.scopes && ScopeOk(s, id)
    requires e.CustodyFinalized? || e.PlainHandlerEnds?
    ensures id in AgentStep(s, e).agent.scopes && Forward(s.agent.scopes[id], AgentStep(s, e).agent.scopes[id])
  {
    if e.CustodyFinalized? { FinalizeForward(s.agent, e.id, e.quiesced, id); }
  }

  lemma CancelEndForward(s: System, e: Event, id: Id)
    requires Enabled(s, e) && id in s.agent.scopes && ScopeOk(s, id)
    requires e.CancelResumes? || e.CancelAnswers?
    ensures id in AgentStep(s, e).agent.scopes && Forward(s.agent.scopes[id], AgentStep(s, e).agent.scopes[id])
  {
  }

  lemma AgentStepForward(s: System, e: Event, id: Id)
    requires AgentInv(s) && Enabled(s, e) && !AtHost(e) && !InHandler(e) && id in s.agent.scopes
    ensures id in AgentStep(s, e).agent.scopes && Forward(s.agent.scopes[id], AgentStep(s, e).agent.scopes[id])
  {
    assert ScopeOk(s, id);
    if e.HearCall? {
      HearForward(s, id);
    } else if e.CancelResumes? || e.CancelAnswers? {
      CancelEndForward(s, e, id);
    } else {
      EndForward(s, e, id);
    }
  }

  lemma StepForward(s: System, e: Event, id: Id)
    requires AgentInv(s) && Enabled(s, e) && id in s.agent.scopes
    ensures id in Step(s, e).agent.scopes && Forward(s.agent.scopes[id], Step(s, e).agent.scopes[id])
  {
    if InHandler(e) {
      assert ScopeOk(s, e.id);
      HandlerEventForward(s, e, id);
    } else if AtHost(e) {
      HostLeavesAgent(s, e);
    } else {
      AgentStepForward(s, e, id);
    }
  }

  lemma HostLeavesAgent(s: System, e: Event)
    requires Enabled(s, e) && AtHost(e)
    ensures HostStep(s, e).agent == s.agent
  {
  }

  /** Over any stretch of a run a scope only moves forward: phases never go
      back, a terminal phase and its receipt are final, and a request cancelled
      before its commit point never enters it. */
  lemma {:induction false} PhasesForward(run: seq<System>, i: nat, j: nat, id: Id)
    requires IsRun(run) && i <= j < |run| && id in run[i].agent.scopes
    ensures id in run[j].agent.scopes
    ensures var c, d := run[i].agent.scopes[id], run[j].agent.scopes[id];
      && Rank(c.phase) <= Rank(d.phase)
      && (PastCommit(c.phase) ==> PastCommit(d.phase))
      && (Rank(c.phase) == 2 ==> d.phase == c.phase)
      && (c.cancelled ==> d.cancelled)
      && (c.cancelled && c.phase == Precommit ==> d.phase == Precommit)
      && (c.outcome.Some? ==> d.outcome == c.outcome && d.committedBody == c.committedBody)
      && (c.progress.Completed? ==> SameButQuiesced(c, d))
    decreases j - i
  {
    if i < j {
      RunInv(run, i);
      assert Next(run[i], run[i + 1]);
      var e :| Enabled(run[i], e) && run[i + 1] == Step(run[i], e);
      StepForward(run[i], e, id);
      PhasesForward(run, i + 1, j, id);
    }
  }

  /** A receipt exists exactly in the two terminal phases, and it is the one
      for this request: body and kind of a commit, or the failure after one. */
  lemma ReceiptIffTerminal(run: seq<System>, i: nat, id: Id)
    requires IsRun(run) && i < |run| && id in run[i].agent.scopes
    ensures var c := run[i].agent.scopes[id];
      && (c.outcome.Some? <==> c.phase == Committed || c.phase == CommitFailed)
      && (c.phase == Committed ==>
          c.outcome.value.requestId == id && c.outcome.value.committed
          && c.outcome.value.resultDigest == Sha(AgentCanon(c.committedBody)))
      && (c.phase == CommitFailed ==>
          c.outcome.value.requestId == id && !c.outcome.value.committed && c.outcome.value.partialPossible
          && c.outcome.value.failureCode == FailureCode(c.failure))
      && (c.progress.Completed? ==> c.phase != Commit)
  {
    RunInv(run, i);
    assert ScopeOk(run[i], id);
  }

  /** Under a scoped request's own id at most one message is ever sent, only
      when it is done, and none exactly when it was cancelled without an outcome. */
  lemma OneReply(run: seq<System>, i: nat, id: Id)
    requires IsRun(run) && i < |run| && id in run[i].agent.scopes
    ensures var s := run[i];
      var c := s.agent.scopes[id];
      && (forall k, l :: 0 <= k < l < |s.log| ==> s.log[k].id != s.log[l].id)
      && ((exists k :: 0 <= k < |s.log| && s.log[k].id == id) <==>
          c.progress.Completed? && !(c.cancelled && c.outcome.None?))
  {
    RunInv(run, i);
    var s := run[i];
    assert ScopeOk(s, id);
    if id in s.sentAt { assert s.log[s.sentAt[id]].id == id; }
  }

  // ---------- the host tells the truth ----------

  lemma {:induction false} VerdictStays(run: seq<System>, i: nat, j: nat, id: Id)
    requires IsRun(run) && i <= j < |run| && id in run[i].host.verdicts
    ensures id in run[j].host.verdicts && run[j].host.verdicts[id] == run[i].host.verdicts[id]
    decreases j - i
  {
    if i < j {
      RunInv(run, i);
      assert Next(run[i], run[i + 1]);
      var e :| Enabled(run[i], e) && run[i + 1] == Step(run[i], e);
      StepAccounts(run[i], e);
      VerdictStays(run, i + 1, j, id);
    }
  }

  lemma NeverPastCommit(run: seq<System>, i: nat, j: nat, id: Id)
    requires IsRun(run) && i < |run| && j < |run| && id in run[i].host.verdicts
    requires run[i].host.verdicts[id].Aborted? || (run[i].host.verdicts[id].Resolved? && run[i].host.verdicts[id].receipt.None?)
    requires id in run[j].agent.scopes
    ensures !PastCommit(run[j].agent.scopes[id].phase)
  {
    RunInv(run, i);
    RunInv(run, j);
    assert SettledOk(run[i], id);
    if j <= i {
      PhasesForward(run, j, i, id);
    } else {
      VerdictStays(run, i, j, id);
      assert SettledOk(run[j], id);
    }
  }

  /** An abort error claims that the request was quiesced and that no mutation
      took place. In no state of the run, earlier or later, has the agent been
      past that request's commit point. The same holds for a result without a receipt. */
  lemma AbortIsTruthful(run: seq<System>, i: nat, id: Id)
    requires IsRun(run) && i < |run| && id in run[i].host.verdicts
    requires run[i].host.verdicts[id].Aborted? || (run[i].host.verdicts[id].Resolved? && run[i].host.verdicts[id].receipt.None?)
    ensures forall j: nat :: j < |run| && id in run[j].agent.scopes ==> !PastCommit(run[j].agent.scopes[id].phase)
  {
    forall j: nat | j < |run| && id in run[j].agent.scopes ensures !PastCommit(run[j].agent.scopes[id].phase) {
      NeverPastCommit(run, i, j, id);
    }
  }

  /** A result with a receipt: the agent is committed for good, with that very
      receipt and that very body. */
  lemma ResolveIsTruthful(run: seq<System>, i: nat, j: nat, id: Id)
    requires IsRun(run) && i <= j < |run| && id in run[i].host.verdicts
    requires run[i].host.verdicts[id].Resolved? && run[i].host.verdicts[id].receipt.Some?
    ensures id in run[j].agent.scopes
    ensures var v, c := run[i].host.verdicts[id], run[j].agent.scopes[id];
      c.phase == Committed && c.outcome == v.receipt && v.body == Transport(c.committedBody) && NoUndefined(c.committedBody)
  {
    RunInv(run, j);
    VerdictStays(run, i, j, id);
    assert SettledOk(run[j], id);
  }

  /** An error passed on from the agent carries the agent's own outcome: none
      without a commit point, the receipt after one. The one exception is a
      failed commit whose error code the host's grammar refuses. */
  lemma FailureIsTruthful(run: seq<System>, i: nat, j: nat, id: Id)
    requires IsRun(run) && i <= j < |run| && id in run[i].host.verdicts && run[i].host.verdicts[id].AgentFailed?
    ensures id in run[j].agent.scopes ==>
      var c := run[j].agent.scopes[id];
      c.progress.Completed? && run[i].host.verdicts[id].outcome
        == if c.phase == CommitFailed && !PublicCode(FailureCode(c.failure)) then None else c.outcome
    ensures id !in run[j].agent.scopes ==> run[i].host.verdicts[id].outcome.None?
  {
    RunInv(run, j);
    VerdictStays(run, i, j, id);
    assert SettledOk(run[j], id);
  }

  /** Facing this agent the host's defences stay idle: no receipt is ever held
      back for a result, no receipts conflict, none goes missing, no control
      answer is malformed, and a result is refused as invalid only when its
      commit completed with a value that JSON cannot carry. */
  lemma DefencesIdle(run: seq<System>, i: nat)
    requires IsRun(run) && i < |run|
    ensures var s := run[i];
      && (forall id :: IsRequest(s.host, id) ==>
          s.host.pending[id].committedReceipt.None?
          && s.host.pending[id].controlError != Some(OutcomeUnreadable)
          && s.host.pending[id].controlError != Some(Unacknowledged))
      && (forall id :: id in s.host.verdicts && s.host.verdicts[id].HostRejected? ==>
          s.host.verdicts[id].fault == InvalidOutcome
          && id in s.agent.scopes && s.agent.scopes[id].phase == Committed
          && !NoUndefined(s.agent.scopes[id].committedBody))
  {
    RunInv(run, i);
    var s := run[i];
    forall id | IsRequest(s.host, id)
      ensures s.host.pending[id].committedReceipt.None?
        && s.host.pending[id].controlError != Some(OutcomeUnreadable)
        && s.host.pending[id].controlError != Some(Unacknowledged)
    {
      assert EntryOk(s, id);
    }
    forall id | id in s.host.verdicts && s.host.verdicts[id].HostRejected?
      ensures s.host.verdicts[id].fault == InvalidOutcome
        && id in s.agent.scopes && s.agent.scopes[id].phase == Committed
        && !NoUndefined(s.agent.scopes[id].committedBody)
    {
      assert SettledOk(s, id);
    }
  }

  // ---------- no lost requests ----------

  /** Both streams have been read to the end and the agent is at rest. */
  ghost predicate Quiet(s: System) {
    && s.heard == |s.calls| && s.taken == |s.log|
    && s.agent.plain == {} && s.agent.jobs == map[]
    && (forall id :: id in s.agent.scopes ==> s.agent.scopes[id].progress.Completed?)
  }

  /** When everything is quiet and no cancel request was lost, a request still
      pending was cancelled before it had an outcome and the agent has said that
      it could not prove quiescence. Every other request has been settled. */
  lemma NoLostRequests(run: seq<System>, i: nat, id: Id)
    requires IsRun(run) && i < |run| && Quiet(run[i]) && !run[i].cancelLost
    requires id in run[i].issued && run[i].issued[id].Asked?
    ensures var s := run[i];
      id in s.host.verdicts ||
      (IsRequest(s.host, id) && s.host.pending[id].controlError == Some(AgentSaid(QuiescenceUnproven))
       && id in s.agent.scopes && s.agent.scopes[id].cancelled && s.agent.scopes[id].outcome.None?)
  {
    RunInv(run, i);
    var s := run[i];
    if id !in s.host.verdicts {
      assert EntryOk(s, id) && CallOk(s, id) && HeardOk(s, id) && Tracked(s, id);
      assert id in s.agent.scopes ==> ScopeOk(s, id);
      var c := s.cancelOf[id];
      assert CancelOk(s, id) && HeardOk(s, c);
      assert MessageOk(s, s.sentAt[c]);
    }
  }
}
