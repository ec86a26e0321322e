/** What a settled caller is told about quiescence agrees with the agent's own finding. */
module ProtocolQuiescence {
  import opened Json
  import opened Outcome
  import opened Wrappers
  import opened Wire
  import opened HostState
  import opened AgentState
  import opened Protocol
  import opened ProtocolFrames
  import opened ProtocolHost
  import opened ProtocolTake
  import opened ProtocolAgent
  import opened ProtocolSteps
  import opened ProtocolTheorems

  predicate Done(s: System, id: Id) { id in s.agent.scopes && s.agent.scopes[id].progress.Completed? }

  /** No cancel job is waiting for the scope. */
  ghost predicate Unawaited(s: System, id: Id) {
    forall c {:trigger s.agent.jobs[c]} :: c in s.agent.jobs && s.agent.jobs[c].Waiting? ==> s.agent.jobs[c].target != id
  }

  /** The scope is done, was found quiesced, and nothing is left that could find otherwise. */
  ghost predicate Proved(s: System, id: Id) { Done(s, id) && s.agent.scopes[id].quiesced && Unawaited(s, id) }

  /** A message under the scope's own id went out, and `flag` is what finalizing the
      scope's processes found. */
  predicate Flagged(s: System, id: Id, flag: bool) { Done(s, id) && Sent(s, id) && s.agent.scopes[id].found == flag }

  /** Only a cancel can have lowered what was found. */
  predicate Lowered(s: System, id: Id) {
    Done(s, id) ==>
      && (s.agent.scopes[id].quiesced ==> s.agent.scopes[id].found)
      && (s.agent.scopes[id].found && !s.agent.scopes[id].cancelled ==> s.agent.scopes[id].quiesced)
  }

  lemma UncancelledUnawaited(s: System, id: Id)
    requires JobsOk(s) && (id in s.agent.scopes ==> !s.agent.scopes[id].cancelled)
    ensures Unawaited(s, id)
  {
    forall c | c in s.agent.jobs && s.agent.jobs[c].Waiting? ensures s.agent.jobs[c].target != id {
      assert JobOk(s, c);
    }
  }

  /** At most one cancel job names a request. */
  lemma SoleJob(s: System, c: Id, d: Id)
    requires JobsOk(s) && IssuesOk(s) && c in s.issued && s.issued[c].Cancelling?
    requires d in s.agent.jobs && d != c && s.agent.jobs[d].Waiting?
    ensures s.agent.jobs[d].target != s.issued[c].target
  {
    assert JobOk(s, d) && IssueOk(s, c) && IssueOk(s, d);
  }

  // ---------- a done scope ----------

  ghost predicate DoneSame(s: System, t: System, id: Id)
    requires Done(s, id)
  {
    && Done(t, id) && (Sent(s, id) ==> Sent(t, id))
    && SameButQuiesced(s.agent.scopes[id], t.agent.scopes[id])
    && (t.agent.scopes[id].quiesced ==> s.agent.scopes[id].quiesced)
    && (Unawaited(s, id) ==> Unawaited(t, id) && t.agent.scopes[id].quiesced == s.agent.scopes[id].quiesced)
  }

  /** The event left the scope alone and started no wait for it. */
  lemma SameDone(s: System, t: System, id: Id)
    requires Done(s, id) && id in t.agent.scopes && t.agent.scopes[id] == s.agent.scopes[id]
    requires Sent(s, id) ==> Sent(t, id)
    requires forall c :: c in t.agent.jobs && t.agent.jobs[c] == Waiting(id) ==> c in s.agent.jobs && s.agent.jobs[c] == Waiting(id)
    ensures DoneSame(s, t, id)
  {
    if Unawaited(s, id) {
      forall c | c in t.agent.jobs && t.agent.jobs[c].Waiting? ensures t.agent.jobs[c].target != id {
        assert t.agent.jobs[c] == Waiting(id) ==> s.agent.jobs[c] == Waiting(id);
      }
    }
  }

  lemma HearRequestDone(s: System, t: System, id: Id)
    requires HearsNext(s, t) && s.calls[s.heard].Request? && s.calls[s.heard].id !in s.agent.scopes && Done(s, id)
    requires var q := s.calls[s.heard]; t.agent == ReceiveRequest(s.agent, q.id, q.verb, q.apply).0
    ensures DoneSame(s, t, id)
  {
    SameDone(s, t, id);
  }

  lemma HearCancelDone(s: System, t: System, id: Id)
    requires HearsNext(s, t) && s.calls[s.heard].CancelRequest? && Done(s, id)
    requires t.agent == ReceiveCancel(s.agent, s.calls[s.heard].id, s.calls[s.heard].target)
    ensures DoneSame(s, t, id)
  {
    SameDone(s, t, id);
  }

  lemma HearDone(s: System, t: System, id: Id)
    requires AgentInv(s) && s.heard < |s.calls| && t == AgentStep(s, HearCall) && Done(s, id)
    ensures DoneSame(s, t, id)
  {
    Unheard(s);
    if s.calls[s.heard].Request? {
      HearRequestSilent(s);
      HearRequestDone(s, t, id);
    } else {
      HearCancelDone(s, t, id);
    }
  }

  lemma FinalizeDone(s: System, t: System, id: Id, x: Id, quiesced: bool)
    requires Sends(s, t, x) && x in s.agent.scopes && Done(s, id)
    requires s.agent.scopes[x].progress.Returned? || s.agent.scopes[x].progress.Threw?
    requires t.agent == Finalize(s.agent, x, quiesced).0
    ensures DoneSame(s, t, id)
  {
    SameDone(s, t, id);
  }

  lemma ResumeDone(s: System, t: System, id: Id, c: Id, terminated: bool)
    requires c in s.agent.jobs && s.agent.jobs[c].Waiting? && s.agent.jobs[c].target in s.agent.scopes
    requires t == s.(agent := Resume(s.agent, c, terminated)) && Done(s, id)
    ensures DoneSame(s, t, id)
  {
    if id != s.agent.jobs[c].target { SameDone(s, t, id); }
  }

  lemma OtherDone(s: System, id: Id, e: Event)
    requires Enabled(s, e) && (e.PlainHandlerEnds? || e.CancelAnswers?) && Done(s, id)
    ensures DoneSame(s, AgentStep(s, e), id)
  {
    SameDone(s, AgentStep(s, e), id);
  }

  lemma HostDone(s: System, id: Id, e: Event)
    requires Enabled(s, e) && AtHost(e) && Done(s, id)
    ensures DoneSame(s, HostStep(s, e), id)
  {
    HostLeavesAgent(s, e);
  }

  lemma FinalizeSent(s: System, e: Event)
    requires AgentInv(s) && Enabled(s, e) && e.CustodyFinalized?
    ensures Sends(s, Step(s, e), e.id) && Step(s, e).agent == Finalize(s.agent, e.id, e.quiesced).0
  {
    assert ScopeOk(s, e.id);
    FinalMessagesOk(s.agent.scopes[e.id], e.id, e.quiesced);
    FinalizeSends(s, Step(s, e), e.id, e.quiesced);
  }

  /** A done scope changes only in its quiescence, only downwards, and only while a
      cancel job waits for it. */
  lemma StepDone(s: System, e: Event, id: Id)
    requires AgentInv(s) && Enabled(s, e) && Done(s, id)
    ensures DoneSame(s, Step(s, e), id)
  {
    if AtHost(e) {
      HostDone(s, id, e);
    } else if InHandler(e) {
    } else if e.HearCall? {
      HearDone(s, Step(s, e), id);
    } else if e.CustodyFinalized? {
      FinalizeSent(s, e);
      FinalizeDone(s, Step(s, e), id, e.id, e.quiesced);
    } else if e.CancelResumes? {
      ResumeDone(s, Step(s, e), id, e.id, e.terminated);
    } else {
      OtherDone(s, id, e);
    }
  }

  // ---------- the invariant ----------

  predicate RecentQ(s: System, f: Finished) {
    f.id in s.agent.scopes ==> f.quiesced == s.agent.scopes[f.id].found
  }

  ghost predicate JobQ(s: System, c: Id)
    requires c in s.agent.jobs
  {
    && c in s.issued && s.issued[c].Cancelling?
    && (s.agent.jobs[c].Ready? && s.agent.jobs[c].reply.Ok? ==> Proved(s, s.issued[c].target))
  }

  /** The quiescence a message under a request's own id claims. */
  function Claim(p: Payload): bool { p.Ok? || p.error.quiesced }

  ghost predicate MessageQ(s: System, i: nat)
    requires i < |s.log|
  {
    var m := s.log[i];
    m.id in s.issued &&
    match s.issued[m.id]
    case Asked(_, _) => if m.id in s.agent.scopes then Flagged(s, m.id, Claim(m.payload)) else m.payload.Ok? || !Claim(m.payload)
    case Cancelling(t) => m.payload.Ok? ==> Proved(s, t)
  }

  ghost predicate VerdictQ(s: System, id: Id, v: Verdict) {
    match v
    case Resolved(_, _) => id in s.agent.scopes ==> Flagged(s, id, true)
    case Aborted(_, _, _) => id in s.agent.scopes ==> Proved(s, id)
    case AgentFailed(_, _, quiesced, _, _) => if id in s.agent.scopes then Flagged(s, id, quiesced) else !quiesced
    case HostRejected(_, _) => id in s.agent.scopes ==> Flagged(s, id, true)
    case Unwritten(_) => true
    case TransportClosed => true
  }

  ghost predicate SettledQ(s: System, id: Id)
    requires id in s.host.verdicts
  {
    VerdictQ(s, id, s.host.verdicts[id])
  }

  ghost predicate Honest(s: System) {
    && (forall id {:trigger Lowered(s, id)} :: Lowered(s, id))
    && (forall f {:trigger RecentQ(s, f)} :: f in s.agent.recent ==> RecentQ(s, f))
    && (forall c {:trigger JobQ(s, c)} :: c in s.agent.jobs ==> JobQ(s, c))
    && (forall i: nat {:trigger MessageQ(s, i)} :: i < |s.log| ==> MessageQ(s, i))
    && (forall id {:trigger SettledQ(s, id)} :: id in s.host.verdicts ==> SettledQ(s, id))
  }

  // ---------- what is old stays honest ----------

  /** Done scopes go on as they may, a scope starts only for a call not heard before,
      and nothing said is taken back. */
  ghost predicate Onward(s: System, t: System) {
    && (forall id {:trigger Done(s, id)} :: Done(s, id) ==> DoneSame(s, t, id))
    && (forall id :: id in s.issued ==> id in t.issued && t.issued[id] == s.issued[id])
    && (forall id :: id in t.agent.scopes && id !in s.agent.scopes ==> !Heard(s, id) && id in s.askedAt)
    && s.log <= t.log
    && (forall id :: id in s.host.verdicts ==> id in t.host.verdicts && t.host.verdicts[id] == s.host.verdicts[id])
  }

  lemma FlaggedStays(s: System, t: System, id: Id, flag: bool)
    requires Onward(s, t) && Flagged(s, id, flag)
    ensures Flagged(t, id, flag)
  {
  }

  lemma LoweredStays(s: System, t: System, id: Id)
    requires JobsOk(s) && Onward(s, t) && Done(s, id) && Lowered(s, id)
    ensures Lowered(t, id)
  {
    if !s.agent.scopes[id].cancelled { UncancelledUnawaited(s, id); }
  }

  lemma ProvedStays(s: System, t: System, id: Id)
    requires Onward(s, t) && Proved(s, id)
    ensures Proved(t, id)
  {
  }

  lemma RecentStays(s: System, t: System, f: Finished)
    requires Onward(s, t) && RecentOk(s, f) && RecentQ(s, f)
    ensures RecentQ(t, f)
  {
    assert Done(s, f.id);
  }

  lemma MessageStays(s: System, t: System, i: nat)
    requires Onward(s, t) && i < |s.log| && MessageOk(s, i) && MessageQ(s, i)
    ensures MessageQ(t, i)
  {
    var m := s.log[i];
    assert t.log[i] == m;
    match s.issued[m.id]
    case Asked(_, _) => if m.id in s.agent.scopes { FlaggedStays(s, t, m.id, Claim(m.payload)); }
    case Cancelling(id) => if m.payload.Ok? { ProvedStays(s, t, id); }
  }

  lemma VerdictStaysHonest(s: System, t: System, id: Id, v: Verdict)
    requires Onward(s, t) && VerdictOk(s, id, v) && VerdictQ(s, id, v)
    ensures VerdictQ(t, id, v)
  {
    if id in s.agent.scopes && !v.Unwritten? && !v.TransportClosed? {
      if v.Aborted? { ProvedStays(s, t, id); } else { FlaggedStays(s, t, id, if v.AgentFailed? then v.quiesced else true); }
    }
  }

  /** What the event added is honest. */
  ghost predicate NewHonest(s: System, t: System) {
    && (forall id {:trigger Lowered(t, id)} :: !Done(s, id) ==> Lowered(t, id))
    && (forall f {:trigger RecentQ(t, f)} :: f in t.agent.recent && f !in s.agent.recent ==> RecentQ(t, f))
    && (forall c {:trigger JobQ(t, c)} :: c in t.agent.jobs && !(c in s.agent.jobs && t.agent.jobs[c] == s.agent.jobs[c]) ==>
        JobQ(t, c))
    && (forall i: nat {:trigger MessageQ(t, i)} :: |s.log| <= i < |t.log| ==> MessageQ(t, i))
    && (forall id {:trigger SettledQ(t, id)} :: id in t.host.verdicts && id !in s.host.verdicts ==> SettledQ(t, id))
  }

  lemma OldHonest(s: System, t: System)
    requires Inv(s) && Honest(s) && Onward(s, t) && NewHonest(s, t)
    ensures Honest(t)
  {
    forall id ensures Lowered(t, id) {
      if Done(s, id) {
        assert Lowered(s, id);
        LoweredStays(s, t, id);
      }
    }
    forall f | f in t.agent.recent ensures RecentQ(t, f) {
      if f in s.agent.recent {
        assert RecentOk(s, f) && RecentQ(s, f);
        RecentStays(s, t, f);
      }
    }
    forall c | c in t.agent.jobs ensures JobQ(t, c) {
      if c in s.agent.jobs && t.agent.jobs[c] == s.agent.jobs[c] {
        assert JobQ(s, c);
        if t.agent.jobs[c].Ready? && t.agent.jobs[c].reply.Ok? { ProvedStays(s, t, s.issued[c].target); }
      }
    }
    forall i: nat | i < |t.log| ensures MessageQ(t, i) {
      if i < |s.log| {
        assert MessageOk(s, i) && MessageQ(s, i);
        MessageStays(s, t, i);
      }
    }
    forall id | id in t.host.verdicts ensures SettledQ(t, id) {
      if id in s.host.verdicts {
        assert SettledOk(s, id) && SettledQ(s, id);
        VerdictStaysHonest(s, t, id, s.host.verdicts[id]);
      }
    }
  }

  // ---------- what is new ----------

  /** A cancel answered from memory was not sent before, so nothing lowered the scope since. */
  lemma HearCancelHonest(s: System, t: System)
    requires Inv(s) && Honest(s) && HearsNext(s, t) && s.calls[s.heard].CancelRequest?
    requires t.agent == ReceiveCancel(s.agent, s.calls[s.heard].id, s.calls[s.heard].target)
    ensures NewHonest(s, t)
  {
    var c, id := s.calls[s.heard].id, s.calls[s.heard].target;
    CancelTarget(s, c);
    var done := Recall(s.agent.recent, id);
    if done.Some? {
      assert RecentOk(s, done.value) && RecentQ(s, done.value) && Lowered(s, id);
      UncancelledUnawaited(s, id);
      assert done.value.quiesced ==> Proved(t, id);
    }
    assert JobQ(t, c);
  }

  lemma FinalClaims(c: Scope, id: Id, quiesced: bool)
    requires PhaseOk(id, c) && (c.progress.Returned? || c.progress.Threw?)
    ensures forall m :: m in FinalMessages(c, id, quiesced) ==> Claim(m.payload) == quiesced
  {
  }

  lemma FinishedHonest(s: System, t: System, id: Id, quiesced: bool)
    requires Sends(s, t, id) && id in s.agent.scopes
    requires s.agent.scopes[id].progress.Returned? || s.agent.scopes[id].progress.Threw?
    requires t.agent == Finalize(s.agent, id, quiesced).0
    ensures forall f :: f in t.agent.recent && f !in s.agent.recent ==> RecentQ(t, f)
    ensures forall x :: !Done(s, x) ==> Lowered(t, x)
    ensures t.agent.jobs == s.agent.jobs && Flagged(t, id, quiesced) == Sent(t, id)
  {
  }

  lemma FinalizeHonest(s: System, t: System, id: Id, quiesced: bool)
    requires Indexed(s) && Sends(s, t, id) && id in s.agent.scopes && ScopeOk(s, id)
    requires s.agent.scopes[id].progress.Returned? || s.agent.scopes[id].progress.Threw?
    requires t.agent == Finalize(s.agent, id, quiesced).0
    requires |t.log| > |s.log| ==> Claim(t.log[|s.log|].payload) == quiesced
    ensures NewHonest(s, t)
  {
    FinishedHonest(s, t, id, quiesced);
    assert |t.log| > |s.log| ==> MessageQ(t, |s.log|);
  }

  lemma ResumeHonest(s: System, t: System, c: Id, terminated: bool)
    requires AgentInv(s) && c in s.agent.jobs && s.agent.jobs[c].Waiting? && s.agent.jobs[c].target in s.agent.scopes
    requires s.agent.scopes[s.agent.jobs[c].target].progress.Completed?
    requires t == s.(agent := Resume(s.agent, c, terminated))
    ensures NewHonest(s, t)
  {
    assert JobOk(s, c);
    var id := s.issued[c].target;
    forall d | d in t.agent.jobs && t.agent.jobs[d].Waiting? ensures t.agent.jobs[d].target != id {
      assert s.agent.jobs[d] == t.agent.jobs[d];
      SoleJob(s, c, d);
    }
    assert JobQ(t, c);
  }

  lemma AnswerHonest(s: System, t: System, c: Id)
    requires Honest(s) && Onward(s, t) && c in s.agent.jobs && s.agent.jobs[c].Ready? && t.host == s.host
    requires t.agent == s.agent.(jobs := s.agent.jobs - {c}) && t.log == s.log + [Message(c, s.agent.jobs[c].reply)]
    ensures NewHonest(s, t)
  {
    assert JobQ(s, c);
    if s.agent.jobs[c].reply.Ok? { ProvedStays(s, t, s.issued[c].target); }
    assert MessageQ(t, |s.log|);
  }

  lemma PlainEndHonest(s: System, t: System, id: Id, body: Json, error: Option<string>)
    requires AllHeardOk(s) && PlainOk(s, id) && id in s.agent.plain
    requires var (a, m) := FinishPlain(s.agent, id, body, error); t == Send(s.(agent := a), m)
    ensures NewHonest(s, t)
  {
    assert HeardOk(s, id);
    assert MessageQ(t, |s.log|);
  }

  // ---------- verdicts ----------

  /** A reply's verdict passes on what the reply claims. */
  lemma ReplyHonest(s: System, id: Id, e: Entry, p: Payload)
    requires e.RequestEntry? && ScopesOk(s) && JobsOk(s) && Lowered(s, id)
    requires VerdictOk(s, id, ReplyVerdict(id, e, p))
    requires if id in s.agent.scopes then Flagged(s, id, Claim(p)) else p.Ok? || !Claim(p)
    ensures VerdictQ(s, id, ReplyVerdict(id, e, p))
  {
    if id in s.agent.scopes && ReplyVerdict(id, e, p).Aborted? {
      assert ScopeOk(s, id);
      UncancelledUnawaited(s, id);
    }
  }

  /** Nothing but verdicts came, and those claim nothing or are for a request that was never sent. */
  lemma ClaimlessHonest(s: System, t: System)
    requires t.agent == s.agent && t.log == s.log
    requires forall id :: id in t.host.verdicts && id !in s.host.verdicts ==>
      t.host.verdicts[id].Unwritten? || t.host.verdicts[id].TransportClosed?
      || (t.host.verdicts[id].Aborted? && id !in s.agent.scopes)
    ensures NewHonest(s, t)
  {
  }

  lemma AskHonest(s: System, e: Event)
    requires Inv(s) && Enabled(s, e) && (e.Ask? || e.AskThrows? || e.AskAlreadyAborted?)
    ensures NewHonest(s, HostStep(s, e))
  {
    FreshNowhere(s, e.id);
    assert e.id in s.agent.scopes ==> ScopeOk(s, e.id);
    if e.AskThrows? { ThrownAsk(s, e.id, e.verb, e.code); }
    ClaimlessHonest(s, HostStep(s, e));
  }

  lemma ClosedVerdicts(h: Host, code: string)
    ensures forall id :: id in Close(h).verdicts && id !in h.verdicts ==> Close(h).verdicts[id].TransportClosed?
    ensures forall id :: id in StdinFailed(h, code).verdicts && id !in h.verdicts ==>
      StdinFailed(h, code).verdicts[id].Unwritten? || StdinFailed(h, code).verdicts[id].TransportClosed?
  {
  }

  /** Without a message the host settles only with verdicts that claim nothing, or
      before anything was sent. */
  lemma UntoldHonest(s: System, e: Event)
    requires Inv(s) && Enabled(s, e) && AtHost(e) && !e.TakeMessage?
    ensures NewHonest(s, HostStep(s, e))
  {
    if e.Ask? || e.AskThrows? || e.AskAlreadyAborted? {
      AskHonest(s, e);
    } else {
      HostGrows(s, e);
      SettlesNobody(s, e);
      ClosedVerdicts(s.host, if e.StdinFails? then e.code else "");
      ClaimlessHonest(s, HostStep(s, e));
    }
  }

  lemma AckVerdicts(h: Host, target: Id, p: Payload, x: Id)
    requires x in HandleAck(h, target, p).verdicts && x !in h.verdicts
    ensures x == target && p.Ok?
    ensures HandleAck(h, target, p).verdicts[x].Aborted? || HandleAck(h, target, p).verdicts[x].HostRejected?
  {
  }

  lemma ReadVerdicts(h: Host, id: Id, e: Entry, p: Payload, outcome: Option<Receipt>)
    requires e.RequestEntry?
    ensures HandleRead(h, id, e, p, outcome).verdicts.Keys <= h.verdicts.Keys + {id}
  {
  }

  lemma ReplyVerdicts(h: Host, m: Message, x: Id)
    requires IsRequest(h, m.id) && x in Handle(h, m).verdicts && x !in h.verdicts
    ensures x == m.id
  {
    var e := h.pending[m.id];
    ReadVerdicts(Clear(h, m.id), m.id, e, m.payload,
      if m.payload.Ok? then Read(m.payload.result.requestOutcome, m.id, e.verb, Some(m.payload.result.body)) else None);
  }

  lemma AckHonest(s: System, t: System, m: Message)
    requires Inv(s) && Inv(t) && Honest(s) && Took(s, t) && m == s.log[s.taken]
    requires m.id in s.host.pending && s.host.pending[m.id].CancelEntry? && t.host == Handle(s.host, m)
    ensures NewHonest(s, t)
  {
    assert EntryOk(s, m.id) && MessageQ(s, s.taken);
    forall x | x in t.host.verdicts && x !in s.host.verdicts ensures SettledQ(t, x) {
      AckVerdicts(Clear(s.host, m.id), s.host.pending[m.id].target, m.payload, x);
      assert SettledOk(t, x);
    }
  }

  lemma OwnReplyHonest(s: System, t: System, m: Message)
    requires Inv(s) && Inv(t) && Honest(s) && Took(s, t) && m == s.log[s.taken]
    requires IsRequest(s.host, m.id) && t.host == Handle(s.host, m)
    ensures NewHonest(s, t)
  {
    assert EntryOk(s, m.id) && MessageQ(s, s.taken) && Lowered(s, m.id);
    ReplyKeepsHost(s, t);
    assert SettledOk(t, m.id);
    assert VerdictOk(s, m.id, t.host.verdicts[m.id]);
    ReplyHonest(s, m.id, s.host.pending[m.id], m.payload);
    forall x | x in t.host.verdicts && x !in s.host.verdicts ensures SettledQ(t, x) {
      ReplyVerdicts(s.host, m, x);
    }
  }

  lemma TakeHonest(s: System, t: System)
    requires Inv(s) && Inv(t) && Honest(s) && Took(s, t) && t.host == Handle(s.host, s.log[s.taken])
    ensures NewHonest(s, t)
  {
    var m := s.log[s.taken];
    if m.id in s.host.pending {
      if s.host.pending[m.id].CancelEntry? { AckHonest(s, t, m); } else { OwnReplyHonest(s, t, m); }
    }
  }

  // ---------- every event ----------

  lemma HearGrows(s: System, t: System)
    requires AgentInv(s) && s.heard < |s.calls| && t == AgentStep(s, HearCall)
    ensures t.issued == s.issued && t.log == s.log
    ensures forall id :: id in t.agent.scopes && id !in s.agent.scopes ==> !Heard(s, id) && id in s.askedAt
  {
    Unheard(s);
    if s.calls[s.heard].Request? { HearRequestSilent(s); }
  }

  lemma StepGrows(s: System, e: Event)
    requires Inv(s) && Enabled(s, e)
    ensures var t := Step(s, e);
      && (forall id :: id in s.issued ==> id in t.issued && t.issued[id] == s.issued[id])
      && (forall id :: id in t.agent.scopes && id !in s.agent.scopes ==> !Heard(s, id) && id in s.askedAt)
      && s.log <= t.log
  {
    if AtHost(e) {
      HostGrows(s, e);
    } else if e.CustodyFinalized? {
      FinalizeSent(s, e);
    } else if e.HearCall? {
      HearGrows(s, Step(s, e));
    }
  }

  lemma CancelledGrows(s: System, id: Id, c: Id, host: Host, throws: bool)
    requires IsRequest(s.host, id) && c !in s.issued
    ensures var t := Cancelled(s, id, c, host, throws);
      && (forall x :: x in s.issued ==> x in t.issued && t.issued[x] == s.issued[x])
      && t.agent == s.agent && t.log == s.log
  {
  }

  lemma HostGrows(s: System, e: Event)
    requires Enabled(s, e) && AtHost(e)
    ensures var t := HostStep(s, e);
      && (forall id :: id in s.issued ==> id in t.issued && t.issued[id] == s.issued[id])
      && t.agent == s.agent && t.log == s.log
  {
    if e.DeadlinePasses? {
      CancelledGrows(s, e.id, e.cancelId, Deadline(s.host, e.id, e.cancelId), e.throws);
    } else if e.SignalAborts? {
      CancelledGrows(s, e.id, e.cancelId, Abort(s.host, e.id, e.cancelId), e.throws);
    }
  }

  lemma StepOnward(s: System, e: Event)
    requires Inv(s) && Accounted(s) && Enabled(s, e)
    ensures Onward(s, Step(s, e))
  {
    StepGrows(s, e);
    StepAccounts(s, e);
    forall id | Done(s, id) ensures DoneSame(s, Step(s, e), id) { StepDone(s, e, id); }
  }

  lemma HearRequestHonest(s: System, t: System)
    requires HearsNext(s, t) && s.calls[s.heard].Request?
    requires var q := s.calls[s.heard]; t.agent == ReceiveRequest(s.agent, q.id, q.verb, q.apply).0
    ensures NewHonest(s, t)
  {
  }

  lemma HeardShape(s: System, t: System)
    requires AgentInv(s) && s.heard < |s.calls| && t == AgentStep(s, HearCall)
    ensures HearsNext(s, t)
    ensures var q := s.calls[s.heard];
      t.agent == if q.Request? then ReceiveRequest(s.agent, q.id, q.verb, q.apply).0 else ReceiveCancel(s.agent, q.id, q.target)
  {
    if s.calls[s.heard].Request? { HearRequestSilent(s); }
  }

  lemma HearHonest(s: System, t: System)
    requires Inv(s) && Honest(s) && s.heard < |s.calls| && t == AgentStep(s, HearCall)
    ensures NewHonest(s, t)
  {
    HeardShape(s, t);
    if s.calls[s.heard].Request? { HearRequestHonest(s, t); } else { HearCancelHonest(s, t); }
  }

  lemma FinalizeEventHonest(s: System, e: Event)
    requires Inv(s) && Enabled(s, e) && e.CustodyFinalized?
    ensures NewHonest(s, Step(s, e))
  {
    FinalizeSent(s, e);
    assert ScopeOk(s, e.id);
    FinalClaims(s.agent.scopes[e.id], e.id, e.quiesced);
    FinalizeHonest(s, Step(s, e), e.id, e.quiesced);
  }

  lemma AgentStepHonest(s: System, e: Event)
    requires Inv(s) && Honest(s) && Enabled(s, e) && !AtHost(e) && !InHandler(e) && Onward(s, Step(s, e))
    ensures NewHonest(s, Step(s, e))
  {
    var t := Step(s, e);
    match e
    case HearCall => HearHonest(s, t);
    case CustodyFinalized(_, _) => FinalizeEventHonest(s, e);
    case PlainHandlerEnds(id, body, error) =>
      assert PlainOk(s, id);
      PlainEndHonest(s, t, id, body, error);
    case CancelResumes(c, terminated) => ResumeHonest(s, t, c, terminated);
    case CancelAnswers(c) => AnswerHonest(s, t, c);
  }

  /** Every event keeps what is said about quiescence true. */
  lemma StepHonest(s: System, e: Event)
    requires Inv(s) && Accounted(s) && Honest(s) && Enabled(s, e)
    ensures Honest(Step(s, e))
  {
    StepOnward(s, e);
    if AtHost(e) {
      if e.TakeMessage? {
        StepKeeps(s, e);
        TakeHonest(s, Step(s, e));
      } else {
        UntoldHonest(s, e);
      }
    } else if !InHandler(e) {
      AgentStepHonest(s, e);
    }
    OldHonest(s, Step(s, e));
  }

  // ---------- runs ----------

  lemma {:induction false} RunHonest(run: seq<System>, i: nat)
    requires IsRun(run) && i < |run|
    ensures Honest(run[i])
  {
    if i > 0 {
      RunInv(run, i - 1);
      RunHonest(run, i - 1);
      assert Next(run[i - 1], run[i - 1 + 1]);
      var e :| Enabled(run[i - 1], e) && run[i] == Step(run[i - 1], e);
      StepHonest(run[i - 1], e);
    }
  }

  /** The quiescence a verdict claims. */
  function Claimed(v: Verdict): bool { if v.AgentFailed? then v.quiesced else true }

  /** What one state owes a caller it has told about quiescence. */
  ghost predicate Truthful(s: System, id: Id, v: Verdict) {
    if id in s.agent.scopes then
      var c := s.agent.scopes[id];
      && c.progress.Completed? && c.found == Claimed(v)
      && (c.quiesced ==> c.found) && (v.Aborted? ==> c.quiesced)
      && (c.found && !c.quiesced ==> c.cancelled && c.outcome.Some?)
    else v.AgentFailed? ==> !v.quiesced
  }

  lemma VerdictTruthful(s: System, id: Id)
    requires Inv(s) && Honest(s) && id in s.host.verdicts
    requires !s.host.verdicts[id].Unwritten? && !s.host.verdicts[id].TransportClosed?
    ensures Truthful(s, id, s.host.verdicts[id])
  {
    assert SettledQ(s, id) && Lowered(s, id);
    assert id in s.agent.scopes ==> ScopeOk(s, id);
  }

  /** A caller settled by a message is told, then and for good, what finalizing the
      request's processes found: an abort, a result and a refused result claim that they
      were quiesced, an error claims what its flag says. After an abort the scope's own
      quiescence stays true as well; otherwise only a cancel that found the outcome
      decided can have lowered it since. */
  lemma QuiescenceIsTold(run: seq<System>, i: nat, j: nat, id: Id)
    requires IsRun(run) && i <= j < |run| && id in run[i].host.verdicts
    requires !run[i].host.verdicts[id].Unwritten? && !run[i].host.verdicts[id].TransportClosed?
    ensures Truthful(run[j], id, run[i].host.verdicts[id])
  {
    RunInv(run, j);
    RunHonest(run, j);
    VerdictStays(run, i, j, id);
    VerdictTruthful(run[j], id);
  }
}
