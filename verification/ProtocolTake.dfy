/** The host takes a message: an honest agent never drives it into a defensive branch. */
module ProtocolTake {
  import opened Json
  import opened Outcome
  import opened Wrappers
  import opened Wire
  import opened HostState
  import opened AgentState
  import opened Protocol
  import opened ProtocolFrames
  import opened ProtocolHost

  /** The host has read one more message. */
  ghost predicate Took(s: System, t: System) {
    s.taken < |s.log| && t == s.(host := t.host, taken := s.taken + 1)
  }

  lemma TakenOne(s: System, t: System)
    requires Took(s, t) && Indexed(s)
    ensures forall x :: Taken(t, x) ==> Taken(s, x) || x == s.log[s.taken].id
    ensures forall x :: Taken(s, x) ==> Taken(t, x)
    ensures Taken(t, s.log[s.taken].id) && s.sentAt[s.log[s.taken].id] == s.taken
  {
  }

  // ---------- what the host reads in a reply ----------

  /** The receipt of a finished scope, read in an error object. */
  lemma ReadInError(s: System, id: Id)
    requires id in s.agent.scopes && ScopeOk(s, id) && RequestId(id) && s.agent.scopes[id].progress.Completed?
    ensures var c := s.agent.scopes[id];
      Read(c.outcome, id, c.verb, None)
        == if c.phase == CommitFailed && !PublicCode(FailureCode(c.failure)) then None else c.outcome
  {
    var c := s.agent.scopes[id];
    if c.phase == Committed {
      OwnReceiptRead(c.outcome.value, None);
    } else if c.phase == CommitFailed {
      FailedAccepted(id, c.verb, c.failure, None);
      FailureCodeShape(c.failure);
    }
  }

  /** The receipt of a committed scope, read in the result it was written for. */
  lemma ReadInResult(s: System, id: Id)
    requires id in s.agent.scopes && ScopeOk(s, id) && RequestId(id) && s.agent.scopes[id].phase == Committed
    ensures var c := s.agent.scopes[id];
      Read(c.outcome, id, c.verb, Some(Transport(c.committedBody)))
        == if NoUndefined(c.committedBody) then c.outcome else None
    ensures s.agent.scopes[id].outcome.value.committed
  {
    var c := s.agent.scopes[id];
    CommittedAccepted(id, c.verb, c.outcome.value.retained, c.committedBody);
  }

  /** The verdict a reply leads to. */
  function ReplyVerdict(id: Id, e: Entry, p: Payload): Verdict
    requires e.RequestEntry?
  {
    ReadVerdict(id, e, p, if p.Ok? then Read(p.result.requestOutcome, id, e.verb, Some(p.result.body)) else None)
  }

  function ReadVerdict(id: Id, e: Entry, p: Payload, outcome: Option<Receipt>): Verdict
    requires e.RequestEntry?
  {
    if p.Err? then Failed(p.error, id, e)
    else if p.result.requestOutcome.Some? && outcome.None? then HostRejected(InvalidOutcome, None)
    else if e.abortRequested && !(outcome.Some? && outcome.value.committed) then Aborted(e.timeoutTriggered, true, true)
    else Resolved(p.result.body, outcome)
  }

  lemma ReplyTruthful(s: System, id: Id, e: Entry, p: Payload)
    requires e.RequestEntry? && RequestId(id) && Heard(s, id) && ReplyOk(s, id, p)
    requires id in s.agent.scopes ==> ScopeOk(s, id) && e.verb == s.agent.scopes[id].verb
    ensures VerdictOk(s, id, ReplyVerdict(id, e, p))
  {
    if id in s.agent.scopes {
      var c := s.agent.scopes[id];
      if p.Err? {
        ReadInError(s, id);
      } else if c.phase == Committed {
        ReadInResult(s, id);
      }
    }
  }

  // ---------- the three cases ----------

  /** Nobody waits for the message. */
  lemma UnmatchedKeepsHost(s: System, t: System)
    requires Inv(s) && Took(s, t) && t.host == s.host && s.log[s.taken].id !in s.host.pending
    ensures HostInv(t)
  {
    TakenOne(s, t);
    var m := s.log[s.taken];
    forall id | IsRequest(s.host, id) && s.host.pending[id].cancelId == Some(m.id) ensures s.cancelLost {
      assert EntryOk(s, id);
      assert !s.cancelLost ==> Tracked(s, id);
    }
    assert Touches(s, t, {});
    HostInvTouched(s, t, {});
  }

  /** A reply settles its request and takes its cancel record along. */
  lemma ReplyKeepsHost(s: System, t: System)
    requires Inv(s) && Took(s, t) && IsRequest(s.host, s.log[s.taken].id) && t.host == Handle(s.host, s.log[s.taken])
    ensures HostInv(t)
    ensures var m := s.log[s.taken];
      m.id in t.host.verdicts && t.host.verdicts[m.id] == ReplyVerdict(m.id, s.host.pending[m.id], m.payload)
  {
    var m := s.log[s.taken];
    var e := s.host.pending[m.id];
    var v := ReplyVerdict(m.id, e, m.payload);
    assert EntryOk(s, m.id) && MessageOk(s, s.taken) && IssueOk(s, m.id);
    assert m.id in s.agent.scopes ==> ScopeOk(s, m.id);
    TakenOne(s, t);
    ReplyTruthful(s, m.id, e, m.payload);
    VerdictSame(s, t, m.id, v);
    assert s.host.pending[m.id].cancelId.Some? ==> CancelOk(s, m.id);
    ReplyLeaves(s, t, m.id, e, m.payload,
      if m.payload.Ok? then Read(m.payload.result.requestOutcome, m.id, e.verb, Some(m.payload.result.body)) else None);
    LeavingKeepsHost(s, t, m.id, v, m.id);
  }

  lemma ReplyLeaves(s: System, t: System, id: Id, e: Entry, p: Payload, outcome: Option<Receipt>)
    requires IsRequest(s.host, id) && e == s.host.pending[id] && (p.Err? ==> outcome.None?)
    requires t.host == HandleRead(Clear(s.host, id), id, e, p, outcome)
    requires !e.clientSettled && e.committedReceipt.None? && id !in s.host.verdicts
    requires e.abortRequested <==> e.cancelId.Some?
    requires e.abortRequested || p.Err? || p.result.requestOutcome.None? || e.cancelId.None?
    ensures Leaves(s, t, id, ReadVerdict(id, e, p, outcome))
  {
  }

  /** An acknowledgement settles its target as aborted, or leaves its error there. */
  lemma AckKeepsHost(s: System, t: System)
    requires Inv(s) && Took(s, t) && t.host == Handle(s.host, s.log[s.taken])
    requires s.log[s.taken].id in s.host.pending && s.host.pending[s.log[s.taken].id].CancelEntry?
    ensures HostInv(t)
  {
    var m := s.log[s.taken];
    var id := s.host.pending[m.id].target;
    assert EntryOk(s, m.id) && MessageOk(s, s.taken) && EntryOk(s, id) && IssueOk(s, m.id);
    TakenOne(s, t);
    SoleCancel(s, id, m.id);
    if m.payload.Ok? {
      AckSettles(s, t, m, id);
    } else {
      AckErrorKeepsHost(s, t, m, id);
    }
  }

  lemma AckSettles(s: System, t: System, m: Message, id: Id)
    requires HostInv(s) && IssuesOk(s) && Took(s, t) && m == s.log[s.taken]
    requires m.id in s.host.pending && s.host.pending[m.id].CancelEntry? && s.host.pending[m.id].target == id
    requires IsRequest(s.host, id) && EntryOk(s, id) && s.host.pending[id].cancelId == Some(m.id)
    requires ScopesOk(s) && AckOk(s, id, m.payload) && m.payload.Ok? && t.host == Handle(s.host, m)
    requires s.agent.scopes[id].outcome.Some? ==> Taken(s, id)
    requires forall x :: Taken(t, x) ==> Taken(s, x) || x == m.id
    requires forall x :: Taken(s, x) ==> Taken(t, x)
    ensures HostInv(t)
    ensures id in t.host.verdicts && t.host.verdicts[id].Aborted?
  {
    assert ScopeOk(s, id);
    var v := Aborted(s.host.pending[id].timeoutTriggered, true, true);
    assert Leaves(s, t, id, v);
    assert VerdictOk(t, id, v);
    LeavingKeepsHost(s, t, id, v, m.id);
  }

  lemma AckErrorTouches(s: System, t: System, m: Message, id: Id, e: Entry)
    requires m.id in s.host.pending && s.host.pending[m.id].CancelEntry? && s.host.pending[m.id].target == id
    requires IsRequest(s.host, id) && e.RequestEntry?
    requires t.host == s.host.(pending := (s.host.pending - {m.id})[id := e])
    requires t.sentAt == s.sentAt && t.askedAt == s.askedAt && t.cancelOf == s.cancelOf
    requires forall x :: Taken(t, x) ==> Taken(s, x) || x == m.id
    requires forall x :: Taken(s, x) ==> Taken(t, x)
    requires forall x :: IsRequest(s.host, x) && x != id && s.host.pending[x].cancelId.Some? ==>
      s.host.pending[x].cancelId != Some(m.id)
    ensures Touches(s, t, {m.id, id})
  {
  }

  lemma AckErrorKeepsHost(s: System, t: System, m: Message, id: Id)
    requires HostInv(s) && Indexed(s) && IssuesOk(s) && Took(s, t) && m == s.log[s.taken]
    requires m.id in s.host.pending && s.host.pending[m.id].CancelEntry? && s.host.pending[m.id].target == id
    requires IsRequest(s.host, id) && EntryOk(s, id) && s.host.pending[id].cancelId == Some(m.id)
    requires m.payload.Err? && t.host == Handle(s.host, m)
    requires s.sentAt[m.id] == s.taken
    requires forall x :: Taken(t, x) ==> Taken(s, x) || x == m.id
    requires forall x :: Taken(s, x) ==> Taken(t, x)
    ensures HostInv(t)
  {
    CancelIdsApart(s, id);
    AckErrorTouches(s, t, m, id, t.host.pending[id]);
    assert EntryOk(t, id);
    if !s.cancelLost {
      assert Tracked(s, id);
      assert Tracked(t, id);
    }
    assert m.id in s.host.verdicts ==> SettledOk(s, m.id);
    HostInvTouched(s, t, {m.id, id});
  }

  lemma TakeKeepsHost(s: System, t: System)
    requires Inv(s) && Took(s, t) && t.host == Handle(s.host, s.log[s.taken])
    ensures HostInv(t)
  {
    if s.log[s.taken].id !in s.host.pending {
      UnmatchedKeepsHost(s, t);
    } else if s.host.pending[s.log[s.taken].id].CancelEntry? {
      AckKeepsHost(s, t);
    } else {
      ReplyKeepsHost(s, t);
    }
  }
}
