/** Agent events keep the invariant. */
module ProtocolAgent {
  import opened Json
  import opened Outcome
  import opened Wrappers
  import opened Wire
  import opened HostState
  import opened AgentState
  import opened Protocol
  import opened ProtocolFrames

  // ---------- all ids but a few ----------

  /** An agent event that touches only the ids in `few`. */
  ghost predicate Works(s: System, t: System, few: set<Id>) {
    && AgentGrows(s, t) && t.calls == s.calls
    && (forall id :: Heard(t, id) && id !in few ==> Heard(s, id))
    && (forall id :: id in t.sentAt && id !in few ==> id in s.sentAt)
    && (forall id :: id in t.agent.scopes && id !in few ==>
        id in s.agent.scopes && SameButQuiesced(s.agent.scopes[id], t.agent.scopes[id]))
    && (forall id :: id in s.agent.scopes && s.agent.scopes[id].cancelled ==> t.agent.scopes[id].cancelled)
    && (forall id :: id in t.agent.plain && id !in few ==> id in s.agent.plain)
    && (forall id :: id in s.agent.plain && id !in few ==> id in t.agent.plain)
    && (forall c :: c in t.agent.jobs && c !in few ==> c in s.agent.jobs && t.agent.jobs[c] == s.agent.jobs[c])
    && (forall c :: c in s.agent.jobs && c !in few ==> c in t.agent.jobs)
  }

  /** The touched ids, the new message and the new completion are right afterwards. */
  ghost predicate FewWork(s: System, t: System, few: set<Id>) {
    && (forall id {:trigger ScopeOk(t, id)} :: id in few && id in t.agent.scopes ==> ScopeOk(t, id))
    && (forall id {:trigger PlainOk(t, id)} :: id in few && id in t.agent.plain ==> PlainOk(t, id))
    && (forall id {:trigger HeardOk(t, id)} :: id in few && Heard(t, id) && id in t.issued ==> HeardOk(t, id))
    && (forall c {:trigger JobOk(t, c)} :: c in few && c in t.agent.jobs ==> JobOk(t, c))
    && (forall f {:trigger RecentOk(t, f)} :: f in t.agent.recent && f !in s.agent.recent ==> RecentOk(t, f))
    && (forall i: nat {:trigger MessageOk(t, i)} :: |s.log| <= i < |t.log| ==> MessageOk(t, i))
  }

  lemma ScopesWork(s: System, t: System, few: set<Id>)
    requires ScopesOk(s) && Works(s, t, few) && FewWork(s, t, few)
    ensures ScopesOk(t)
  {
    forall id | id in t.agent.scopes ensures ScopeOk(t, id) {
      if id !in few {
        assert ScopeOk(s, id);
        ScopeFrame(s, t, id);
      } else {
        assert ScopeOk(t, id);
      }
    }
  }

  lemma PlainsWork(s: System, t: System, few: set<Id>)
    requires PlainsOk(s) && Works(s, t, few) && FewWork(s, t, few)
    ensures PlainsOk(t)
  {
    forall id | id in t.agent.plain ensures PlainOk(t, id) {
      if id !in few {
        assert PlainOk(s, id);
        PlainFrame(s, t, id);
      } else {
        assert PlainOk(t, id);
      }
    }
  }

  lemma HeardWork(s: System, t: System, few: set<Id>)
    requires AllHeardOk(s) && Works(s, t, few) && FewWork(s, t, few)
    ensures AllHeardOk(t)
  {
    forall id | Heard(t, id) && id in t.issued ensures HeardOk(t, id) {
      if id !in few {
        assert HeardOk(s, id);
        HeardFrame(s, t, id);
      } else {
        assert HeardOk(t, id);
      }
    }
  }

  lemma JobsWork(s: System, t: System, few: set<Id>)
    requires Indexed(s) && IssuesOk(s) && JobsOk(s) && Works(s, t, few) && FewWork(s, t, few)
    ensures JobsOk(t)
  {
    forall c | c in t.agent.jobs ensures JobOk(t, c) {
      if c !in few {
        assert JobOk(s, c);
        TargetHeard(s, c);
        JobFrame(s, t, c);
      } else {
        assert JobOk(t, c);
      }
    }
  }

  lemma RecentsWork(s: System, t: System, few: set<Id>)
    requires RecentsOk(s) && Works(s, t, few) && FewWork(s, t, few)
    ensures RecentsOk(t)
  {
    forall f | f in t.agent.recent ensures RecentOk(t, f) {
      assert if f in s.agent.recent then RecentOk(s, f) else RecentOk(t, f);
    }
  }

  lemma LogWork(s: System, t: System, few: set<Id>)
    requires Indexed(s) && IssuesOk(s) && LogOk(s) && Works(s, t, few) && FewWork(s, t, few)
    ensures LogOk(t)
  {
    forall i: nat | i < |t.log| ensures MessageOk(t, i) {
      if i < |s.log| {
        assert MessageOk(s, i);
        MessageFrame(s, t, i);
      } else {
        assert MessageOk(t, i);
      }
    }
  }

  lemma IssuesWork(s: System, t: System)
    requires IssuesOk(s)
    requires t.issued == s.issued && t.cancelOf == s.cancelOf && t.askedAt == s.askedAt && t.calls == s.calls
    ensures IssuesOk(t)
  {
    forall x | x in t.askedAt && t.askedAt[x] < |t.calls| ensures CallOk(t, x) { assert CallOk(s, x); }
    forall x | x in t.issued ensures IssueOk(t, x) { assert IssueOk(s, x); }
    forall x | x in t.cancelOf ensures CancelOk(t, x) { assert CancelOk(s, x); }
  }

  lemma WorkKeeps(s: System, t: System, few: set<Id>)
    requires Inv(s) && Indexed(t) && Works(s, t, few) && FewWork(s, t, few)
    ensures Inv(t)
  {
    IssuesWork(s, t);
    ScopesWork(s, t, few);
    PlainsWork(s, t, few);
    HeardWork(s, t, few);
    JobsWork(s, t, few);
    RecentsWork(s, t, few);
    LogWork(s, t, few);
    HostFrame(s, t);
  }

  // ---------- inside a running handler ----------

  lemma RunningScopeWorks(s: System, t: System, id: Id, c: Scope)
    requires Handling(s, id) && t == WithScope(s, id, c)
    requires c.cancelled == s.agent.scopes[id].cancelled
    ensures Works(s, t, {id})
  {
  }

  /** A running scope moves on without completing. */
  lemma RunningScopeKeeps(s: System, t: System, id: Id, c: Scope)
    requires Inv(s) && Handling(s, id) && t == WithScope(s, id, c)
    requires c.cancelled == s.agent.scopes[id].cancelled && c.verb == s.agent.scopes[id].verb
    requires c.policy == s.agent.scopes[id].policy && !c.progress.Completed? && PhaseOk(id, c)
    ensures Inv(t)
  {
    RunningScopeWorks(s, t, id, c);
    assert ScopeOk(s, id);
    RequestIdAlone(s, id);
    RunningScopeFew(s, t, id, c);
    WorkKeeps(s, t, {id});
  }

  /** A scope's id is no plain request's and no cancel's. */
  lemma RequestIdAlone(s: System, id: Id)
    requires PlainsOk(s) && JobsOk(s) && id in s.agent.scopes && ScopeOk(s, id)
    ensures id !in s.agent.plain && id !in s.agent.jobs
  {
    assert id in s.agent.jobs ==> JobOk(s, id);
    assert id in s.agent.plain ==> PlainOk(s, id);
  }

  lemma RunningScopeFew(s: System, t: System, id: Id, c: Scope)
    requires Handling(s, id) && t == WithScope(s, id, c) && ScopeOk(s, id)
    requires id !in s.agent.plain && id !in s.agent.jobs
    requires c.cancelled == s.agent.scopes[id].cancelled && c.verb == s.agent.scopes[id].verb
    requires c.policy == s.agent.scopes[id].policy && !c.progress.Completed? && PhaseOk(id, c)
    ensures FewWork(s, t, {id})
  {
    assert ScopeOk(t, id);
  }

  lemma HandlerKeepsPhase(c: Scope, e: Event)
    requires InHandler(e) && PhaseOk(e.id, c) && c.progress.Running?
    requires e.CompleteCommit? || e.HandlerReturns? ==> e.body.Obj?
    requires e.HandlerReturns? ==> c.phase != Commit
    ensures var d := Handled(c, e);
      && PhaseOk(e.id, d)
      && d.cancelled == c.cancelled && d.verb == c.verb && d.policy == c.policy && !d.progress.Completed?
  {
  }

  // ---------- hearing a call ----------

  /** The next call's id has not been acted on. */
  lemma Unheard(s: System)
    requires AgentInv(s) && s.heard < |s.calls|
    ensures var id := s.calls[s.heard].id;
      && id in s.askedAt && s.askedAt[id] == s.heard && !Heard(s, id)
      && id !in s.agent.scopes && id !in s.agent.plain && id !in s.agent.jobs && id !in s.sentAt
      && CallOk(s, id) && IssueOk(s, id)
    ensures forall x :: x in s.askedAt && s.askedAt[x] < s.heard + 1 ==> Heard(s, x) || x == s.calls[s.heard].id
  {
    var id := s.calls[s.heard].id;
    assert CallOk(s, id) && IssueOk(s, id);
    assert id in s.agent.scopes ==> ScopeOk(s, id);
    assert id in s.agent.plain ==> PlainOk(s, id);
    assert id in s.agent.jobs ==> JobOk(s, id);
    assert id in s.sentAt ==> MessageOk(s, s.sentAt[id]);
  }

  ghost predicate HearsNext(s: System, t: System) {
    s.heard < |s.calls| && t == s.(agent := t.agent, heard := s.heard + 1)
  }

  lemma HearRequestKeeps(s: System, t: System)
    requires Inv(s) && HearsNext(s, t) && s.calls[s.heard].Request?
    requires var q := s.calls[s.heard]; ReceiveRequest(s.agent, q.id, q.verb, q.apply) == (t.agent, [])
    ensures Inv(t)
  {
    var q := s.calls[s.heard];
    Unheard(s);
    var policy := PolicyOf(q.verb, q.apply);
    if policy == Unsupported {
      PlainStarts(s, t, q.id);
    } else {
      ScopeStarts(s, t, q.id, q.verb, policy);
    }
    WorkKeeps(s, t, {q.id});
  }

  /** The agent's own test for duplicate ids never fires. */
  lemma HearRequestSilent(s: System)
    requires AgentInv(s) && s.heard < |s.calls| && s.calls[s.heard].Request?
    ensures var q := s.calls[s.heard]; ReceiveRequest(s.agent, q.id, q.verb, q.apply).1 == []
  {
    Unheard(s);
  }

  /** The call under `id` is the next one; only ids in `few` get a scope, a plain handler or a job. */
  ghost predicate HearsOnly(s: System, t: System, id: Id) {
    && HearsNext(s, t) && id in s.askedAt && s.askedAt[id] == s.heard
    && (forall x :: x in s.askedAt && s.askedAt[x] < s.heard + 1 ==> Heard(s, x) || x == id)
  }

  lemma PlainStarts(s: System, t: System, id: Id)
    requires HearsOnly(s, t, id) && t.agent == s.agent.(plain := s.agent.plain + {id})
    requires id in s.issued && s.issued[id].Asked? && PolicyOf(s.issued[id].verb, s.issued[id].apply) == Unsupported
    requires id !in s.agent.scopes && id !in s.agent.jobs && id !in s.sentAt
    ensures Works(s, t, {id}) && FewWork(s, t, {id})
  {
    PlainStartWorks(s, t, id);
    assert PlainOk(t, id);
  }

  lemma PlainStartWorks(s: System, t: System, id: Id)
    requires HearsOnly(s, t, id) && t.agent == s.agent.(plain := s.agent.plain + {id})
    ensures Works(s, t, {id})
  {
  }

  lemma ScopeStartWorks(s: System, t: System, id: Id, c: Scope)
    requires HearsOnly(s, t, id) && t.agent == s.agent.(scopes := s.agent.scopes[id := c])
    requires id !in s.agent.scopes
    ensures Works(s, t, {id})
  {
  }

  lemma ScopeStarts(s: System, t: System, id: Id, verb: string, policy: Policy)
    requires HearsOnly(s, t, id) && t.agent == s.agent.(scopes := s.agent.scopes[id := NewScope(verb, policy)])
    requires id in s.issued && s.issued[id].Asked? && s.issued[id].verb == verb
    requires policy == PolicyOf(verb, s.issued[id].apply) && policy != Unsupported
    requires id !in s.agent.scopes && id !in s.agent.plain && id !in s.agent.jobs && id !in s.sentAt
    ensures Works(s, t, {id}) && FewWork(s, t, {id})
  {
    ScopeStartWorks(s, t, id, NewScope(verb, policy));
    TwoPhaseKind(verb, s.issued[id].apply);
    assert ScopeOk(t, id);
  }

  lemma TwoPhaseKind(verb: string, apply: bool)
    ensures PolicyOf(verb, apply) == TwoPhaseMutation ==> CommitKind(verb).Some?
  {
  }

  /** The scope the cancel names: absent, done without this cancel, or running. */
  lemma CancelTarget(s: System, c: Id)
    requires AgentInv(s) && s.heard < |s.calls| && s.calls[s.heard].CancelRequest? && s.calls[s.heard].id == c
    ensures var id := s.calls[s.heard].target;
      && c in s.issued && s.issued[c] == Cancelling(id) && id != c && id != "" && Heard(s, id)
      && id in s.cancelOf && s.cancelOf[id] == c
      && (id in s.agent.scopes ==> ScopeOk(s, id) && !s.agent.scopes[id].cancelled)
  {
    var id := s.calls[s.heard].target;
    Unheard(s);
    assert IssueOk(s, id);
    assert id in s.agent.scopes ==> ScopeOk(s, id);
  }

  lemma HearCancelKeeps(s: System, t: System)
    requires Inv(s) && HearsNext(s, t) && s.calls[s.heard].CancelRequest?
    requires t.agent == ReceiveCancel(s.agent, s.calls[s.heard].id, s.calls[s.heard].target)
    ensures Inv(t)
  {
    var c, id := s.calls[s.heard].id, s.calls[s.heard].target;
    Unheard(s);
    CancelTarget(s, c);
    var done := Recall(s.agent.recent, id);
    if done.Some? || !Active(s.agent, id) {
      assert done.Some? ==> RecentOk(s, done.value);
      CancelAnsweredAtOnce(s, t, c, id, t.agent.jobs[c].reply);
      WorkKeeps(s, t, {c});
    } else {
      RequestIdAlone(s, id);
      CancelWaits(s, t, c, id);
      WorkKeeps(s, t, {c, id});
    }
  }

  lemma CancelAnsweredAtOnce(s: System, t: System, c: Id, id: Id, p: Payload)
    requires HearsOnly(s, t, c) && t.agent == s.agent.(jobs := s.agent.jobs[c := Ready(p)])
    requires c in s.issued && s.issued[c] == Cancelling(id) && AckOk(s, id, p)
    requires c !in s.agent.scopes && c !in s.agent.plain && c !in s.sentAt
    ensures Works(s, t, {c}) && FewWork(s, t, {c})
  {
    AckFrame(s, t, id, p);
    assert JobOk(t, c);
  }

  lemma CancelWaitWorks(s: System, t: System, c: Id, id: Id)
    requires HearsOnly(s, t, c) && Active(s.agent, id)
    requires t.agent == s.agent.(
      scopes := s.agent.scopes[id := s.agent.scopes[id].(cancelled := true)],
      jobs := s.agent.jobs[c := Waiting(id)])
    ensures Works(s, t, {c, id})
  {
  }

  /** The job waits and its scope is cancelled. */
  ghost predicate Waits(s: System, t: System, c: Id, id: Id) {
    && HearsOnly(s, t, c) && c != id && Active(s.agent, id)
    && t.agent == s.agent.(
      scopes := s.agent.scopes[id := s.agent.scopes[id].(cancelled := true)],
      jobs := s.agent.jobs[c := Waiting(id)])
    && c in s.issued && s.issued[c] == Cancelling(id) && id in s.cancelOf && s.cancelOf[id] == c
    && c !in s.agent.scopes && c !in s.agent.plain && c !in s.sentAt
  }

  lemma CancelWaitOk(s: System, t: System, c: Id, id: Id)
    requires Waits(s, t, c, id) && ScopeOk(s, id)
    ensures ScopeOk(t, id) && JobOk(t, c)
  {
  }

  lemma CancelWaitFew(s: System, t: System, c: Id, id: Id)
    requires Waits(s, t, c, id) && ScopeOk(t, id) && JobOk(t, c) && id !in s.agent.plain && id !in s.agent.jobs
    ensures FewWork(s, t, {c, id})
  {
  }

  lemma CancelWaits(s: System, t: System, c: Id, id: Id)
    requires Waits(s, t, c, id) && ScopeOk(s, id) && id !in s.agent.plain && id !in s.agent.jobs
    ensures Works(s, t, {c, id}) && FewWork(s, t, {c, id})
  {
    CancelWaitWorks(s, t, c, id);
    CancelWaitOk(s, t, c, id);
    CancelWaitFew(s, t, c, id);
  }

  // ---------- sending ----------

  lemma SendIndexed(s: System, a: Agent, m: Message)
    requires Indexed(s) && m.id !in s.sentAt
    ensures Indexed(Send(s.(agent := a), m))
  {
  }

  /** Nothing changed but the agent and at most one message under `id`. */
  ghost predicate Sends(s: System, t: System, id: Id) {
    && t.calls == s.calls && t.heard == s.heard && t.askedAt == s.askedAt
    && t.issued == s.issued && t.cancelOf == s.cancelOf && t.cancelLost == s.cancelLost
    && t.host == s.host && t.taken == s.taken && id !in s.sentAt
    && ((t.log == s.log && t.sentAt == s.sentAt)
        || (|t.log| == |s.log| + 1 && s.log == t.log[..|s.log|] && t.log[|s.log|].id == id
            && t.sentAt == s.sentAt[id := |s.log|]))
  }

  // ---------- a request ends ----------

  lemma FinalizeKeeps(s: System, t: System, id: Id, quiesced: bool)
    requires Inv(s) && id in s.agent.scopes
    requires s.agent.scopes[id].progress.Returned? || s.agent.scopes[id].progress.Threw?
    requires var (a, ms) := Finalize(s.agent, id, quiesced); |ms| <= 1 && t == SendAll(s.(agent := a), ms)
    ensures Inv(t)
  {
    assert ScopeOk(s, id);
    RequestIdAlone(s, id);
    FinalizeSends(s, t, id, quiesced);
    FinalizeWorks(s, t, id, quiesced);
    FinalizeFew(s, t, id, quiesced);
    WorkKeeps(s, t, {id});
  }

  /** One message goes out under the request's id, and none exactly when the
      request was cancelled before it had an outcome. */
  lemma FinalMessagesOk(c: Scope, id: Id, quiesced: bool)
    requires PhaseOk(id, c) && (c.progress.Returned? || c.progress.Threw?)
    ensures var ms := FinalMessages(c, id, quiesced);
      && |ms| <= 1 && (ms == [] <==> c.cancelled && c.outcome.None?)
      && (forall m :: m in ms ==> m.id == id && ReplyOf(c, m.payload))
  {
  }

  lemma AtMostSent(s: System, a: Agent, id: Id, ms: seq<Message>)
    requires Indexed(s) && id !in s.sentAt && |ms| <= 1 && (forall m :: m in ms ==> m.id == id)
    ensures var t := SendAll(s.(agent := a), ms); Indexed(t) && Sends(s, t, id) && t.agent == a && t.log == s.log + ms
  {
    if ms != [] { SendIndexed(s, a, ms[0]); } else { assert s.log + [] == s.log; }
  }

  lemma FinalizeSends(s: System, t: System, id: Id, quiesced: bool)
    requires Indexed(s) && id in s.agent.scopes && ScopeOk(s, id)
    requires s.agent.scopes[id].progress.Returned? || s.agent.scopes[id].progress.Threw?
    requires var (a, ms) := Finalize(s.agent, id, quiesced); |ms| <= 1 && t == SendAll(s.(agent := a), ms)
    ensures Indexed(t) && Sends(s, t, id) && t.agent == Finalize(s.agent, id, quiesced).0
    ensures var c := s.agent.scopes[id];
      && (|t.log| == |s.log| <==> c.cancelled && c.outcome.None?)
      && (|t.log| > |s.log| ==> ReplyOf(c, t.log[|s.log|].payload))
  {
    FinalMessagesOk(s.agent.scopes[id], id, quiesced);
    var (a, ms) := Finalize(s.agent, id, quiesced);
    AtMostSent(s, a, id, ms);
    assert ms != [] ==> t.log[|s.log|] == ms[0] && ms[0] in ms;
  }

  lemma FinalizeWorks(s: System, t: System, id: Id, quiesced: bool)
    requires Sends(s, t, id) && id in s.agent.scopes && !s.agent.scopes[id].progress.Completed?
    requires t.agent == s.agent.(
      scopes := s.agent.scopes[id := s.agent.scopes[id].(quiesced := quiesced, found := quiesced, progress := Completed)],
      recent := t.agent.recent)
    ensures Works(s, t, {id})
  {
  }

  lemma FinalizeOk(s: System, t: System, id: Id, quiesced: bool)
    requires Sends(s, t, id) && id in s.agent.scopes && ScopeOk(s, id)
    requires s.agent.scopes[id].progress.Returned? || s.agent.scopes[id].progress.Threw?
    requires t.agent == Finalize(s.agent, id, quiesced).0
    requires var c := s.agent.scopes[id];
      && (|t.log| == |s.log| <==> c.cancelled && c.outcome.None?)
      && (|t.log| > |s.log| ==> ReplyOf(c, t.log[|s.log|].payload))
    ensures ScopeOk(t, id) && (|t.log| > |s.log| ==> MessageOk(t, |s.log|))
    ensures forall f :: f in t.agent.recent && f !in s.agent.recent ==> RecentOk(t, f)
  {
  }

  lemma FinalizeFew(s: System, t: System, id: Id, quiesced: bool)
    requires Sends(s, t, id) && id in s.agent.scopes && ScopeOk(s, id)
    requires s.agent.scopes[id].progress.Returned? || s.agent.scopes[id].progress.Threw?
    requires id !in s.agent.plain && id !in s.agent.jobs
    requires t.agent == Finalize(s.agent, id, quiesced).0
    requires var c := s.agent.scopes[id];
      && (|t.log| == |s.log| <==> c.cancelled && c.outcome.None?)
      && (|t.log| > |s.log| ==> ReplyOf(c, t.log[|s.log|].payload))
    ensures FewWork(s, t, {id})
  {
    FinalizeOk(s, t, id, quiesced);
    LoneFew(s, t, id);
  }

  /** One scope and its message are right. */
  lemma LoneFew(s: System, t: System, id: Id)
    requires Sends(s, t, id) && t.agent.plain == s.agent.plain && t.agent.jobs == s.agent.jobs
    requires id in t.agent.scopes && ScopeOk(t, id) && id !in s.agent.plain && id !in s.agent.jobs
    requires |t.log| > |s.log| ==> MessageOk(t, |s.log|)
    requires forall f :: f in t.agent.recent && f !in s.agent.recent ==> RecentOk(t, f)
    ensures FewWork(s, t, {id})
  {
  }

  lemma PlainEndKeeps(s: System, t: System, id: Id, body: Json, error: Option<string>)
    requires Inv(s) && id in s.agent.plain
    requires var (a, m) := FinishPlain(s.agent, id, body, error); t == Send(s.(agent := a), m)
    ensures Inv(t)
  {
    assert PlainOk(s, id) && HeardOk(s, id);
    assert id in s.agent.jobs ==> JobOk(s, id);
    var (a, m) := FinishPlain(s.agent, id, body, error);
    SendIndexed(s, a, m);
    PlainEndWorks(s, t, id);
    PlainEndFew(s, t, id);
    WorkKeeps(s, t, {id});
  }

  lemma PlainEndWorks(s: System, t: System, id: Id)
    requires Sends(s, t, id) && t.agent == s.agent.(plain := s.agent.plain - {id})
    ensures Works(s, t, {id})
  {
  }

  lemma PlainEndFew(s: System, t: System, id: Id)
    requires Sends(s, t, id) && t.agent == s.agent.(plain := s.agent.plain - {id})
    requires PlainOk(s, id) && id !in s.agent.scopes && id !in s.agent.jobs
    requires |t.log| == |s.log| + 1 && CarriesNothing(t.log[|s.log|].payload)
    ensures FewWork(s, t, {id})
  {
    assert MessageOk(t, |s.log|);
  }

  // ---------- a cancel job ends ----------

  /** A cancel's id is no request's. */
  lemma CancelIdAlone(s: System, c: Id)
    requires ScopesOk(s) && PlainsOk(s) && c in s.agent.jobs && JobOk(s, c)
    ensures c !in s.agent.scopes && c !in s.agent.plain
  {
    assert c in s.agent.scopes ==> ScopeOk(s, c);
    assert c in s.agent.plain ==> PlainOk(s, c);
  }

  lemma ResumeKeeps(s: System, t: System, c: Id, terminated: bool)
    requires Inv(s) && c in s.agent.jobs && s.agent.jobs[c].Waiting?
    requires s.agent.jobs[c].target in s.agent.scopes && s.agent.scopes[s.agent.jobs[c].target].progress.Completed?
    requires t == s.(agent := Resume(s.agent, c, terminated))
    ensures Inv(t)
  {
    assert JobOk(s, c);
    var id := s.agent.jobs[c].target;
    assert ScopeOk(s, id);
    RequestIdAlone(s, id);
    CancelIdAlone(s, c);
    ResumeWorks(s, t, c, id);
    ResumeFew(s, t, c, id);
    WorkKeeps(s, t, {c, id});
  }

  /** The scope keeps everything but its quiescence, and the job is ready. */
  ghost predicate Resumes(s: System, t: System, c: Id, id: Id) {
    && c in s.agent.jobs && s.agent.jobs[c] == Waiting(id)
    && id in s.agent.scopes && s.agent.scopes[id].progress.Completed?
    && t == s.(agent := s.agent.(scopes := t.agent.scopes, jobs := t.agent.jobs))
    && id in t.agent.scopes && SameButQuiesced(s.agent.scopes[id], t.agent.scopes[id])
    && t.agent.scopes == s.agent.scopes[id := t.agent.scopes[id]]
    && c in t.agent.jobs && t.agent.jobs == s.agent.jobs[c := t.agent.jobs[c]] && t.agent.jobs[c].Ready?
    && AckOk(t, id, t.agent.jobs[c].reply)
  }

  lemma ResumeWorks(s: System, t: System, c: Id, id: Id)
    requires Resumes(s, t, c, id)
    ensures Works(s, t, {c, id})
  {
  }

  lemma ResumeFew(s: System, t: System, c: Id, id: Id)
    requires Resumes(s, t, c, id) && JobOk(s, c) && c !in s.agent.scopes && c !in s.agent.plain && c != id
    requires ScopeOk(s, id) && id !in s.agent.plain && id !in s.agent.jobs
    ensures FewWork(s, t, {c, id})
  {
    ScopeFrame(s, t, id);
    assert JobOk(t, c);
  }

  lemma AnswerKeeps(s: System, t: System, c: Id)
    requires Inv(s) && c in s.agent.jobs && s.agent.jobs[c].Ready?
    requires var (a, m) := Answer(s.agent, c); t == Send(s.(agent := a), m)
    ensures Inv(t)
  {
    assert JobOk(s, c);
    var id := s.issued[c].target;
    assert id in s.agent.scopes ==> ScopeOk(s, id);
    CancelIdAlone(s, c);
    SendIndexed(s, t.agent, t.log[|s.log|]);
    AnswerWorks(s, t, c);
    AnswerFew(s, t, c, id);
    WorkKeeps(s, t, {c});
  }

  lemma AnswerWorks(s: System, t: System, c: Id)
    requires Sends(s, t, c) && t.agent == s.agent.(jobs := s.agent.jobs - {c})
    ensures Works(s, t, {c})
  {
  }

  lemma AnswerFew(s: System, t: System, c: Id, id: Id)
    requires Indexed(s) && c in s.agent.jobs && s.agent.jobs[c].Ready? && JobOk(s, c) && s.issued[c].target == id
    requires id in s.agent.scopes ==> ScopeOk(s, id)
    requires c !in s.agent.scopes && c !in s.agent.plain
    requires Sends(s, t, c) && t.agent == s.agent.(jobs := s.agent.jobs - {c})
    requires |t.log| == |s.log| + 1 && t.log[|s.log|] == Message(c, s.agent.jobs[c].reply)
    ensures FewWork(s, t, {c})
  {
    AckFrame(s, t, id, s.agent.jobs[c].reply);
    assert MessageOk(t, |s.log|);
  }
}
