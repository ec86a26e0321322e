/** What one event leaves alone, id by id. */
module ProtocolFrames {
  import opened Json
  import opened Outcome
  import opened Wrappers
  import opened Wire
  import opened HostState
  import opened AgentState
  import opened Protocol

  /** Ids, calls and messages are only added. */
  ghost predicate Extends(s: System, t: System) {
    && s.heard <= t.heard && s.log <= t.log
    && (forall id :: id in s.issued ==> id in t.issued && t.issued[id] == s.issued[id])
    && (forall id :: id in s.cancelOf ==> id in t.cancelOf && t.cancelOf[id] == s.cancelOf[id])
    && (forall id :: id in s.askedAt ==> id in t.askedAt && t.askedAt[id] == s.askedAt[id])
    && (forall id :: id in s.sentAt ==> id in t.sentAt && t.sentAt[id] == s.sentAt[id])
  }

  /** Nothing happened at the agent; new calls stand after what it has heard. */
  ghost predicate AgentSame(s: System, t: System) {
    && Extends(s, t)
    && t.agent == s.agent && t.log == s.log && t.sentAt == s.sentAt && t.heard == s.heard
    && (forall id :: id in t.askedAt && id !in s.askedAt ==> t.askedAt[id] >= s.heard)
  }

  ghost predicate SameButQuiesced(c: Scope, d: Scope) { d == c.(quiesced := d.quiesced) }

  /** Completed scopes are frozen, and a scope or plain handler starts only for a call not heard before. */
  ghost predicate AgentGrows(s: System, t: System) {
    && Extends(s, t)
    && t.host == s.host && t.taken == s.taken && t.cancelLost == s.cancelLost
    && t.issued == s.issued && t.cancelOf == s.cancelOf && t.askedAt == s.askedAt
    && (forall id :: id in s.agent.scopes ==> id in t.agent.scopes)
    && (forall id :: id in s.agent.scopes && s.agent.scopes[id].progress.Completed? ==>
        SameButQuiesced(s.agent.scopes[id], t.agent.scopes[id]))
    && (forall id :: id in t.agent.scopes && id !in s.agent.scopes ==> !Heard(s, id) && id in s.askedAt)
    && (forall id :: id in t.agent.plain && id !in s.agent.plain ==> !Heard(s, id))
    && (forall id :: id in t.sentAt && id !in s.sentAt ==> t.sentAt[id] >= |s.log|)
  }

  // ---------- agent predicates ----------

  lemma ScopeFrame(s: System, t: System, id: Id)
    requires Extends(s, t) && id in s.agent.scopes && ScopeOk(s, id)
    requires id in t.agent.scopes && SameButQuiesced(s.agent.scopes[id], t.agent.scopes[id])
    requires Sent(s, id) == Sent(t, id)
    ensures ScopeOk(t, id)
  {
  }

  lemma PlainFrame(s: System, t: System, id: Id)
    requires Extends(s, t) && PlainOk(s, id) && !Sent(t, id)
    ensures PlainOk(t, id)
  {
  }

  lemma HeardFrame(s: System, t: System, id: Id)
    requires Extends(s, t) && id in s.issued && HeardOk(s, id)
    requires id in s.agent.scopes <==> id in t.agent.scopes
    requires id in s.agent.plain ==> id in t.agent.plain || Sent(t, id)
    requires id in s.agent.jobs ==> id in t.agent.jobs || Sent(t, id)
    ensures HeardOk(t, id)
  {
  }

  lemma AckFrame(s: System, t: System, target: Id, p: Payload)
    requires AckOk(s, target, p)
    requires target in s.agent.scopes <==> target in t.agent.scopes
    requires target in s.agent.scopes && s.agent.scopes[target].progress.Completed? ==>
      SameButQuiesced(s.agent.scopes[target], t.agent.scopes[target])
    ensures AckOk(t, target, p)
  {
  }

  lemma JobFrame(s: System, t: System, c: Id)
    requires Extends(s, t) && c in s.agent.jobs && JobOk(s, c) && !Sent(t, c)
    requires c in t.agent.jobs && t.agent.jobs[c] == s.agent.jobs[c]
    requires var target := s.issued[c].target;
      && (target in s.agent.scopes <==> target in t.agent.scopes)
      && (target in s.agent.scopes ==>
          (s.agent.scopes[target].cancelled ==> t.agent.scopes[target].cancelled) &&
          (s.agent.scopes[target].progress.Completed? ==>
            SameButQuiesced(s.agent.scopes[target], t.agent.scopes[target])))
    ensures JobOk(t, c)
  {
    if s.agent.jobs[c].Ready? { AckFrame(s, t, s.issued[c].target, s.agent.jobs[c].reply); }
  }

  /** The request a heard cancel names was heard before it. */
  lemma TargetHeard(s: System, c: Id)
    requires Indexed(s) && IssuesOk(s) && Heard(s, c) && c in s.issued && s.issued[c].Cancelling?
    ensures Heard(s, s.issued[c].target)
  {
    assert CallOk(s, c) && IssueOk(s, c);
  }

  lemma MessageFrame(s: System, t: System, i: nat)
    requires Indexed(s) && IssuesOk(s) && i < |s.log| && MessageOk(s, i)
    requires AgentGrows(s, t) || AgentSame(s, t)
    ensures MessageOk(t, i)
  {
    var m := s.log[i];
    assert t.log[i] == m;
    if s.issued[m.id].Cancelling? {
      var target := s.issued[m.id].target;
      TargetHeard(s, m.id);
      AckFrame(s, t, target, m.payload);
    }
  }

  // ---------- host predicates under an agent event ----------

  lemma VerdictFrame(s: System, t: System, id: Id, v: Verdict)
    requires AgentGrows(s, t) && VerdictOk(s, id, v)
    ensures VerdictOk(t, id, v)
  {
  }

  lemma EntryFrame(s: System, t: System, id: Id)
    requires AgentGrows(s, t) && Indexed(s) && id in s.host.pending && EntryOk(s, id)
    ensures EntryOk(t, id)
  {
  }

  lemma TrackedFrame(s: System, t: System, id: Id)
    requires AgentGrows(s, t) && Indexed(s) && IsRequest(s.host, id) && Tracked(s, id)
    ensures Tracked(t, id)
  {
  }

  lemma HostFrame(s: System, t: System)
    requires AgentGrows(s, t) && Indexed(s) && HostInv(s)
    ensures HostInv(t)
  {
    forall id | id in t.host.pending ensures EntryOk(t, id) {
      assert EntryOk(s, id);
      EntryFrame(s, t, id);
    }
    forall id | id in t.host.verdicts ensures SettledOk(t, id) {
      assert SettledOk(s, id);
      VerdictFrame(s, t, id, s.host.verdicts[id]);
    }
    if !t.cancelLost {
      forall id | IsRequest(t.host, id) ensures Tracked(t, id) {
        assert Tracked(s, id);
        TrackedFrame(s, t, id);
      }
    }
  }

  // ---------- agent predicates under a host event ----------

  lemma ScopesSame(s: System, t: System)
    requires AgentSame(s, t) && ScopesOk(s)
    ensures ScopesOk(t)
  {
    forall id | id in t.agent.scopes ensures ScopeOk(t, id) {
      assert ScopeOk(s, id);
      ScopeFrame(s, t, id);
    }
  }

  lemma HeardSame(s: System, t: System)
    requires AgentSame(s, t) && AllHeardOk(s) && Indexed(s) && IssuesOk(s)
    ensures AllHeardOk(t)
  {
    forall id | Heard(t, id) && id in t.issued ensures HeardOk(t, id) {
      assert Heard(s, id);
      assert CallOk(s, id) && HeardOk(s, id);
      HeardFrame(s, t, id);
    }
  }

  lemma JobsSame(s: System, t: System)
    requires AgentSame(s, t) && JobsOk(s)
    ensures JobsOk(t)
  {
    forall c | c in t.agent.jobs ensures JobOk(t, c) {
      assert JobOk(s, c);
      JobFrame(s, t, c);
    }
  }

  lemma LogSame(s: System, t: System)
    requires AgentSame(s, t) && Indexed(s) && IssuesOk(s) && LogOk(s)
    ensures LogOk(t)
  {
    forall i: nat | i < |t.log| ensures MessageOk(t, i) {
      assert MessageOk(s, i);
      MessageFrame(s, t, i);
    }
  }

  lemma AgentInvSame(s: System, t: System)
    requires AgentInv(s) && AgentSame(s, t) && Indexed(t) && IssuesOk(t)
    ensures AgentInv(t)
  {
    ScopesSame(s, t);
    forall id | id in t.agent.plain ensures PlainOk(t, id) {
      assert PlainOk(s, id);
      PlainFrame(s, t, id);
    }
    forall f | f in t.agent.recent ensures RecentOk(t, f) { assert RecentOk(s, f); }
    HeardSame(s, t);
    JobsSame(s, t);
    LogSame(s, t);
  }
}
