/** Host events keep the invariant. */
module ProtocolHost {
  import opened Json
  import opened Outcome
  import opened Wrappers
  import opened Wire
  import opened HostState
  import opened AgentState
  import opened Protocol
  import opened ProtocolFrames

  // ---------- calls ----------

  lemma SayIndexed(s: System, call: Call)
    requires Indexed(s) && call.id !in s.askedAt
    ensures Indexed(Say(s, call))
  {
  }

  /** The id is new and stands nowhere. */
  ghost predicate Nowhere(s: System, id: Id) {
    && RequestId(id) && id !in s.issued
    && id !in s.askedAt && id !in s.sentAt && id !in s.cancelOf
    && id !in s.host.pending && id !in s.host.verdicts
  }

  lemma FreshNowhere(s: System, id: Id)
    requires AgentInv(s) && HostInv(s) && Fresh(s, id)
    ensures Nowhere(s, id)
  {
    assert id in s.askedAt ==> CallOk(s, id);
    assert id in s.sentAt ==> MessageOk(s, s.sentAt[id]);
    assert id in s.cancelOf ==> CancelOk(s, id) && IssueOk(s, s.cancelOf[id]);
    assert id in s.host.pending ==> EntryOk(s, id);
    assert id in s.host.verdicts ==> SettledOk(s, id);
  }

  /** A new id that asks for something: sent, or only used up. */
  lemma AskIssues(s: System, t: System, id: Id, verb: string, apply: bool)
    requires Indexed(s) && IssuesOk(s) && Nowhere(s, id)
    requires t.issued == s.issued[id := Asked(verb, apply)] && t.cancelOf == s.cancelOf
    requires
      || (t.calls == s.calls && t.askedAt == s.askedAt)
      || (t.calls == s.calls + [Request(id, verb, apply)] && t.askedAt == s.askedAt[id := |s.calls|])
    ensures IssuesOk(t)
  {
    forall x | x in t.askedAt && t.askedAt[x] < |t.calls| ensures CallOk(t, x) {
      assert x == id || CallOk(s, x);
    }
    forall x | x in t.issued ensures IssueOk(t, x) {
      assert x == id || IssueOk(s, x);
    }
    forall x | x in t.cancelOf ensures CancelOk(t, x) { assert CancelOk(s, x); }
  }

  /** A new id that cancels a request already on the stream: sent, or only used up. */
  lemma CancelIssues(s: System, t: System, id: Id, c: Id)
    requires Indexed(s) && IssuesOk(s) && Nowhere(s, c)
    requires id in s.issued && s.issued[id].Asked? && id in s.askedAt && s.askedAt[id] < |s.calls| && id !in s.cancelOf
    requires t.issued == s.issued[c := Cancelling(id)] && t.cancelOf == s.cancelOf[id := c]
    requires
      || (t.calls == s.calls && t.askedAt == s.askedAt)
      || (t.calls == s.calls + [CancelRequest(c, id)] && t.askedAt == s.askedAt[c := |s.calls|])
    ensures IssuesOk(t)
  {
    forall x | x in t.askedAt && t.askedAt[x] < |t.calls| ensures CallOk(t, x) {
      assert x == c || CallOk(s, x);
    }
    forall x | x in t.issued ensures IssueOk(t, x) {
      assert x == c || IssueOk(s, x);
    }
    forall x | x in t.cancelOf ensures CancelOk(t, x) { assert x == id || CancelOk(s, x); }
  }

  // ---------- one id at a time ----------

  lemma VerdictSame(s: System, t: System, id: Id, v: Verdict)
    requires AgentSame(s, t) && VerdictOk(s, id, v)
    requires id in t.askedAt ==> id in s.askedAt
    ensures VerdictOk(t, id, v)
  {
  }

  lemma SettledSame(s: System, t: System, id: Id)
    requires AgentSame(s, t)
    requires id in s.host.verdicts && SettledOk(s, id)
    requires id in t.host.verdicts && t.host.verdicts[id] == s.host.verdicts[id] && id !in t.host.pending
    requires id in t.askedAt ==> id in s.askedAt
    ensures SettledOk(t, id)
  {
    VerdictSame(s, t, id, s.host.verdicts[id]);
  }

  /** A record that kept the fields the invariant speaks of. */
  ghost predicate SameRecord(e: Entry, f: Entry) {
    if e.CancelEntry? then f.CancelEntry? && f.target == e.target
    else
      f.RequestEntry? && f.verb == e.verb && f.abortRequested == e.abortRequested
      && f.clientSettled == e.clientSettled && f.cancelId == e.cancelId && f.committedReceipt == e.committedReceipt
      && f.controlError == e.controlError
  }

  lemma EntrySame(s: System, t: System, id: Id)
    requires AgentSame(s, t) && id in s.host.pending && EntryOk(s, id)
    requires id in t.host.pending && SameRecord(s.host.pending[id], t.host.pending[id])
    requires !Taken(t, id)
    requires s.host.pending[id].RequestEntry? ==>
      id !in t.host.verdicts && (id in t.cancelOf ==> id in s.cancelOf)
    requires s.host.pending[id].CancelEntry? ==> IsRequest(t.host, s.host.pending[id].target)
    ensures EntryOk(t, id)
  {
  }

  lemma TrackedSame(s: System, t: System, id: Id)
    requires AgentSame(s, t) && IsRequest(s.host, id) && Tracked(s, id)
    requires IsRequest(t.host, id) && SameRecord(s.host.pending[id], t.host.pending[id])
    requires s.host.pending[id].cancelId.Some? ==>
      var c := s.host.pending[id].cancelId.value;
      Taken(t, c) == Taken(s, c) && (c in s.host.pending ==> c in t.host.pending)
    ensures Tracked(t, id)
  {
  }

  // ---------- all ids but a few ----------

  /** A host event that touches only the ids in `few`. */
  ghost predicate Touches(s: System, t: System, few: set<Id>) {
    && (forall id :: id in t.host.pending && id !in few ==>
        id in s.host.pending && SameRecord(s.host.pending[id], t.host.pending[id])
        && (Taken(t, id) ==> Taken(s, id)))
    && (forall id :: id in t.host.verdicts && id !in few ==>
        id in s.host.verdicts && t.host.verdicts[id] == s.host.verdicts[id])
    && (forall id :: id in t.askedAt && id !in few ==> id in s.askedAt)
    && (forall id :: id in t.cancelOf && id !in few ==> id in s.cancelOf)
    && (forall id :: id in t.host.pending && id !in few && t.host.pending[id].CancelEntry? ==>
        IsRequest(s.host, t.host.pending[id].target) ==> IsRequest(t.host, t.host.pending[id].target))
    && (!t.cancelLost ==> forall id :: IsRequest(t.host, id) && id !in few && t.host.pending[id].cancelId.Some? ==>
        var c := t.host.pending[id].cancelId.value;
        Taken(t, c) == Taken(s, c) && (c in s.host.pending ==> c in t.host.pending))
  }

  /** The touched ids are right afterwards. */
  ghost predicate FewOk(t: System, few: set<Id>) {
    && (forall id {:trigger EntryOk(t, id)} :: id in few && id in t.host.pending ==> EntryOk(t, id))
    && (forall id {:trigger SettledOk(t, id)} :: id in few && id in t.host.verdicts ==> SettledOk(t, id))
    && (!t.cancelLost ==> forall id {:trigger Tracked(t, id)} :: id in few && IsRequest(t.host, id) ==> Tracked(t, id))
  }

  lemma HostInvTouched(s: System, t: System, few: set<Id>)
    requires HostInv(s) && AgentSame(s, t) && Touches(s, t, few) && FewOk(t, few) && HostFlagsOk(t)
    requires s.cancelLost ==> t.cancelLost
    ensures HostInv(t)
  {
    forall id | id in t.host.pending ensures EntryOk(t, id) {
      if id !in few {
        assert EntryOk(s, id);
        assert id in s.host.verdicts ==> SettledOk(s, id);
        EntrySame(s, t, id);
      } else {
        assert EntryOk(t, id);
      }
    }
    forall id | id in t.host.verdicts ensures SettledOk(t, id) {
      if id !in few {
        assert SettledOk(s, id);
        SettledSame(s, t, id);
      } else {
        assert SettledOk(t, id);
      }
    }
    if !t.cancelLost {
      forall id | IsRequest(t.host, id) ensures Tracked(t, id) {
        if id !in few {
          assert Tracked(s, id);
          TrackedSame(s, t, id);
        } else {
          assert Tracked(t, id);
        }
      }
    }
  }

  // ---------- events ----------

  /** Nothing but the host's records and the streams towards the agent changed. */
  ghost predicate Beside(s: System, t: System) {
    && AgentSame(s, t) && t.taken == s.taken && (s.cancelLost ==> t.cancelLost)
  }

  // ---------- a new request ----------

  lemma AskTouches(s: System, t: System, id: Id, verb: string, apply: bool, signal: bool)
    requires id !in s.host.pending && t.taken == s.taken && t.sentAt == s.sentAt
    requires t.host == HostState.Ask(s.host, id, verb, signal)
    requires t.cancelOf == s.cancelOf && t.askedAt == s.askedAt[id := |s.calls|]
    ensures Touches(s, t, {id})
  {
  }

  lemma AskKeepsHost(s: System, t: System, id: Id, verb: string, apply: bool, signal: bool)
    requires HostInv(s) && Nowhere(s, id) && Beside(s, t) && !s.host.closed
    requires t.host == HostState.Ask(s.host, id, verb, signal)
    requires t.issued == s.issued[id := Asked(verb, apply)] && t.cancelOf == s.cancelOf
    requires t.askedAt == s.askedAt[id := |s.calls|]
    ensures HostInv(t)
  {
    AskTouches(s, t, id, verb, apply, signal);
    assert EntryOk(t, id);
    HostInvTouched(s, t, {id});
  }

  lemma NewVerdictTouches(s: System, t: System, id: Id, v: Verdict)
    requires t.taken == s.taken && t.sentAt == s.sentAt && t.askedAt == s.askedAt && t.cancelOf == s.cancelOf
    requires t.host.pending == s.host.pending && t.host.verdicts == s.host.verdicts[id := v]
    ensures Touches(s, t, {id})
  {
  }

  /** A request that was never put on the stream. */
  lemma UnsentKeepsHost(s: System, t: System, id: Id, verb: string, apply: bool, v: Verdict)
    requires HostInv(s) && Nowhere(s, id) && id !in s.agent.scopes && Beside(s, t)
    requires v.Unwritten? || v.Aborted?
    requires t.host == s.host.(verdicts := s.host.verdicts[id := v])
    requires t.issued == s.issued[id := Asked(verb, apply)] && t.cancelOf == s.cancelOf && t.askedAt == s.askedAt
    ensures HostInv(t)
  {
    NewVerdictTouches(s, t, id, v);
    assert SettledOk(t, id);
    HostInvTouched(s, t, {id});
  }

  // ---------- cancelling ----------

  /** The one record that waits for the cancellation of `id`. */
  lemma SoleCancel(s: System, id: Id, x: Id)
    requires EntriesOk(s) && IssuesOk(s) && IsRequest(s.host, id)
    requires x in s.host.pending && s.host.pending[x].CancelEntry? && s.host.pending[x].target == id
    ensures s.host.pending[id].cancelId == Some(x)
  {
    assert EntryOk(s, x) && EntryOk(s, id) && IssueOk(s, x);
  }

  lemma RecordsTouch(s: System, t: System)
    requires t.taken == s.taken && t.sentAt == s.sentAt && t.askedAt == s.askedAt && t.cancelOf == s.cancelOf
    requires t.host.pending.Keys == s.host.pending.Keys && t.host.verdicts == s.host.verdicts
    requires forall x :: x in t.host.pending ==> SameRecord(s.host.pending[x], t.host.pending[x])
    ensures Touches(s, t, {})
  {
  }

  /** Only fields the invariant does not speak of changed. */
  lemma RecordsKeepHost(s: System, t: System)
    requires HostInv(s) && Beside(s, t)
    requires t.askedAt == s.askedAt && t.cancelOf == s.cancelOf
    requires t.host == s.host.(pending := t.host.pending) && t.host.pending.Keys == s.host.pending.Keys
    requires forall x :: x in t.host.pending ==> SameRecord(s.host.pending[x], t.host.pending[x])
    ensures HostInv(t)
  {
    RecordsTouch(s, t);
    HostInvTouched(s, t, {});
  }

  lemma CancelTouches(s: System, t: System, id: Id, c: Id)
    requires IsRequest(s.host, id) && IsRequest(t.host, id) && id != c
    requires t.taken == s.taken && t.sentAt == s.sentAt
    requires t.host.verdicts == s.host.verdicts
    requires forall x :: x in t.host.pending && x != id && x != c ==>
      x in s.host.pending && t.host.pending[x] == s.host.pending[x]
    requires forall x :: x in s.host.pending && x != c ==> x in t.host.pending
    requires c !in s.host.pending
    requires t.cancelOf == s.cancelOf[id := c]
    requires t.askedAt == s.askedAt || t.askedAt == s.askedAt[c := |s.calls|]
    ensures Touches(s, t, {id, c})
  {
  }

  /** A first cancellation: sent, or lost because the write threw. */
  lemma CancelKeepsHost(s: System, t: System, id: Id, c: Id, throws: bool)
    requires HostInv(s) && Indexed(s) && Nowhere(s, c) && Beside(s, t)
    requires IsRequest(s.host, id) && s.host.pending[id].cancelId.None?
    requires t.issued == s.issued[c := Cancelling(id)] && t.cancelOf == s.cancelOf[id := c]
    requires IsRequest(t.host, id)
    requires t.host.pending[id] == s.host.pending[id].(
      timerArmed := t.host.pending[id].timerArmed, listening := t.host.pending[id].listening,
      timeoutTriggered := t.host.pending[id].timeoutTriggered,
      abortRequested := true, cancelId := Some(c), controlError := t.host.pending[id].controlError)
    requires if throws then
        t.host == s.host.(pending := s.host.pending[id := t.host.pending[id]])
        && t.askedAt == s.askedAt && t.cancelLost && t.host.pending[id].controlError == Some(CancelUnwritten)
      else
        t.host == s.host.(pending := s.host.pending[id := t.host.pending[id]][c := CancelEntry(id, true)])
        && t.askedAt == s.askedAt[c := |s.calls|] && t.cancelLost == s.cancelLost
        && t.host.pending[id].controlError == s.host.pending[id].controlError
    ensures HostInv(t)
  {
    assert EntryOk(s, id);
    CancelTouches(s, t, id, c);
    assert EntryOk(t, id);
    if !throws {
      assert EntryOk(t, c);
      assert Tracked(t, id);
    }
    HostInvTouched(s, t, {id, c});
  }

  /** A cancel write failed: its record goes and the request keeps the error. */
  lemma CancelLostKeepsHost(s: System, t: System, c: Id, id: Id)
    requires HostInv(s) && IssuesOk(s) && Beside(s, t)
    requires c in s.issued && s.issued[c] == Cancelling(id)
    requires t.issued == s.issued && t.askedAt == s.askedAt && t.cancelOf == s.cancelOf && t.cancelLost
    requires t.host == CancelWritten(s.host, c, id, true)
    ensures HostInv(t)
  {
    assert IssueOk(s, c);
    assert c in s.host.pending ==> EntryOk(s, c);
    assert id in s.host.pending ==> EntryOk(s, id);
    CancelLostTouches(s, t, c, id);
    assert id in t.host.pending ==> EntryOk(t, id);
    assert c in s.host.verdicts ==> SettledOk(s, c);
    if id in t.host.verdicts {
      assert SettledOk(s, id);
      SettledSame(s, t, id);
    }
    HostInvTouched(s, t, {c, id});
  }

  lemma CancelLostTouches(s: System, t: System, c: Id, id: Id)
    requires t.taken == s.taken && t.sentAt == s.sentAt && t.askedAt == s.askedAt && t.cancelOf == s.cancelOf
    requires c != id && t.cancelLost && !IsRequest(s.host, c)
    requires t.host == CancelWritten(s.host, c, id, true)
    ensures Touches(s, t, {c, id})
    ensures c !in t.host.pending && HostFlagsOk(s) ==> HostFlagsOk(t)
  {
  }

  // ---------- a request leaves the map ----------

  /** `id` and its cancel record are gone, and `id` has a verdict. */
  ghost predicate Leaves(s: System, t: System, id: Id, v: Verdict)
    requires IsRequest(s.host, id)
  {
    && t.host.pending == ClearCancel(Clear(s.host, id), s.host.pending[id]).pending
    && t.host.verdicts == s.host.verdicts[id := v]
    && t.host.closed == s.host.closed && t.host.settledTwice == s.host.settledTwice
  }

  function Pair(id: Id, c: Option<Id>): set<Id> { if c.Some? then {id, c.value} else {id} }

  ghost predicate NoOtherCancel(s: System, id: Id)
    requires IsRequest(s.host, id)
  {
    && (s.host.pending[id].cancelId.Some? ==> !IsRequest(s.host, s.host.pending[id].cancelId.value))
    && (forall x :: x in s.host.pending && s.host.pending[x].CancelEntry? && s.host.pending[x].target == id ==>
        s.host.pending[id].cancelId == Some(x))
  }

  lemma LeavesTouches(s: System, t: System, id: Id, v: Verdict, m: Id)
    requires IsRequest(s.host, id) && Leaves(s, t, id, v)
    requires t.sentAt == s.sentAt && t.askedAt == s.askedAt && t.cancelOf == s.cancelOf
    requires m == id || s.host.pending[id].cancelId == Some(m)
    requires forall x :: Taken(t, x) ==> Taken(s, x) || x == m
    requires forall x :: Taken(s, x) ==> Taken(t, x)
    requires NoOtherCancel(s, id)
    requires forall x :: IsRequest(s.host, x) && x != id && s.host.pending[x].cancelId.Some? ==>
      s.host.pending[x].cancelId.value != id && s.host.pending[x].cancelId != s.host.pending[id].cancelId
    ensures Touches(s, t, Pair(id, s.host.pending[id].cancelId))
  {
    var few := Pair(id, s.host.pending[id].cancelId);
    forall x | x in t.host.pending ensures x in s.host.pending && x !in few && t.host.pending[x] == s.host.pending[x] {
    }
    forall x | IsRequest(s.host, x) && x != id ensures IsRequest(t.host, x) {
    }
  }

  /** The ids a pending request refers to are its own. */
  lemma CancelIdsApart(s: System, id: Id)
    requires EntriesOk(s) && IssuesOk(s) && IsRequest(s.host, id)
    ensures forall x :: IsRequest(s.host, x) && x != id && s.host.pending[x].cancelId.Some? ==>
      s.host.pending[x].cancelId.value != id && s.host.pending[x].cancelId != s.host.pending[id].cancelId
    ensures NoOtherCancel(s, id)
  {
    assert EntryOk(s, id);
    assert s.host.pending[id].cancelId.Some? ==>
      CancelOk(s, id) && (IsRequest(s.host, s.cancelOf[id]) ==> EntryOk(s, s.cancelOf[id]));
    forall x | IsRequest(s.host, x) && x != id && s.host.pending[x].cancelId.Some?
      ensures s.host.pending[x].cancelId.value != id && s.host.pending[x].cancelId != s.host.pending[id].cancelId
    {
      assert EntryOk(s, x) && CancelOk(s, x);
    }
    forall x | x in s.host.pending && s.host.pending[x].CancelEntry? && s.host.pending[x].target == id
      ensures s.host.pending[id].cancelId == Some(x)
    {
      SoleCancel(s, id, x);
    }
  }

  lemma LeavingKeepsHost(s: System, t: System, id: Id, v: Verdict, m: Id)
    requires HostInv(s) && IssuesOk(s) && AgentSame(s, t) && IsRequest(s.host, id) && Leaves(s, t, id, v)
    requires t.askedAt == s.askedAt && t.cancelOf == s.cancelOf && t.cancelLost == s.cancelLost
    requires m == id || s.host.pending[id].cancelId == Some(m)
    requires forall x :: Taken(t, x) ==> Taken(s, x) || x == m
    requires forall x :: Taken(s, x) ==> Taken(t, x)
    requires VerdictOk(t, id, v)
    ensures HostInv(t)
  {
    CancelIdsApart(s, id);
    LeavesTouches(s, t, id, v, m);
    assert EntryOk(s, id);
    var few := Pair(id, s.host.pending[id].cancelId);
    if s.host.pending[id].cancelId.Some? {
      var c := s.host.pending[id].cancelId.value;
      assert CancelOk(s, id) && IssueOk(s, c);
      assert c in s.host.verdicts ==> SettledOk(s, c);
    }
    assert SettledOk(t, id);
    HostInvTouched(s, t, few);
  }

  /** A failed write settles its request. */
  lemma WriteFailureKeepsHost(s: System, t: System, id: Id, code: string)
    requires HostInv(s) && IssuesOk(s) && Beside(s, t) && IsRequest(s.host, id)
    requires t.askedAt == s.askedAt && t.cancelOf == s.cancelOf && t.cancelLost == s.cancelLost
    requires t.host == Written(s.host, id, Some(code))
    ensures HostInv(t)
  {
    assert EntryOk(s, id);
    var v := Unwritten(UnwrittenOutcome(id, s.host.pending[id].verb, code));
    assert s.host.pending[id].cancelId.Some? ==> CancelOk(s, id);
    assert Leaves(s, t, id, v);
    LeavingKeepsHost(s, t, id, v, id);
  }

  // ---------- the transport closes ----------

  /** Requests move from the map to the verdicts, with verdicts that claim nothing. */
  lemma EmptiedKeepsHost(s: System, t: System)
    requires HostInv(s) && Beside(s, t) && t.askedAt == s.askedAt
    requires t.host.pending == map[] && t.host.settledTwice == s.host.settledTwice
    requires forall id :: id in s.host.verdicts ==> id in t.host.verdicts && t.host.verdicts[id] == s.host.verdicts[id]
    requires forall id :: id in t.host.verdicts && id !in s.host.verdicts ==>
      IsRequest(s.host, id) && (t.host.verdicts[id].TransportClosed? || t.host.verdicts[id].Unwritten?)
    ensures HostInv(t)
  {
    forall id | id in t.host.verdicts ensures SettledOk(t, id) {
      if id in s.host.verdicts {
        assert SettledOk(s, id);
        SettledSame(s, t, id);
      } else {
        assert EntryOk(s, id);
      }
    }
  }

  lemma PendingUnsettled(s: System)
    requires EntriesOk(s)
    ensures forall id :: IsRequest(s.host, id) ==> id !in s.host.verdicts && !s.host.pending[id].clientSettled
  {
    forall id | IsRequest(s.host, id) ensures id !in s.host.verdicts && !s.host.pending[id].clientSettled {
      assert EntryOk(s, id);
    }
  }

  lemma CloseKeepsHost(s: System, t: System)
    requires HostInv(s) && Beside(s, t) && t.askedAt == s.askedAt && t.host == Close(s.host)
    ensures HostInv(t)
  {
    if s.host.closed {
      EmptiedKeepsHost(s, t);
    } else {
      PendingUnsettled(s);
      EmptiedKeepsHost(s, t);
    }
  }

  lemma StdinFailureKeepsHost(s: System, t: System, code: string)
    requires HostInv(s) && Beside(s, t) && t.askedAt == s.askedAt && t.host == StdinFailed(s.host, code)
    ensures HostInv(t)
  {
    PendingUnsettled(s);
    EmptiedKeepsHost(s, t);
  }
}
