/** When finalizing a request reports quiescence, in every run: children tracked late and
    pids that come back included. */
module CustodyExact {
  import opened Wrappers
  import opened Custody
  import opened CustodyProof
  import opened CustodyReuse
  import opened CustodyComplete

  /** A group that a request holds is the last one tracked for it under its pid, and no
      termination that would have released it has been answered positively. */
  ghost predicate Unsettled(s: State, x: ScopeId, p: Pid)
    requires x in s.shares && p in s.shares[x].groups
  {
    var c := s.shares[x].groups[p];
    && (forall t {:trigger s.terms[t]} :: 0 <= t < |s.terms| && Frees(s.terms[t], x, c) ==> s.terms[t].stage != Answered(true))
    && (forall d {:trigger s.children[d]} :: c < d < |s.children| ==>
        !(s.children[d].pid == Some(p) && s.children[d].owner == Some(x)))
  }

  ghost predicate HeldUnsettled(s: State) {
    forall x, p {:trigger Unsettled(s, x, p)} :: x in s.shares && p in s.shares[x].groups ==> Unsettled(s, x, p)
  }

  /** The processes are the same as to pid and owner, no group is held that was not held
      before, and no termination has become a positive answer. */
  ghost predicate Calm(s: State, t: State) {
    && |t.children| == |s.children| && |s.terms| <= |t.terms|
    && (forall c {:trigger t.children[c]} :: 0 <= c < |s.children| ==>
        t.children[c].pid == s.children[c].pid && t.children[c].owner == s.children[c].owner)
    && (forall i {:trigger t.terms[i]} :: 0 <= i < |s.terms| ==> SameTerm(s.terms[i], t.terms[i]))
    && (forall i {:trigger t.terms[i]} :: |s.terms| <= i < |t.terms| ==> t.terms[i].stage != Answered(true))
    && (forall x, p :: x in t.shares && p in t.shares[x].groups ==>
        x in s.shares && p in s.shares[x].groups && t.shares[x].groups[p] == s.shares[x].groups[p])
  }

  lemma CalmKeeps(s: State, t: State)
    requires HeldUnsettled(s) && Calm(s, t)
    ensures HeldUnsettled(t)
  {
    forall x, p | x in t.shares && p in t.shares[x].groups ensures Unsettled(t, x, p) { assert Unsettled(s, x, p); }
  }

  lemma CalmOn(s: State, t: State, u: State)
    requires Calm(s, t) && Calm(t, u)
    ensures Calm(s, u)
  {
    assert forall i :: 0 <= i < |t.terms| ==> SameTerm(t.terms[i], u.terms[i]);
    forall c | 0 <= c < |s.children|
      ensures u.children[c].pid == s.children[c].pid && u.children[c].owner == s.children[c].owner
    {
      assert t.children[c].pid == s.children[c].pid;
    }
  }

  lemma EndGroupCalm(s: State, scope: Option<ScopeId>, c: nat, allow: bool, delivered: bool)
    requires c < |s.children| && s.children[c].pid.Some? && (scope.Some? ==> scope.value in s.shares)
    ensures Calm(s, EndGroup(s, scope, c, allow, delivered))
  {
  }

  lemma EndChildCalm(s: State, x: ScopeId, c: nat, delivered: bool)
    requires c < |s.children| && Sound(s, x)
    ensures Calm(s, EndChild(s, x, c, delivered))
  {
    var share, pid := s.shares[x], s.children[c].pid;
    if !share.committing && pid.Some? && pid.value in share.groups {
      assert GroupOf(s, x, pid.value);
      EndGroupCalm(s, Some(x), share.groups[pid.value], false, delivered);
    }
  }

  lemma {:induction false} EndGroupsCalm(s: State, x: ScopeId, pids: seq<Pid>, heeded: set<nat>)
    requires Inv(s) && x in s.shares && Sound(s, x)
    requires forall i :: 0 <= i < |pids| ==> pids[i] in s.shares[x].groups
    ensures Calm(s, EndGroups(s, x, pids, heeded))
    decreases |pids|
  {
    if pids != [] {
      var c := s.shares[x].groups[pids[0]];
      assert GroupOf(s, x, pids[0]);
      var t := EndGroup(s, Some(x), c, true, c in heeded);
      EndGroupKeeps(s, Some(x), c, true, c in heeded);
      EndGroupCalm(s, Some(x), c, true, c in heeded);
      assert Sound(t, x);
      EndGroupsCalm(t, x, pids[1..], heeded);
      CalmOn(s, t, EndGroups(t, x, pids[1..], heeded));
    }
  }

  lemma EnlistUnsettled(s: State, owner: Option<ScopeId>, pid: Option<Pid>)
    requires Inv(s) && HeldUnsettled(s) && (owner.Some? ==> owner.value in s.shares)
    ensures HeldUnsettled(Enlist(s, owner, pid))
  {
    var t := Enlist(s, owner, pid);
    forall x, p | x in t.shares && p in t.shares[x].groups ensures Unsettled(t, x, p) {
      if owner == Some(x) && pid == Some(p) {
        NoneYet(s, x);
      } else {
        assert Unsettled(s, x, p) && Sound(s, x) && GroupOf(s, x, p);
      }
    }
  }

  lemma TrackUnsettled(s: State, owner: Option<ScopeId>, pid: Option<Pid>, delivered: bool)
    requires Inv(s) && HeldUnsettled(s) && Enabled(s, Tracks(owner, pid, delivered))
    ensures HeldUnsettled(Track(s, owner, pid, delivered))
  {
    EnlistUnsettled(s, owner, pid);
    EnlistKeeps(s, owner, pid);
    if owner.Some? && s.shares[owner.value].cancelled && !s.shares[owner.value].committing {
      var t := Enlist(s, owner, pid);
      assert Sound(t, owner.value);
      EndChildCalm(t, owner.value, |s.children|, delivered);
      CalmKeeps(t, EndChild(t, owner.value, |s.children|, delivered));
    }
  }

  /** The answer and the release are one step. */
  lemma ReleaseUnsettled(s: State, t: nat)
    requires Inv(s) && HeldUnsettled(s) && Enabled(s, Releases(t))
    ensures HeldUnsettled(Step(s, Releases(t)))
  {
    var u := Step(s, Releases(t));
    assert TermOk(s, t);
    forall x, p | x in u.shares && p in u.shares[x].groups ensures Unsettled(u, x, p) {
      assert Unsettled(s, x, p) && Sound(s, x) && GroupOf(s, x, p);
    }
  }

  lemma FinalizeUnsettled(s: State, x: ScopeId, pids: seq<Pid>, heeded: set<nat>)
    requires Inv(s) && HeldUnsettled(s) && Enabled(s, FinalizeStarts(x, pids, heeded))
    ensures HeldUnsettled(Step(s, FinalizeStarts(x, pids, heeded)))
  {
    EndGroupsCalm(s, x, pids, heeded);
    var t := EndGroups(s, x, pids, heeded);
    CalmKeeps(s, t);
    CalmKeeps(t, Step(s, FinalizeStarts(x, pids, heeded)));
  }

  lemma PlainEventUnsettled(s: State, e: Event)
    requires HeldUnsettled(s) && Enabled(s, e)
    requires !e.Tracks? && !e.EndsGroup? && !e.EndsChild? && !e.Releases? && !e.FinalizeStarts?
    ensures HeldUnsettled(Step(s, e))
  {
    CalmKeeps(s, Step(s, e));
  }

  /** Every event keeps it so. */
  lemma StepUnsettled(s: State, e: Event)
    requires Inv(s) && HeldUnsettled(s) && Enabled(s, e)
    ensures HeldUnsettled(Step(s, e))
  {
    match e
    case Tracks(owner, pid, delivered) => TrackUnsettled(s, owner, pid, delivered);
    case EndsGroup(scope, c, allow, delivered) =>
      EndGroupCalm(s, scope, c, allow, delivered);
      CalmKeeps(s, Step(s, e));
    case EndsChild(x, c, delivered) =>
      EndChildCalm(s, x, c, delivered);
      CalmKeeps(s, Step(s, e));
    case Releases(t) => ReleaseUnsettled(s, t);
    case FinalizeStarts(x, pids, heeded) => FinalizeUnsettled(s, x, pids, heeded);
    case _ => PlainEventUnsettled(s, e);
  }

  // ---------- runs ----------

  lemma {:induction false} RunUnsettled(run: seq<State>, i: nat)
    requires IsRun(run) && i < |run|
    ensures HeldUnsettled(run[i])
  {
    if i > 0 {
      RunUnsettled(run, i - 1);
      RunInv(run, i - 1);
      assert Next(run[i - 1], run[i - 1 + 1]);
      var e :| Enabled(run[i - 1], e) && run[i] == Step(run[i - 1], e);
      StepUnsettled(run[i - 1], e);
    }
  }

  /** The group has been answered for with a positive receipt, or a later group of the
      same request has taken over its pid. */
  ghost predicate Settled(s: State, x: ScopeId, c: nat)
    requires c < |s.children|
  {
    s.children[c].owner == Some(x) && s.children[c].pid.Some? ==> Receipted(s, c) || Superseded(s, c)
  }

  /** In every state a group is held exactly as long as it is not settled. */
  lemma HeldUntilSettled(run: seq<State>, i: nat, x: ScopeId, c: nat)
    requires IsRun(run) && i < |run| && c < |run[i].children|
    requires run[i].children[c].owner == Some(x) && run[i].children[c].pid.Some?
    ensures Held(run[i], c) <==> !Settled(run[i], x, c)
  {
    var s := run[i];
    RunInv(run, i);
    RunUnsettled(run, i);
    assert ChildOk(s, c);
    if Held(s, c) { assert Unsettled(s, x, s.children[c].pid.value); }
  }

  /** Over every run: once finalization has started, quiescence is reported if and only
      if every awaited receipt is positive, no child is left, and the last group tracked
      under each pid, however late, has been answered for with a positive receipt. A
      late child blocks the report until then; one under a pid that was ended before is
      never answered for. */
  lemma QuiescenceExactly(run: seq<State>, i: nat, x: ScopeId)
    requires IsRun(run) && i < |run| && x in run[i].shares && run[i].shares[x].awaited.Some?
    ensures Quiesced(run[i], x) <==>
      AllPositive(run[i], x) && run[i].shares[x].children == {}
      && forall c: nat :: c < |run[i].children| ==> Settled(run[i], x, c)
  {
    var s := run[i];
    RunInv(run, i);
    forall c: nat | c < |s.children| && s.children[c].owner == Some(x) && s.children[c].pid.Some?
      ensures Held(s, c) <==> !Settled(s, x, c)
    {
      HeldUntilSettled(run, i, x, c);
    }
    forall p | p in s.shares[x].groups ensures exists c: nat :: c < |s.children| && !Settled(s, x, c) {
      assert Sound(s, x) && GroupOf(s, x, p);
      assert Held(s, s.shares[x].groups[p]);
    }
  }
}
