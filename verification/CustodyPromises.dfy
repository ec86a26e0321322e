/** The promise remembered under a pid is the only one that releases a group of that pid. */
module CustodyPromises {
  import opened Wrappers
  import opened Custody
  import opened CustodyProof

  /** A termination that releases a group of a request is remembered under its pid. */
  ghost predicate Remembered(s: State, t: nat)
    requires t < |s.terms|
  {
    var term := s.terms[t];
    term.releases && term.scope.Some? ==>
      && term.child < |s.children| && s.children[term.child].pid.Some? && term.scope.value in s.shares
      && var promises, key := s.shares[term.scope.value].promises, GroupKey(s.children[term.child].pid.value);
         key in promises && promises[key] == t
  }

  ghost predicate AllRemembered(s: State) {
    forall t: nat {:trigger Remembered(s, t)} :: t < |s.terms| ==> Remembered(s, t)
  }

  /** Promises are kept for good, and a group under a pid that has one stays until
      that promise has been answered positively. */
  ghost predicate Keeps(s: State, t: State) {
    && Later(s, t)
    && (forall x :: x in s.shares ==>
        && x in t.shares
        && (forall k :: k in s.shares[x].promises ==> k in t.shares[x].promises && t.shares[x].promises[k] == s.shares[x].promises[k])
        && (forall p :: p in s.shares[x].groups && GroupKey(p) in s.shares[x].promises ==> p in t.shares[x].groups || Paid(t, x, p)))
  }

  /** The promise under the pid has been answered positively. */
  ghost predicate Paid(s: State, x: ScopeId, p: Pid) {
    && x in s.shares && GroupKey(p) in s.shares[x].promises
    && s.shares[x].promises[GroupKey(p)] < |s.terms|
    && s.terms[s.shares[x].promises[GroupKey(p)]].stage == Answered(true)
  }

  lemma PaidStays(s: State, t: State, x: ScopeId, p: Pid)
    requires Keeps(s, t) && Paid(s, x, p)
    ensures Paid(t, x, p)
  {
  }

  lemma KeepsOn(s: State, t: State, u: State)
    requires Keeps(s, t) && Keeps(t, u)
    ensures Keeps(s, u)
  {
    forall x, p | x in s.shares && p in s.shares[x].groups && GroupKey(p) in s.shares[x].promises
      ensures p in u.shares[x].groups || Paid(u, x, p)
    {
      if Paid(t, x, p) { PaidStays(t, u, x, p); }
    }
  }

  predicate ShareKept(a: Share, b: Share) {
    && b.groups == a.groups
    && forall k :: k in a.promises ==> k in b.promises && b.promises[k] == a.promises[k]
  }

  /** Shares keep their groups and promises, and a new termination is remembered. */
  lemma SharesRemember(s: State, t: State)
    requires AllRemembered(s) && Later(s, t) && t.children == s.children
    requires forall i: nat :: i < |t.terms| && (i >= |s.terms| || t.terms[i].(stage := Waiting) != s.terms[i].(stage := Waiting)) ==>
      Remembered(t, i)
    requires forall x :: x in s.shares ==> x in t.shares && ShareKept(s.shares[x], t.shares[x])
    ensures AllRemembered(t) && Keeps(s, t)
  {
    forall i: nat | i < |t.terms| ensures Remembered(t, i) {
      if i < |s.terms| && t.terms[i].(stage := Waiting) == s.terms[i].(stage := Waiting) { assert Remembered(s, i); }
    }
  }

  lemma EndGroupRemembers(s: State, scope: Option<ScopeId>, c: nat, allow: bool, delivered: bool)
    requires Inv(s) && AllRemembered(s) && c < |s.children| && s.children[c].pid.Some?
    requires scope.Some? ==> s.children[c].owner == scope && scope.value in s.shares
    ensures var t := EndGroup(s, scope, c, allow, delivered); AllRemembered(t) && Keeps(s, t)
  {
    var t := EndGroup(s, scope, c, allow, delivered);
    EndGroupKeeps(s, scope, c, allow, delivered);
    assert |t.terms| > |s.terms| ==> Remembered(t, |s.terms|);
    SharesRemember(s, t);
  }

  lemma EndChildRemembers(s: State, x: ScopeId, c: nat, delivered: bool)
    requires Inv(s) && AllRemembered(s) && c < |s.children| && x in s.shares && Sound(s, x) && s.children[c].owner == Some(x)
    ensures var t := EndChild(s, x, c, delivered); AllRemembered(t) && Keeps(s, t)
  {
    var share, pid := s.shares[x], s.children[c].pid;
    EndChildKeeps(s, x, c, delivered);
    if !share.committing && pid.Some? && pid.value in share.groups {
      assert GroupOf(s, x, pid.value);
      EndGroupRemembers(s, Some(x), share.groups[pid.value], false, delivered);
    } else {
      var t := EndChild(s, x, c, delivered);
      assert |t.terms| > |s.terms| ==> Remembered(t, |s.terms|);
      SharesRemember(s, t);
    }
  }

  lemma {:induction false} EndGroupsRemember(s: State, x: ScopeId, pids: seq<Pid>, heeded: set<nat>)
    requires Inv(s) && AllRemembered(s) && x in s.shares && Sound(s, x)
    requires forall i :: 0 <= i < |pids| ==> pids[i] in s.shares[x].groups
    ensures var t := EndGroups(s, x, pids, heeded); AllRemembered(t) && Keeps(s, t)
    decreases |pids|
  {
    if pids != [] {
      var c := s.shares[x].groups[pids[0]];
      assert GroupOf(s, x, pids[0]);
      var t := EndGroup(s, Some(x), c, true, c in heeded);
      EndGroupKeeps(s, Some(x), c, true, c in heeded);
      EndGroupRemembers(s, Some(x), c, true, c in heeded);
      assert Sound(t, x);
      EndGroupsRemember(t, x, pids[1..], heeded);
      KeepsOn(s, t, EndGroups(t, x, pids[1..], heeded));
    }
  }

  lemma EnlistRemembers(s: State, owner: Option<ScopeId>, pid: Option<Pid>)
    requires AllRemembered(s) && (owner.Some? ==> owner.value in s.shares)
    ensures AllRemembered(Enlist(s, owner, pid)) && Keeps(s, Enlist(s, owner, pid))
  {
    var t := Enlist(s, owner, pid);
    EnlistLater(s, owner, pid);
    forall i: nat | i < |t.terms| ensures Remembered(t, i) { assert Remembered(s, i); }
  }

  lemma TrackRemembers(s: State, owner: Option<ScopeId>, pid: Option<Pid>, delivered: bool)
    requires Inv(s) && AllRemembered(s) && (owner.Some? ==> Sound(s, owner.value))
    requires pid.Some? ==> !GroupAlive(s, pid.value)
    ensures AllRemembered(Track(s, owner, pid, delivered)) && Keeps(s, Track(s, owner, pid, delivered))
  {
    EnlistKeeps(s, owner, pid);
    EnlistRemembers(s, owner, pid);
    if owner.Some? && s.shares[owner.value].cancelled && !s.shares[owner.value].committing {
      var t := Enlist(s, owner, pid);
      EndChildRemembers(t, owner.value, |s.children|, delivered);
      KeepsOn(s, t, EndChild(t, owner.value, |s.children|, delivered));
    }
  }

  lemma ReleaseRemembers(s: State, t: nat)
    requires Inv(s) && AllRemembered(s) && t < |s.terms| && s.terms[t].stage == Answered(true) && s.terms[t].releases
    requires s.terms[t].child < |s.children| && s.children[s.terms[t].child].pid.Some?
    ensures var r := Release(s, s.terms[t].scope, s.terms[t].child, s.children[s.terms[t].child].pid.value);
      AllRemembered(r) && Keeps(s, r)
  {
    ReleaseKeeps(s, t);
    assert Remembered(s, t);
    var r := Release(s, s.terms[t].scope, s.terms[t].child, s.children[s.terms[t].child].pid.value);
    forall i: nat | i < |r.terms| ensures Remembered(r, i) { assert Remembered(s, i); }
  }

  lemma StageRemembers(s: State, t: nat, stage: Stage)
    requires Inv(s) && AllRemembered(s) && t < |s.terms| && !s.terms[t].stage.Answered?
    ensures AllRemembered(SetStage(s, t, stage)) && Keeps(s, SetStage(s, t, stage))
  {
    SharesRemember(s, SetStage(s, t, stage));
  }

  lemma TermEventRemembers(s: State, e: Event)
    requires Inv(s) && AllRemembered(s) && Enabled(s, e) && (e.GroupQuiet? || e.GivesUp? || e.Releases?)
    ensures AllRemembered(Step(s, e)) && Keeps(s, Step(s, e))
  {
    match e
    case GroupQuiet(t) => StageRemembers(s, t, Observed(true));
    case GivesUp(t) => StageRemembers(s, t, Observed(false));
    case Releases(t) =>
      assert TermOk(s, t);
      var r := SetStage(s, t, Answered(s.terms[t].stage.quiesced));
      StageKeeps(s, t, Answered(s.terms[t].stage.quiesced));
      StageRemembers(s, t, Answered(s.terms[t].stage.quiesced));
      if s.terms[t].releases && s.terms[t].stage.quiesced {
        ReleaseRemembers(r, t);
        KeepsOn(s, r, Step(s, e));
      }
  }

  lemma AwaitsRemembers(s: State, x: ScopeId)
    requires AllRemembered(s) && x in s.shares
    ensures var t := SetShare(s, x, s.shares[x].(awaited := Some(s.shares[x].promises.Values))); AllRemembered(t) && Keeps(s, t)
  {
    SharesRemember(s, SetShare(s, x, s.shares[x].(awaited := Some(s.shares[x].promises.Values))));
  }

  lemma FinalizeRemembers(s: State, x: ScopeId, pids: seq<Pid>, heeded: set<nat>)
    requires Inv(s) && AllRemembered(s) && Enabled(s, FinalizeStarts(x, pids, heeded))
    ensures var t := Step(s, FinalizeStarts(x, pids, heeded)); AllRemembered(t) && Keeps(s, t)
  {
    EndGroupsKeep(s, x, pids, heeded);
    EndGroupsRemember(s, x, pids, heeded);
    var t := EndGroups(s, x, pids, heeded);
    AwaitsRemembers(t, x);
    KeepsOn(s, t, Step(s, FinalizeStarts(x, pids, heeded)));
  }

  lemma PlainEventRemembers(s: State, e: Event)
    requires Inv(s) && AllRemembered(s) && Enabled(s, e)
    requires e.Forks? || e.Dies? || e.Reaped? || e.Opens? || e.Cancels? || e.Commits? || e.ChildCloses?
    ensures AllRemembered(Step(s, e)) && Keeps(s, Step(s, e))
  {
    StepKeeps(s, e);
    var t := Step(s, e);
    forall i: nat | i < |t.terms| ensures Remembered(t, i) { assert Remembered(s, i); }
  }

  /** Every event keeps all promises, and lets a group under a promised pid go only
      once that promise has been answered positively. */
  lemma StepRemembers(s: State, e: Event)
    requires Inv(s) && AllRemembered(s) && Enabled(s, e)
    ensures AllRemembered(Step(s, e)) && Keeps(s, Step(s, e))
  {
    match e
    case Tracks(owner, pid, delivered) => TrackRemembers(s, owner, pid, delivered);
    case EndsGroup(scope, c, allow, delivered) => EndGroupRemembers(s, scope, c, allow, delivered);
    case EndsChild(x, c, delivered) => EndChildRemembers(s, x, c, delivered);
    case FinalizeStarts(x, pids, heeded) => FinalizeRemembers(s, x, pids, heeded);
    case _ =>
      if e.GroupQuiet? || e.GivesUp? || e.Releases? { TermEventRemembers(s, e); } else { PlainEventRemembers(s, e); }
  }
}
