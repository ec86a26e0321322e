/** A pid that comes back. Terminations are remembered per pid, so a request whose
    group took over the pid of a group already ended is never reported quiescent. */
module CustodyReuse {
  import opened Wrappers
  import opened Custody
  import opened CustodyProof

  /** The termination releases group `c` from the maps of `x`. */
  predicate Frees(term: Termination, x: ScopeId, c: nat) { term.scope == Some(x) && term.releases && term.child == c }

  /** The request holds a group that no termination of its own will release, and
      the pid is spoken for, so that none will ever start. */
  ghost predicate Stuck(s: State, x: ScopeId, p: Pid) {
    && x in s.shares && p in s.shares[x].groups && GroupKey(p) in s.shares[x].promises
    && forall t {:trigger s.terms[t]} :: 0 <= t < |s.terms| ==> !Frees(s.terms[t], x, s.shares[x].groups[p])
  }

  lemma EndGroupStuck(s: State, scope: Option<ScopeId>, c: nat, allow: bool, delivered: bool, x: ScopeId, p: Pid)
    requires Stuck(s, x, p) && Sound(s, x)
    requires c < |s.children| && s.children[c].pid.Some? && (scope.Some? ==> scope.value in s.shares)
    ensures Stuck(EndGroup(s, scope, c, allow, delivered), x, p)
  {
    assert GroupOf(s, x, p);
  }

  lemma EndChildStuck(s: State, y: ScopeId, c: nat, delivered: bool, x: ScopeId, p: Pid)
    requires Stuck(s, x, p) && Sound(s, x) && Sound(s, y) && c < |s.children|
    ensures Stuck(EndChild(s, y, c, delivered), x, p)
  {
    var share, pid := s.shares[y], s.children[c].pid;
    if pid.Some? && pid.value in share.groups {
      assert GroupOf(s, y, pid.value);
      EndGroupStuck(s, Some(y), share.groups[pid.value], false, delivered, x, p);
    }
  }

  lemma {:induction false} EndGroupsStuck(s: State, y: ScopeId, pids: seq<Pid>, heeded: set<nat>, x: ScopeId, p: Pid)
    requires Stuck(s, x, p) && Sound(s, x) && Sound(s, y) && Inv(s)
    requires forall i :: 0 <= i < |pids| ==> pids[i] in s.shares[y].groups
    ensures Stuck(EndGroups(s, y, pids, heeded), x, p)
    decreases |pids|
  {
    if pids != [] {
      assert GroupOf(s, y, pids[0]);
      var c := s.shares[y].groups[pids[0]];
      EndGroupStuck(s, Some(y), c, true, c in heeded, x, p);
      EndGroupKeeps(s, Some(y), c, true, c in heeded);
      var t := EndGroup(s, Some(y), c, true, c in heeded);
      assert Sound(t, x) && Sound(t, y);
      EndGroupsStuck(t, y, pids[1..], heeded, x, p);
    }
  }

  /** No termination is about a child yet to come. */
  lemma NoneYet(s: State, x: ScopeId)
    requires Inv(s)
    ensures forall t {:trigger s.terms[t]} :: 0 <= t < |s.terms| ==> !Frees(s.terms[t], x, |s.children|)
  {
    forall t: nat | t < |s.terms| ensures !Frees(s.terms[t], x, |s.children|) { assert TermOk(s, t); }
  }

  lemma TrackStuck(s: State, owner: Option<ScopeId>, pid: Option<Pid>, delivered: bool, x: ScopeId, p: Pid)
    requires Inv(s) && Sound(s, x) && (owner.Some? ==> Sound(s, owner.value))
    requires pid.Some? ==> !GroupAlive(s, pid.value)
    requires Stuck(s, x, p) || (owner == Some(x) && pid == Some(p) && GroupKey(p) in s.shares[x].promises)
    ensures Stuck(Track(s, owner, pid, delivered), x, p)
  {
    var t := Enlist(s, owner, pid);
    NoneYet(s, x);
    assert Stuck(t, x, p);
    EnlistKeeps(s, owner, pid);
    if owner.Some? && s.shares[owner.value].cancelled && !s.shares[owner.value].committing {
      assert Sound(t, x) && Sound(t, owner.value);
      EndChildStuck(t, owner.value, |s.children|, delivered, x, p);
    }
  }

  lemma ReleaseStuck(s: State, t: nat, x: ScopeId, p: Pid)
    requires Inv(s) && Stuck(s, x, p) && Enabled(s, Releases(t))
    ensures Stuck(Step(s, Releases(t)), x, p)
  {
    var term := s.terms[t];
    assert TermOk(s, t) && Sound(s, x) && GroupOf(s, x, p);
    assert !Frees(term, x, s.shares[x].groups[p]);
    var r := SetStage(s, t, Answered(term.stage.quiesced));
    assert forall i {:trigger r.terms[i]} :: 0 <= i < |r.terms| ==>
      r.terms[i].scope == s.terms[i].scope && r.terms[i].releases == s.terms[i].releases && r.terms[i].child == s.terms[i].child;
    assert Stuck(r, x, p);
  }

  lemma StageStuck(s: State, t: nat, stage: Stage, x: ScopeId, p: Pid)
    requires Stuck(s, x, p) && t < |s.terms|
    ensures Stuck(SetStage(s, t, stage), x, p)
  {
    var r := SetStage(s, t, stage);
    forall i | 0 <= i < |r.terms| ensures !Frees(r.terms[i], x, r.shares[x].groups[p]) {
      assert !Frees(s.terms[i], x, s.shares[x].groups[p]);
    }
  }

  lemma StepStuck(s: State, e: Event, x: ScopeId, p: Pid)
    requires Inv(s) && Enabled(s, e) && Stuck(s, x, p)
    ensures Stuck(Step(s, e), x, p)
  {
    assert Sound(s, x);
    match e
    case Tracks(owner, pid, delivered) => TrackStuck(s, owner, pid, delivered, x, p);
    case EndsGroup(scope, c, allow, delivered) => EndGroupStuck(s, scope, c, allow, delivered, x, p);
    case EndsChild(y, c, delivered) => EndChildStuck(s, y, c, delivered, x, p);
    case Releases(t) => ReleaseStuck(s, t, x, p);
    case GroupQuiet(t) => StageStuck(s, t, Observed(true), x, p);
    case GivesUp(t) => StageStuck(s, t, Observed(false), x, p);
    case FinalizeStarts(y, pids, heeded) => EndGroupsStuck(s, y, pids, heeded, x, p);
    case _ =>
  }

  lemma {:induction false} RunStuck(run: seq<State>, i: nat, j: nat, x: ScopeId, p: Pid)
    requires IsRun(run) && i <= j < |run| && Stuck(run[i], x, p)
    ensures Stuck(run[j], x, p)
    decreases j - i
  {
    if i < j {
      RunInv(run, i);
      assert Next(run[i], run[i + 1]);
      var e :| Enabled(run[i], e) && run[i + 1] == Step(run[i], e);
      StepStuck(run[i], e, x, p);
      RunStuck(run, i + 1, j, x, p);
    }
  }

  /** A request tracks a group under a pid it has already ended a group under: the
      newcomer is never ended for it again, and from then on finalization never
      reports quiescence, even after the newcomer has died. */
  lemma ReuseNeverQuiesces(run: seq<State>, i: nat, j: nat, x: ScopeId, p: Pid, delivered: bool)
    requires IsRun(run) && i < j < |run|
    requires x in run[i].shares && GroupKey(p) in run[i].shares[x].promises
    requires Enabled(run[i], Tracks(Some(x), Some(p), delivered)) && run[i + 1] == Step(run[i], Tracks(Some(x), Some(p), delivered))
    ensures x in run[j].shares && p in run[j].shares[x].groups
    ensures run[j].shares[x].awaited.Some? ==> !Quiesced(run[j], x)
  {
    RunInv(run, i);
    TrackStuck(run[i], Some(x), Some(p), delivered, x, p);
    RunStuck(run, i + 1, j, x, p);
  }
}
