/** Finalizing a request reports quiescence only when it is true. */
module CustodyProof {
  import opened Wrappers
  import opened Custody

  // ---------- the invariant ----------

  ghost predicate ActiveOk(s: State, p: Pid)
    requires p in s.active
  {
    var c := s.active[p];
    && c < |s.children| && s.children[c].pid == Some(p)
    && (s.children[c].owner.Some? ==>
        var x := s.children[c].owner.value;
        x in s.shares && p in s.shares[x].groups && s.shares[x].groups[p] == c)
  }

  ghost predicate TermOk(s: State, t: nat)
    requires t < |s.terms|
  {
    var term := s.terms[t];
    && term.child < |s.children|
    && (term.scope.Some? ==> s.children[term.child].owner == term.scope)
    && (term.releases ==> s.children[term.child].pid.Some?)
    && (Positive(term.stage) && s.children[term.child].pid.Some? ==> s.children[term.child].running == 0)
  }

  predicate Positive(stage: Stage) { stage == Observed(true) || stage == Answered(true) }

  /** A later group of the same request took the pid, which the kernel gives out
      again only when the group is empty. */
  ghost predicate Superseded(s: State, c: nat)
    requires c < |s.children|
  {
    exists d :: c < d < |s.children| && s.children[d].pid == s.children[c].pid && s.children[d].owner == s.children[c].owner
  }

  /** The group was answered for with a positive receipt. */
  ghost predicate Receipted(s: State, c: nat)
    requires c < |s.children|
  {
    exists t :: 0 <= t < |s.terms| && s.terms[t].child == c && s.terms[t].scope == s.children[c].owner
      && s.terms[t].releases && s.terms[t].stage == Answered(true)
  }

  ghost predicate Held(s: State, c: nat)
    requires c < |s.children| && s.children[c].pid.Some? && s.children[c].owner.Some?
  {
    var p, x := s.children[c].pid.value, s.children[c].owner.value;
    x in s.shares && p in s.shares[x].groups && s.shares[x].groups[p] == c
  }

  /** No member can still mutate, and neither map holds the group. */
  ghost predicate Gone(s: State, c: nat)
    requires c < |s.children| && s.children[c].pid.Some?
  {
    var p := s.children[c].pid.value;
    && s.children[c].running == 0
    && !(p in s.active && s.active[p] == c)
    && (Receipted(s, c) || Superseded(s, c))
  }

  ghost predicate ChildOk(s: State, c: nat)
    requires c < |s.children|
  {
    && (s.children[c].owner.Some? ==> s.children[c].owner.value in s.shares)
    && (s.children[c].owner.Some? && s.children[c].pid.Some? ==> Held(s, c) || Gone(s, c))
  }

  /** Of two groups with one pid the earlier is empty. */
  ghost predicate PidOk(s: State, c: nat, d: nat)
    requires c < d < |s.children|
  {
    s.children[c].pid.Some? && s.children[c].pid == s.children[d].pid ==>
      s.children[c].running + s.children[c].zombies == 0
  }

  ghost predicate Inv(s: State) {
    && (forall x {:trigger Sound(s, x)} :: x in s.shares ==> Sound(s, x))
    && (forall p {:trigger ActiveOk(s, p)} :: p in s.active ==> ActiveOk(s, p))
    && (forall t: nat {:trigger TermOk(s, t)} :: t < |s.terms| ==> TermOk(s, t))
    && (forall c: nat {:trigger ChildOk(s, c)} :: c < |s.children| ==> ChildOk(s, c))
    && (forall c: nat, d: nat {:trigger PidOk(s, c, d)} :: c < d < |s.children| ==> PidOk(s, c, d))
  }

  // ---------- what stays ----------

  /** A dead group stays dead and an answer given is kept. */
  ghost predicate Later(s: State, t: State) {
    && |s.children| <= |t.children| && |s.terms| <= |t.terms|
    && (forall c :: 0 <= c < |s.children| ==>
        && t.children[c].pid == s.children[c].pid && t.children[c].owner == s.children[c].owner
        && (s.children[c].running == 0 ==> t.children[c].running == 0)
        && (s.children[c].running + s.children[c].zombies == 0 ==> t.children[c].running + t.children[c].zombies == 0))
    && (forall i :: 0 <= i < |s.terms| ==>
        && t.terms[i].child == s.terms[i].child && t.terms[i].scope == s.terms[i].scope
        && t.terms[i].releases == s.terms[i].releases
        && (s.terms[i].stage.Answered? ==> t.terms[i].stage == s.terms[i].stage))
  }

  lemma LaterGone(s: State, t: State, c: nat)
    requires Later(s, t) && c < |s.children|
    ensures Superseded(s, c) ==> Superseded(t, c)
    ensures Receipted(s, c) ==> Receipted(t, c)
  {
    if Superseded(s, c) {
      var d :| c < d < |s.children| && s.children[d].pid == s.children[c].pid && s.children[d].owner == s.children[c].owner;
      assert t.children[d].pid == t.children[c].pid && t.children[d].owner == t.children[c].owner;
    }
    if Receipted(s, c) {
      var i :| 0 <= i < |s.terms| && s.terms[i].child == c && s.terms[i].scope == s.children[c].owner
        && s.terms[i].releases && s.terms[i].stage == Answered(true);
      assert t.terms[i].child == c;
    }
  }

  // ---------- the operating system ----------

  lemma SystemKeeps(s: State, t: State)
    requires Inv(s) && Later(s, t)
    requires |t.children| == |s.children| && t.terms == s.terms && t.active == s.active && t.shares == s.shares
    ensures Inv(t)
  {
    forall x | x in t.shares ensures Sound(t, x) {
      assert Sound(s, x);
      forall p | p in t.shares[x].groups ensures GroupOf(t, x, p) { assert GroupOf(s, x, p); }
    }
    forall p | p in t.active ensures ActiveOk(t, p) { assert ActiveOk(s, p); }
    forall i: nat | i < |t.terms| ensures TermOk(t, i) { assert TermOk(s, i); }
    forall c: nat | c < |t.children| ensures ChildOk(t, c) {
      assert ChildOk(s, c);
      LaterGone(s, t, c);
    }
    forall c: nat, d: nat | c < d < |t.children| ensures PidOk(t, c, d) { assert PidOk(s, c, d); }
  }

  // ---------- shares ----------

  /** Only flags, child sets or promises of shares changed, or a new share came. */
  ghost predicate SameGroups(s: State, t: State) {
    && t.children == s.children && t.active == s.active
    && (forall x :: x in s.shares ==> x in t.shares && t.shares[x].groups == s.shares[x].groups)
    && (forall x :: x in t.shares && x !in s.shares ==> t.shares[x].groups == map[])
  }

  lemma SharesKeep(s: State, t: State)
    requires Inv(s) && SameGroups(s, t) && Later(s, t)
    requires forall i: nat :: i < |t.terms| && (i >= |s.terms| || t.terms[i] != s.terms[i]) ==> TermOk(t, i)
    ensures Inv(t)
  {
    forall x | x in t.shares ensures Sound(t, x) {
      if x in s.shares {
        assert Sound(s, x);
        forall p | p in t.shares[x].groups ensures GroupOf(t, x, p) { assert GroupOf(s, x, p); }
      }
    }
    forall p | p in t.active ensures ActiveOk(t, p) { assert ActiveOk(s, p); }
    forall i: nat | i < |t.terms| ensures TermOk(t, i) {
      if i < |s.terms| && t.terms[i] == s.terms[i] { assert TermOk(s, i); }
    }
    forall c: nat | c < |t.children| ensures ChildOk(t, c) {
      assert ChildOk(s, c);
      LaterGone(s, t, c);
    }
    forall c: nat, d: nat | c < d < |t.children| ensures PidOk(t, c, d) { assert PidOk(s, c, d); }
  }

  lemma EndGroupKeeps(s: State, scope: Option<ScopeId>, c: nat, allow: bool, delivered: bool)
    requires Inv(s) && c < |s.children| && s.children[c].pid.Some?
    requires scope.Some? ==> s.children[c].owner == scope && scope.value in s.shares
    ensures var t := EndGroup(s, scope, c, allow, delivered); Inv(t) && Later(s, t) && SameGroups(s, t)
  {
    var t := EndGroup(s, scope, c, allow, delivered);
    assert |t.terms| > |s.terms| ==> TermOk(t, |s.terms|);
    SharesKeep(s, t);
  }

  lemma EndChildKeeps(s: State, x: ScopeId, c: nat, delivered: bool)
    requires Inv(s) && c < |s.children| && x in s.shares && Sound(s, x) && s.children[c].owner == Some(x)
    ensures var t := EndChild(s, x, c, delivered); Inv(t) && Later(s, t)
  {
    var share := s.shares[x];
    var pid := s.children[c].pid;
    if !share.committing && pid.Some? && pid.value in share.groups {
      assert GroupOf(s, x, pid.value);
      EndGroupKeeps(s, Some(x), share.groups[pid.value], false, delivered);
    } else {
      var t := EndChild(s, x, c, delivered);
      assert |t.terms| > |s.terms| ==> TermOk(t, |s.terms|);
      SharesKeep(s, t);
    }
  }

  lemma {:induction false} EndGroupsKeep(s: State, x: ScopeId, pids: seq<Pid>, heeded: set<nat>)
    requires Inv(s) && x in s.shares && Sound(s, x)
    requires forall i :: 0 <= i < |pids| ==> pids[i] in s.shares[x].groups
    ensures var t := EndGroups(s, x, pids, heeded); Inv(t) && Later(s, t)
    decreases |pids|
  {
    if pids != [] {
      var c := s.shares[x].groups[pids[0]];
      assert GroupOf(s, x, pids[0]);
      var t := EndGroup(s, Some(x), c, true, c in heeded);
      EndGroupKeeps(s, Some(x), c, true, c in heeded);
      assert Sound(t, x);
      EndGroupsKeep(t, x, pids[1..], heeded);
    }
  }

  // ---------- a new child ----------

  lemma EnlistLater(s: State, owner: Option<ScopeId>, pid: Option<Pid>)
    requires owner.Some? ==> owner.value in s.shares
    ensures Later(s, Enlist(s, owner, pid))
  {
  }

  lemma EnlistSound(s: State, owner: Option<ScopeId>, pid: Option<Pid>, x: ScopeId)
    requires owner.Some? ==> owner.value in s.shares
    requires x in s.shares && Sound(s, x)
    ensures Sound(Enlist(s, owner, pid), x)
  {
    var t := Enlist(s, owner, pid);
    forall p | p in t.shares[x].groups ensures GroupOf(t, x, p) {
      assert p in s.shares[x].groups ==> GroupOf(s, x, p);
    }
  }

  /** A group that loses its place in a map to a newcomer has the newcomer's pid
      and, the pid being free, nobody left. */
  lemma EnlistChild(s: State, owner: Option<ScopeId>, pid: Option<Pid>, c: nat)
    requires owner.Some? ==> owner.value in s.shares
    requires pid.Some? ==> !GroupAlive(s, pid.value)
    requires c < |s.children| && ChildOk(s, c)
    ensures ChildOk(Enlist(s, owner, pid), c)
  {
    var t := Enlist(s, owner, pid);
    EnlistLater(s, owner, pid);
    LaterGone(s, t, c);
    if pid.Some? && s.children[c].pid == pid && s.children[c].owner == owner && owner.Some? {
      assert t.children[|s.children|].pid == t.children[c].pid;
      assert Superseded(t, c);
    }
  }

  lemma EnlistKeeps(s: State, owner: Option<ScopeId>, pid: Option<Pid>)
    requires Inv(s) && (owner.Some? ==> owner.value in s.shares)
    requires pid.Some? ==> !GroupAlive(s, pid.value)
    ensures Inv(Enlist(s, owner, pid)) && Later(s, Enlist(s, owner, pid))
  {
    var t := Enlist(s, owner, pid);
    EnlistLater(s, owner, pid);
    forall x | x in t.shares ensures Sound(t, x) { EnlistSound(s, owner, pid, x); }
    forall p | p in t.active ensures ActiveOk(t, p) {
      assert p in s.active ==> ActiveOk(s, p);
    }
    forall i: nat | i < |t.terms| ensures TermOk(t, i) { assert TermOk(s, i); }
    forall c: nat | c < |t.children| ensures ChildOk(t, c) {
      if c < |s.children| { EnlistChild(s, owner, pid, c); }
    }
    forall c: nat, d: nat | c < d < |t.children| ensures PidOk(t, c, d) {
      if d < |s.children| { assert PidOk(s, c, d); }
    }
  }

  lemma TrackKeeps(s: State, owner: Option<ScopeId>, pid: Option<Pid>, delivered: bool)
    requires Inv(s) && (owner.Some? ==> Sound(s, owner.value))
    requires pid.Some? ==> !GroupAlive(s, pid.value)
    ensures Inv(Track(s, owner, pid, delivered)) && Later(s, Track(s, owner, pid, delivered))
  {
    EnlistKeeps(s, owner, pid);
    if owner.Some? && s.shares[owner.value].cancelled && !s.shares[owner.value].committing {
      EndChildKeeps(Enlist(s, owner, pid), owner.value, |s.children|, delivered);
    }
  }

  // ---------- a termination is decided and answered ----------

  lemma StageKeeps(s: State, t: nat, stage: Stage)
    requires Inv(s) && t < |s.terms| && !s.terms[t].stage.Answered?
    requires Positive(stage) ==> Positive(s.terms[t].stage) || TermOk(SetStage(s, t, stage), t)
    ensures Inv(SetStage(s, t, stage)) && Later(s, SetStage(s, t, stage))
  {
    assert TermOk(s, t);
    SharesKeep(s, SetStage(s, t, stage));
  }

  /** The group of a positive answer leaves the maps; it is gone. */
  lemma ReleaseKeeps(s: State, t: nat)
    requires Inv(s) && t < |s.terms| && s.terms[t].stage == Answered(true) && s.terms[t].releases
    requires s.terms[t].child < |s.children| && s.children[s.terms[t].child].pid.Some?
    ensures var r := Release(s, s.terms[t].scope, s.terms[t].child, s.children[s.terms[t].child].pid.value);
      Inv(r) && Later(s, r)
  {
    var term := s.terms[t];
    var r := Release(s, term.scope, term.child, s.children[term.child].pid.value);
    assert TermOk(s, t);
    assert r.children == s.children && r.terms == s.terms;
    forall x | x in r.shares ensures Sound(r, x) {
      assert Sound(s, x);
      forall p | p in r.shares[x].groups ensures GroupOf(r, x, p) { assert GroupOf(s, x, p); }
    }
    forall p | p in r.active ensures ActiveOk(r, p) { assert ActiveOk(s, p); }
    forall i: nat | i < |r.terms| ensures TermOk(r, i) { assert TermOk(s, i); }
    forall c: nat | c < |r.children| ensures ChildOk(r, c) {
      assert ChildOk(s, c);
      LaterGone(s, r, c);
      if c == term.child && term.scope.Some? {
        assert Receipted(r, c);
      }
    }
    forall c: nat, d: nat | c < d < |r.children| ensures PidOk(r, c, d) { assert PidOk(s, c, d); }
  }

  lemma QuietOk(s: State, t: nat)
    requires Inv(s) && Enabled(s, GroupQuiet(t))
    ensures TermOk(SetStage(s, t, Observed(true)), t)
  {
    assert TermOk(s, t);
    var c := s.terms[t].child;
    var p := s.children[c].pid.value;
    assert !CanMutate(s, p) && s.children[c].pid == Some(p);
  }

  // ---------- every event ----------

  lemma TermEventKeeps(s: State, e: Event)
    requires Inv(s) && Enabled(s, e) && (e.GroupQuiet? || e.GivesUp? || e.Releases?)
    ensures Inv(Step(s, e)) && Later(s, Step(s, e))
  {
    match e
    case GroupQuiet(t) =>
      QuietOk(s, t);
      StageKeeps(s, t, Observed(true));
    case GivesUp(t) => StageKeeps(s, t, Observed(false));
    case Releases(t) =>
      assert TermOk(s, t);
      var r := SetStage(s, t, Answered(s.terms[t].stage.quiesced));
      StageKeeps(s, t, Answered(s.terms[t].stage.quiesced));
      if s.terms[t].releases && s.terms[t].stage.quiesced { ReleaseKeeps(r, t); }
  }

  lemma ShareEventKeeps(s: State, e: Event)
    requires Inv(s) && Enabled(s, e) && (e.Opens? || e.Cancels? || e.Commits? || e.ChildCloses?)
    ensures Inv(Step(s, e)) && Later(s, Step(s, e))
  {
    SharesKeep(s, Step(s, e));
  }

  lemma SystemEventKeeps(s: State, e: Event)
    requires Inv(s) && Enabled(s, e) && (e.Forks? || e.Dies? || e.Reaped?)
    ensures Inv(Step(s, e)) && Later(s, Step(s, e))
  {
    SystemKeeps(s, Step(s, e));
  }

  lemma AwaitsKeeps(s: State, x: ScopeId)
    requires Inv(s) && x in s.shares
    ensures var t := SetShare(s, x, s.shares[x].(awaited := Some(s.shares[x].promises.Values))); Inv(t) && Later(s, t)
  {
    SharesKeep(s, SetShare(s, x, s.shares[x].(awaited := Some(s.shares[x].promises.Values))));
  }

  lemma FinalizeKeeps(s: State, x: ScopeId, pids: seq<Pid>, heeded: set<nat>)
    requires Inv(s) && Enabled(s, FinalizeStarts(x, pids, heeded))
    ensures var t := Step(s, FinalizeStarts(x, pids, heeded)); Inv(t) && Later(s, t)
  {
    EndGroupsKeep(s, x, pids, heeded);
    AwaitsKeeps(EndGroups(s, x, pids, heeded), x);
  }

  lemma StepKeeps(s: State, e: Event)
    requires Inv(s) && Enabled(s, e)
    ensures Inv(Step(s, e)) && Later(s, Step(s, e))
  {
    match e
    case Tracks(owner, pid, delivered) => TrackKeeps(s, owner, pid, delivered);
    case EndsGroup(scope, c, allow, delivered) => EndGroupKeeps(s, scope, c, allow, delivered);
    case EndsChild(x, c, delivered) => EndChildKeeps(s, x, c, delivered);
    case FinalizeStarts(x, pids, heeded) => FinalizeKeeps(s, x, pids, heeded);
    case _ =>
      if e.Forks? || e.Dies? || e.Reaped? { SystemEventKeeps(s, e); }
      else if e.GroupQuiet? || e.GivesUp? || e.Releases? { TermEventKeeps(s, e); } else { ShareEventKeeps(s, e); }
  }

  // ---------- runs ----------

  ghost predicate Next(s: State, t: State) {
    exists e :: Enabled(s, e) && t == Step(s, e)
  }

  ghost predicate IsRun(run: seq<State>) {
    && |run| > 0 && run[0] == Initial
    && forall i :: 0 <= i < |run| - 1 ==> Next(run[i], run[i + 1])
  }

  lemma {:induction false} RunInv(run: seq<State>, i: nat)
    requires IsRun(run) && i < |run|
    ensures Inv(run[i])
  {
    if i > 0 {
      RunInv(run, i - 1);
      assert Next(run[i - 1], run[i - 1 + 1]);
      var e :| Enabled(run[i - 1], e) && run[i] == Step(run[i - 1], e);
      StepKeeps(run[i - 1], e);
    }
  }

  lemma {:induction false} RunLater(run: seq<State>, i: nat, j: nat)
    requires IsRun(run) && i <= j < |run|
    ensures Later(run[i], run[j])
    decreases j - i
  {
    if i < j {
      RunInv(run, i);
      assert Next(run[i], run[i + 1]);
      var e :| Enabled(run[i], e) && run[i + 1] == Step(run[i], e);
      StepKeeps(run[i], e);
      RunLater(run, i + 1, j);
    }
  }

  /** When finalization reports quiescence at some moment of a run, every group
      tracked for the request until then, early or late, has been answered for
      with a positive receipt or has lost its pid to a later group of the request;
      it has left both maps; and it has no member that could mutate, then or ever after. */
  lemma QuiescenceIsTrue(run: seq<State>, i: nat, j: nat, x: ScopeId, c: nat)
    requires IsRun(run) && i <= j < |run|
    requires x in run[i].shares && run[i].shares[x].awaited.Some? && Quiesced(run[i], x)
    requires c < |run[i].children| && run[i].children[c].owner == Some(x) && run[i].children[c].pid.Some?
    ensures var s, p := run[i], run[i].children[c].pid.value;
      && (Receipted(s, c) || Superseded(s, c))
      && p !in s.shares[x].groups && !(p in s.active && s.active[p] == c)
    ensures c < |run[j].children| && run[j].children[c].running == 0
  {
    RunInv(run, i);
    assert ChildOk(run[i], c);
    RunLater(run, i, j);
  }
}
