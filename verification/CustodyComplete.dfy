/** When finalizing a request does report quiescence. */
module CustodyComplete {
  import opened Wrappers
  import opened Custody
  import opened CustodyProof
  import opened CustodyReuse

  /** The request holds the group under `p`, no termination that would have released
      it has been answered positively, and the promise kept under the pid, if there
      is one, is for this very group. */
  ghost predicate Covered(s: State, x: ScopeId, p: Pid)
    requires x in s.shares && p in s.shares[x].groups
  {
    var share := s.shares[x];
    && (forall t {:trigger s.terms[t]} :: 0 <= t < |s.terms| && Frees(s.terms[t], x, share.groups[p]) ==>
        s.terms[t].stage != Answered(true))
    && (GroupKey(p) in share.promises ==>
        share.promises[GroupKey(p)] < |s.terms| && Frees(s.terms[share.promises[GroupKey(p)]], x, share.groups[p]))
  }

  /** Once finalization has started, the promise is one that it awaits. */
  ghost predicate Promised(s: State, x: ScopeId, p: Pid)
    requires x in s.shares && p in s.shares[x].groups
  {
    var share := s.shares[x];
    share.awaited.Some? ==> GroupKey(p) in share.promises && share.promises[GroupKey(p)] in share.awaited.value
  }

  ghost predicate Whole(s: State, x: ScopeId) {
    x in s.shares ==>
      && (forall p {:trigger Covered(s, x, p)} :: p in s.shares[x].groups ==> Covered(s, x, p))
      && (forall p {:trigger Promised(s, x, p)} :: p in s.shares[x].groups ==> Promised(s, x, p))
  }

  /** A group is tracked for the request under a pid that a promise is kept for, or
      after finalization has started. */
  predicate Misplaced(s: State, e: Event, x: ScopeId) {
    e.Tracks? && e.owner == Some(x) && e.pid.Some? && x in s.shares
    && (GroupKey(e.pid.value) in s.shares[x].promises || s.shares[x].awaited.Some?)
  }

  // ---------- what keeps the groups covered ----------

  /** Nothing about this request changed but flags, lone children and what other
      requests do. */
  lemma SameWhole(s: State, t: State, x: ScopeId)
    requires Whole(s, x) && x in s.shares && x in t.shares
    requires t.shares[x].groups == s.shares[x].groups && t.shares[x].awaited == s.shares[x].awaited
    requires forall p :: GroupKey(p) in t.shares[x].promises <==> GroupKey(p) in s.shares[x].promises
    requires forall p :: GroupKey(p) in s.shares[x].promises ==> t.shares[x].promises[GroupKey(p)] == s.shares[x].promises[GroupKey(p)]
    requires |s.terms| <= |t.terms|
    requires forall i {:trigger t.terms[i]} :: 0 <= i < |s.terms| ==> SameTerm(s.terms[i], t.terms[i])
    requires forall i {:trigger t.terms[i]} :: |s.terms| <= i < |t.terms| ==> t.terms[i].stage != Answered(true)
    ensures Whole(t, x)
  {
    forall p | p in t.shares[x].groups ensures Covered(t, x, p) { assert Covered(s, x, p); }
    forall p | p in t.shares[x].groups ensures Promised(t, x, p) { assert Promised(s, x, p); }
  }

  /** The same termination, not answered since. */
  predicate SameTerm(a: Termination, b: Termination) {
    b.child == a.child && b.scope == a.scope && b.releases == a.releases && (b.stage == Answered(true) ==> a.stage == Answered(true))
  }

  lemma EndGroupWhole(s: State, scope: Option<ScopeId>, c: nat, allow: bool, delivered: bool, x: ScopeId)
    requires Whole(s, x) && x in s.shares && Sound(s, x)
    requires c < |s.children| && s.children[c].pid.Some? && (scope.Some? ==> scope.value in s.shares)
    requires scope == Some(x) ==>
      s.children[c].pid.value in s.shares[x].groups && s.shares[x].groups[s.children[c].pid.value] == c
    ensures Whole(EndGroup(s, scope, c, allow, delivered), x)
  {
    var t := EndGroup(s, scope, c, allow, delivered);
    if scope == Some(x) && t != s {
      forall p | p in t.shares[x].groups ensures Covered(t, x, p) { assert Covered(s, x, p) && GroupOf(s, x, p); }
      forall p | p in t.shares[x].groups ensures Promised(t, x, p) { assert Promised(s, x, p); }
    } else {
      SameWhole(s, t, x);
    }
  }

  lemma EndChildWhole(s: State, y: ScopeId, c: nat, delivered: bool, x: ScopeId)
    requires Whole(s, x) && x in s.shares && Sound(s, x) && Sound(s, y) && c < |s.children|
    ensures Whole(EndChild(s, y, c, delivered), x)
  {
    var share, pid := s.shares[y], s.children[c].pid;
    if !share.committing && pid.Some? && pid.value in share.groups {
      assert GroupOf(s, y, pid.value);
      EndGroupWhole(s, Some(y), share.groups[pid.value], false, delivered, x);
    } else {
      SameWhole(s, EndChild(s, y, c, delivered), x);
    }
  }

  lemma {:induction false} EndGroupsWhole(s: State, y: ScopeId, pids: seq<Pid>, heeded: set<nat>, x: ScopeId)
    requires Whole(s, x) && x in s.shares && Sound(s, x) && Sound(s, y) && Inv(s)
    requires forall i :: 0 <= i < |pids| ==> pids[i] in s.shares[y].groups
    ensures Whole(EndGroups(s, y, pids, heeded), x) && x in EndGroups(s, y, pids, heeded).shares
    decreases |pids|
  {
    if pids != [] {
      assert GroupOf(s, y, pids[0]);
      var c := s.shares[y].groups[pids[0]];
      EndGroupWhole(s, Some(y), c, true, c in heeded, x);
      EndGroupKeeps(s, Some(y), c, true, c in heeded);
      var t := EndGroup(s, Some(y), c, true, c in heeded);
      assert Sound(t, x) && Sound(t, y);
      EndGroupsWhole(t, y, pids[1..], heeded, x);
    }
  }

  /** After the loop every group looped over has a promise. */
  lemma {:induction false} EndGroupsPromise(s: State, y: ScopeId, pids: seq<Pid>, heeded: set<nat>, p: Pid)
    requires Inv(s) && Sound(s, y) && forall i :: 0 <= i < |pids| ==> pids[i] in s.shares[y].groups
    requires p in pids || GroupKey(p) in s.shares[y].promises
    ensures GroupKey(p) in EndGroups(s, y, pids, heeded).shares[y].promises
    decreases |pids|
  {
    if pids != [] {
      assert GroupOf(s, y, pids[0]);
      var c := s.shares[y].groups[pids[0]];
      var t := EndGroup(s, Some(y), c, true, c in heeded);
      EndGroupKeeps(s, Some(y), c, true, c in heeded);
      assert Sound(t, y);
      assert p in pids ==> p == pids[0] || p in pids[1..];
      EndGroupsPromise(t, y, pids[1..], heeded, p);
    }
  }

  lemma {:induction false} OthersKeep(s: State, y: ScopeId, pids: seq<Pid>, heeded: set<nat>, x: ScopeId)
    requires Inv(s) && Sound(s, y) && x in s.shares && x != y
    requires forall i :: 0 <= i < |pids| ==> pids[i] in s.shares[y].groups
    ensures x in EndGroups(s, y, pids, heeded).shares && EndGroups(s, y, pids, heeded).shares[x] == s.shares[x]
    decreases |pids|
  {
    if pids != [] {
      assert GroupOf(s, y, pids[0]);
      var c := s.shares[y].groups[pids[0]];
      var t := EndGroup(s, Some(y), c, true, c in heeded);
      EndGroupKeeps(s, Some(y), c, true, c in heeded);
      assert Sound(t, y);
      OthersKeep(t, y, pids[1..], heeded, x);
    }
  }

  // ---------- the events ----------

  lemma FinalizeWhole(s: State, y: ScopeId, pids: seq<Pid>, heeded: set<nat>, x: ScopeId)
    requires Inv(s) && Whole(s, x) && x in s.shares && Enabled(s, FinalizeStarts(y, pids, heeded))
    ensures Whole(Step(s, FinalizeStarts(y, pids, heeded)), x)
  {
    var t := EndGroups(s, y, pids, heeded);
    var u := Step(s, FinalizeStarts(y, pids, heeded));
    assert Sound(s, x);
    EndGroupsWhole(s, y, pids, heeded, x);
    if x != y {
      OthersKeep(s, y, pids, heeded, x);
      SameWhole(t, u, x);
    } else {
      forall p | p in u.shares[x].groups ensures Covered(u, x, p) { assert Covered(t, x, p); }
      forall p | p in u.shares[x].groups ensures Promised(u, x, p) {
        EndGroupsPromise(s, y, pids, heeded, p);
        assert t.shares[x].promises[GroupKey(p)] in t.shares[x].promises.Values;
      }
    }
  }

  lemma TrackWhole(s: State, owner: Option<ScopeId>, pid: Option<Pid>, delivered: bool, x: ScopeId)
    requires Inv(s) && Whole(s, x) && x in s.shares && Enabled(s, Tracks(owner, pid, delivered))
    requires !Misplaced(s, Tracks(owner, pid, delivered), x)
    ensures Whole(Step(s, Tracks(owner, pid, delivered)), x)
  {
    var t := Enlist(s, owner, pid);
    EnlistKeeps(s, owner, pid);
    NoneYet(s, x);
    if owner == Some(x) && pid.Some? {
      forall p | p in t.shares[x].groups ensures Covered(t, x, p) {
        assert p != pid.value ==> Covered(s, x, p);
      }
      forall p | p in t.shares[x].groups ensures Promised(t, x, p) {
        assert p != pid.value ==> Promised(s, x, p);
      }
    } else {
      SameWhole(s, t, x);
    }
    if owner.Some? && s.shares[owner.value].cancelled && !s.shares[owner.value].committing {
      assert Sound(t, x) && Sound(t, owner.value);
      EndChildWhole(t, owner.value, |s.children|, delivered, x);
    }
  }

  lemma ReleaseWhole(s: State, t: nat, x: ScopeId)
    requires Inv(s) && Whole(s, x) && x in s.shares && Enabled(s, Releases(t))
    ensures Whole(Step(s, Releases(t)), x)
  {
    var u := Step(s, Releases(t));
    assert TermOk(s, t) && Sound(s, x);
    assert u.shares[x].promises == s.shares[x].promises && u.shares[x].awaited == s.shares[x].awaited;
    forall p | p in u.shares[x].groups ensures Covered(u, x, p) {
      assert Covered(s, x, p) && GroupOf(s, x, p);
    }
    forall p | p in u.shares[x].groups ensures Promised(u, x, p) { assert Promised(s, x, p); }
  }

  lemma StepWhole(s: State, e: Event, x: ScopeId)
    requires Inv(s) && Enabled(s, e) && Whole(s, x) && !Misplaced(s, e, x)
    ensures Whole(Step(s, e), x)
  {
    if x in s.shares {
      assert Sound(s, x);
      match e
      case Tracks(owner, pid, delivered) => TrackWhole(s, owner, pid, delivered, x);
      case EndsGroup(scope, c, allow, delivered) =>
        var p := s.children[c].pid.value;
        assert p in s.active ==> ActiveOk(s, p);
        EndGroupWhole(s, scope, c, allow, delivered, x);
      case EndsChild(y, c, delivered) => EndChildWhole(s, y, c, delivered, x);
      case Releases(t) => ReleaseWhole(s, t, x);
      case FinalizeStarts(y, pids, heeded) => FinalizeWhole(s, y, pids, heeded, x);
      case _ => OtherWhole(s, e, x);
    } else if e.Opens? || e.Tracks? || e.FinalizeStarts? {
      NotOpenedYet(s, e, x);
    }
  }

  lemma OtherWhole(s: State, e: Event, x: ScopeId)
    requires Enabled(s, e) && Whole(s, x) && x in s.shares
    requires !e.Tracks? && !e.EndsGroup? && !e.EndsChild? && !e.Releases? && !e.FinalizeStarts?
    ensures Whole(Step(s, e), x)
  {
    SameWhole(s, Step(s, e), x);
  }

  lemma NotOpenedYet(s: State, e: Event, x: ScopeId)
    requires Enabled(s, e) && x !in s.shares
    ensures var t := Step(s, e); x in t.shares ==> t.shares[x].groups == map[]
  {
  }

  // ---------- runs ----------

  ghost predicate OrderlyNext(s: State, t: State, x: ScopeId) {
    exists e :: Enabled(s, e) && t == Step(s, e) && !Misplaced(s, e, x)
  }

  /** No group of the request comes under a pid a promise is kept for, and none
      after its finalization has started. */
  ghost predicate IsOrderlyRun(run: seq<State>, x: ScopeId) {
    && |run| > 0 && run[0] == Initial
    && forall i :: 0 <= i < |run| - 1 ==> OrderlyNext(run[i], run[i + 1], x)
  }

  lemma OrderlyIsRun(run: seq<State>, x: ScopeId)
    requires IsOrderlyRun(run, x)
    ensures IsRun(run)
  {
    forall i | 0 <= i < |run| - 1 ensures Next(run[i], run[i + 1]) {
      assert OrderlyNext(run[i], run[i + 1], x);
    }
  }

  lemma {:induction false} RunWhole(run: seq<State>, i: nat, x: ScopeId)
    requires IsOrderlyRun(run, x) && IsRun(run) && i < |run|
    ensures Whole(run[i], x)
  {
    if i > 0 {
      var j := i - 1;
      RunWhole(run, j, x);
      RunInv(run, j);
      assert OrderlyNext(run[j], run[j + 1], x);
      NextWhole(run[j], run[j + 1], x);
    }
  }

  lemma NextWhole(s: State, t: State, x: ScopeId)
    requires OrderlyNext(s, t, x) && Inv(s) && Whole(s, x)
    ensures Whole(t, x)
  {
    var e :| Enabled(s, e) && t == Step(s, e) && !Misplaced(s, e, x);
    StepWhole(s, e, x);
  }

  /** Every receipt that finalization awaits has come and is positive. */
  predicate AllPositive(s: State, x: ScopeId)
    requires x in s.shares && s.shares[x].awaited.Some?
  {
    forall t :: t in s.shares[x].awaited.value ==> t < |s.terms| && s.terms[t].stage == Answered(true)
  }

  lemma NotHeld(s: State, x: ScopeId, p: Pid)
    requires Whole(s, x) && x in s.shares && s.shares[x].awaited.Some? && AllPositive(s, x)
    ensures p !in s.shares[x].groups
  {
    assert p in s.shares[x].groups ==> Covered(s, x, p) && Promised(s, x, p);
  }

  /** In such a run finalization reports quiescence if and only if every receipt it
      awaits is positive and no child is still waiting for its `close` event: every
      group the request ever tracked has then been released. */
  lemma QuiescenceIsReported(run: seq<State>, i: nat, x: ScopeId)
    requires IsOrderlyRun(run, x) && i < |run| && x in run[i].shares && run[i].shares[x].awaited.Some?
    ensures Quiesced(run[i], x) <==> AllPositive(run[i], x) && run[i].shares[x].children == {}
  {
    OrderlyIsRun(run, x);
    RunWhole(run, i, x);
    var s := run[i];
    if AllPositive(s, x) {
      forall p ensures p !in s.shares[x].groups { NotHeld(s, x, p); }
      assert s.shares[x].groups == map[];
    }
  }

  // ---------- a run with a pid that comes back ----------

  /** The state of a run in which there is one request. */
  function With(x: ScopeId, children: seq<Child>, active: map<Pid, nat>, terms: seq<Termination>, share: Share): State {
    State(children, active, terms, map[x := share])
  }

  /** A group of one process under `p`, running, dead and reaped. */
  function Alive(x: ScopeId, p: Pid): Child { Child(Some(p), Some(x), 1, 0) }
  function Dead(x: ScopeId, p: Pid): Child { Child(Some(p), Some(x), 0, 1) }
  function Empty(x: ScopeId, p: Pid): Child { Child(Some(p), Some(x), 0, 0) }

  function Ending(x: ScopeId, stage: Stage): Termination { Termination(0, Some(x), true, stage) }

  /** What the request holds: its children, its groups, one promise and what it awaits. */
  function Holding(p: Pid, children: set<nat>, groups: map<Pid, nat>, promised: bool, awaited: Option<set<nat>>): Share {
    Share(false, false, children, groups, if promised then map[GroupKey(p) := 0] else map[], awaited)
  }

  lemma TracksFirst(x: ScopeId, p: Pid)
    ensures Next(Initial, With(x, [], map[], [], NewShare))
    ensures Next(With(x, [], map[], [], NewShare), With(x, [Alive(x, p)], map[p := 0], [], Holding(p, {0}, map[p := 0], false, None)))
  {
    var s := With(x, [], map[], [], NewShare);
    assert Step(Initial, Opens(x)) == s;
    assert Enabled(s, Tracks(Some(x), Some(p), true));
    assert {} + {0} == {0};
    assert Enlist(s, Some(x), Some(p)).shares[x] == Holding(p, {0}, map[p := 0], false, None);
    assert Step(s, Tracks(Some(x), Some(p), true)) == With(x, [Alive(x, p)], map[p := 0], [], Holding(p, {0}, map[p := 0], false, None));
  }

  lemma EndsFirst(x: ScopeId, p: Pid)
    ensures Next(With(x, [Alive(x, p)], map[p := 0], [], Holding(p, {0}, map[p := 0], false, None)),
      With(x, [Alive(x, p)], map[p := 0], [Ending(x, Waiting)], Holding(p, {0}, map[p := 0], true, None)))
  {
    var s := With(x, [Alive(x, p)], map[p := 0], [], Holding(p, {0}, map[p := 0], false, None));
    var e := EndsGroup(Some(x), 0, true, true);
    assert s.children[0].pid == Some(p) && GroupAlive(s, p);
    assert Enabled(s, e);
    assert Step(s, e) == With(x, [Alive(x, p)], map[p := 0], [Ending(x, Waiting)], Holding(p, {0}, map[p := 0], true, None));
  }

  lemma FirstDies(x: ScopeId, p: Pid, share: Share)
    ensures var a, d, r, t := With(x, [Alive(x, p)], map[p := 0], [Ending(x, Waiting)], share),
        With(x, [Dead(x, p)], map[p := 0], [Ending(x, Waiting)], share),
        With(x, [Empty(x, p)], map[p := 0], [Ending(x, Waiting)], share),
        With(x, [Empty(x, p)], map[p := 0], [Ending(x, Observed(true))], share);
      Next(a, d) && Next(d, r) && Next(r, t)
  {
    var a := With(x, [Alive(x, p)], map[p := 0], [Ending(x, Waiting)], share);
    var d := With(x, [Dead(x, p)], map[p := 0], [Ending(x, Waiting)], share);
    var r := With(x, [Empty(x, p)], map[p := 0], [Ending(x, Waiting)], share);
    assert Step(a, Dies(0)) == d;
    assert Step(d, Reaped(0)) == r;
    assert Enabled(r, GroupQuiet(0));
    assert Step(r, GroupQuiet(0)) == With(x, [Empty(x, p)], map[p := 0], [Ending(x, Observed(true))], share);
  }

  lemma FirstReleased(x: ScopeId, p: Pid)
    ensures var t, u, v := With(x, [Empty(x, p)], map[p := 0], [Ending(x, Observed(true))], Holding(p, {0}, map[p := 0], true, None)),
        With(x, [Empty(x, p)], map[], [Ending(x, Answered(true))], Holding(p, {0}, map[], true, None)),
        With(x, [Empty(x, p)], map[], [Ending(x, Answered(true))], Holding(p, {}, map[], true, None));
      Next(t, u) && Next(u, v)
  {
    var t := With(x, [Empty(x, p)], map[p := 0], [Ending(x, Observed(true))], Holding(p, {0}, map[p := 0], true, None));
    var u := With(x, [Empty(x, p)], map[], [Ending(x, Answered(true))], Holding(p, {0}, map[], true, None));
    assert Enabled(t, Releases(0));
    assert map[p := 0] - {p} == map[];
    assert Step(t, Releases(0)) == u;
    assert {0} - {0} == {};
    assert Step(u, ChildCloses(0)) == With(x, [Empty(x, p)], map[], [Ending(x, Answered(true))], Holding(p, {}, map[], true, None));
  }

  /** The second group under the pid. */
  lemma TracksAgain(x: ScopeId, p: Pid)
    ensures var v, w := With(x, [Empty(x, p)], map[], [Ending(x, Answered(true))], Holding(p, {}, map[], true, None)),
        With(x, [Empty(x, p), Alive(x, p)], map[p := 1], [Ending(x, Answered(true))], Holding(p, {1}, map[p := 1], true, None));
      Enabled(v, Tracks(Some(x), Some(p), true)) && w == Step(v, Tracks(Some(x), Some(p), true))
  {
    var v := With(x, [Empty(x, p)], map[], [Ending(x, Answered(true))], Holding(p, {}, map[], true, None));
    assert !GroupAlive(v, p);
    assert Enabled(v, Tracks(Some(x), Some(p), true));
    assert {} + {1} == {1};
  }

  lemma SecondDies(x: ScopeId, p: Pid)
    ensures var a, d, r, q, f := SecondLife(x, p, Alive(x, p), {1}, None), SecondLife(x, p, Dead(x, p), {1}, None),
        SecondLife(x, p, Empty(x, p), {1}, None), SecondLife(x, p, Empty(x, p), {}, None), SecondLife(x, p, Empty(x, p), {}, Some({0}));
      Next(a, d) && Next(d, r) && Next(r, q) && Next(q, f)
  {
    var a, d := SecondLife(x, p, Alive(x, p), {1}, None), SecondLife(x, p, Dead(x, p), {1}, None);
    var r, q := SecondLife(x, p, Empty(x, p), {1}, None), SecondLife(x, p, Empty(x, p), {}, None);
    assert Step(a, Dies(1)) == d;
    assert Step(d, Reaped(1)) == r;
    assert {1} - {1} == {};
    assert Step(r, ChildCloses(1)) == q;
    FinalizesLast(x, p);
  }

  function SecondLife(x: ScopeId, p: Pid, child: Child, children: set<nat>, awaited: Option<set<nat>>): State {
    With(x, [Empty(x, p), child], map[p := 1], [Ending(x, Answered(true))], Holding(p, children, map[p := 1], true, awaited))
  }

  lemma FinalizesLast(x: ScopeId, p: Pid)
    ensures Next(SecondLife(x, p, Empty(x, p), {}, None), SecondLife(x, p, Empty(x, p), {}, Some({0})))
  {
    var q := SecondLife(x, p, Empty(x, p), {}, None);
    var e := FinalizeStarts(x, [p], {});
    assert GroupOf(q, x, p) && Sound(q, x);
    assert Enabled(q, e);
    assert EndGroup(q, Some(x), 1, true, false) == q;
    assert EndGroups(q, x, [p][1..], {}) == q;
    assert EndGroups(q, x, [p], {}) == q;
    assert q.shares[x].promises.Values == {0} by {
      assert GroupKey(p) in q.shares[x].promises;
    }
    assert Step(q, e) == SecondLife(x, p, Empty(x, p), {}, Some({0}));
  }

  lemma FirstLife(x: ScopeId, p: Pid) returns (run: seq<State>)
    ensures IsRun(run) && |run| == 9
    ensures run[8] == With(x, [Empty(x, p)], map[], [Ending(x, Answered(true))], Holding(p, {}, map[], true, None))
  {
    var held := Holding(p, {0}, map[p := 0], true, None);
    run := [Initial, With(x, [], map[], [], NewShare),
      With(x, [Alive(x, p)], map[p := 0], [], Holding(p, {0}, map[p := 0], false, None)),
      With(x, [Alive(x, p)], map[p := 0], [Ending(x, Waiting)], held),
      With(x, [Dead(x, p)], map[p := 0], [Ending(x, Waiting)], held),
      With(x, [Empty(x, p)], map[p := 0], [Ending(x, Waiting)], held),
      With(x, [Empty(x, p)], map[p := 0], [Ending(x, Observed(true))], held),
      With(x, [Empty(x, p)], map[], [Ending(x, Answered(true))], Holding(p, {0}, map[], true, None)),
      With(x, [Empty(x, p)], map[], [Ending(x, Answered(true))], Holding(p, {}, map[], true, None))];
    TracksFirst(x, p);
    EndsFirst(x, p);
    FirstDies(x, p, held);
    FirstReleased(x, p);
  }

  lemma Longer(run: seq<State>, a: State, b: State, c: State, d: State, e: State)
    requires IsRun(run) && Next(run[|run| - 1], a) && Next(a, b) && Next(b, c) && Next(c, d) && Next(d, e)
    ensures IsRun(run + [a, b, c, d, e])
  {
    var longer := run + [a, b, c, d, e];
    forall i | 0 <= i < |longer| - 1 ensures Next(longer[i], longer[i + 1]) {
      assert i < |run| - 1 ==> Next(run[i], run[i + 1]);
    }
  }

  /** A request tracks a pid, ends it, and tracks it again once it is free. Both
      groups die, every receipt is positive, no child is left, and finalization
      still does not report quiescence. */
  lemma ReuseHappens(x: ScopeId, p: Pid) returns (run: seq<State>)
    ensures IsRun(run) && |run| == 14 && x in run[8].shares && GroupKey(p) in run[8].shares[x].promises
    ensures Enabled(run[8], Tracks(Some(x), Some(p), true)) && run[9] == Step(run[8], Tracks(Some(x), Some(p), true))
    ensures x in run[13].shares && run[13].shares[x].awaited.Some?
    ensures AllPositive(run[13], x) && run[13].shares[x].children == {} && !Quiesced(run[13], x)
    ensures forall c :: 0 <= c < |run[13].children| ==> run[13].children[c].running + run[13].children[c].zombies == 0
  {
    var first := FirstLife(x, p);
    TracksAgain(x, p);
    var a, d := SecondLife(x, p, Alive(x, p), {1}, None), SecondLife(x, p, Dead(x, p), {1}, None);
    var r, q := SecondLife(x, p, Empty(x, p), {1}, None), SecondLife(x, p, Empty(x, p), {}, None);
    var f := SecondLife(x, p, Empty(x, p), {}, Some({0}));
    SecondDies(x, p);
    Longer(first, a, d, r, q, f);
    run := first + [a, d, r, q, f];
    assert run[8] == first[8] && run[9] == a && run[13] == f;
    assert f.shares[x].groups[p] == 1;
  }

  /** And without the second group it does. */
  lemma QuiescenceHappens(x: ScopeId, p: Pid) returns (run: seq<State>)
    ensures IsRun(run) && |run| == 10 && |run[9].children| == 1 && run[9].children[0].owner == Some(x)
    ensures x in run[9].shares && run[9].shares[x].awaited == Some({0}) && Quiesced(run[9], x)
  {
    var first := FirstLife(x, p);
    var s := first[8];
    var e := FinalizeStarts(x, [], {});
    assert Enabled(s, e);
    assert s.shares[x].promises.Values == {0} by {
      assert GroupKey(p) in s.shares[x].promises;
    }
    var t := Step(s, e);
    run := first + [t];
    forall i | 0 <= i < |run| - 1 ensures Next(run[i], run[i + 1]) {
      assert i < |first| - 1 ==> Next(first[i], first[i + 1]);
    }
  }
}
