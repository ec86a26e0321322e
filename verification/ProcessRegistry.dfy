/** Custody as the agent keeps it: module-level maps and each scope's own,
    changed step by step and proved to take the steps of the custody model. */
module ProcessRegistry {
  import opened Wrappers
  import opened Custody

  class Registry {
    var children: seq<Child>            // what was spawned, with what the kernel knows of it
    var active: map<Pid, nat>
    var terms: seq<Termination>
    var shares: map<ScopeId, Share>

    ghost function View(): State
      reads this
    {
      State(children, active, terms, shares)
    }

    constructor ()
      ensures View() == Initial
    {
      children, active, terms, shares := [], map[], [], map[];
    }

    /** `releaseRetainedProcessGroup`. */
    method ReleaseGroup(scope: Option<ScopeId>, c: nat, pid: Pid)
      modifies this`active, this`shares
      ensures View() == Release(old(View()), scope, c, pid)
    {
      if pid in active && active[pid] == c { active := active - {pid}; }
      if scope.Some? && scope.value in shares {
        var share := shares[scope.value];
        if pid in share.groups && share.groups[pid] == c {
          shares := shares[scope.value := share.(groups := share.groups - {pid})];
        }
      }
    }

    /** The synchronous part of `terminateWorkspaceProcessTree`. */
    method StartTermination(c: nat, scope: Option<ScopeId>, releases: bool, delivered: bool) returns (t: nat)
      requires c < |children|
      modifies this`terms
      ensures t == |old(terms)| && View() == Begin(old(View()), c, scope, releases, delivered)
    {
      t := |terms|;
      var pid := children[c].pid;
      var stage := Waiting;
      if pid.None? {
        stage := Observed(delivered);
      } else if !GroupAlive(State(children, active, terms, shares), pid.value) {
        stage := Observed(true);
      } else if !delivered {
        stage := Observed(false);
      }
      terms := terms + [Termination(c, scope, releases, stage)];
    }

    /** `terminateRetainedProcessGroup`. */
    method TerminateGroup(scope: Option<ScopeId>, c: nat, allow: bool, delivered: bool)
      requires c < |children| && children[c].pid.Some? && (scope.Some? ==> scope.value in shares)
      modifies this`terms, this`shares
      ensures View() == EndGroup(old(View()), scope, c, allow, delivered)
    {
      if scope.Some? && shares[scope.value].committing && !allow { return; }
      var key := GroupKey(children[c].pid.value);
      if scope.Some? && key in shares[scope.value].promises { return; }
      var t := StartTermination(c, scope, true, delivered);
      if scope.Some? {
        var share := shares[scope.value];
        shares := shares[scope.value := share.(promises := share.promises[key := t])];
      }
    }

    /** `terminateScopeChild`. */
    method TerminateChild(x: ScopeId, c: nat, delivered: bool)
      requires c < |children| && Sound(View(), x)
      modifies this`terms, this`shares
      ensures View() == EndChild(old(View()), x, c, delivered)
    {
      var share := shares[x];
      if share.committing { return; }
      var pid := children[c].pid;
      if pid.Some? && pid.value in share.groups {
        assert GroupOf(View(), x, pid.value);
        TerminateGroup(Some(x), share.groups[pid.value], false, delivered);
        return;
      }
      if ChildKey(c) in share.promises { return; }
      var t := StartTermination(c, Some(x), false, delivered);
      shares := shares[x := share.(promises := share.promises[ChildKey(c) := t])];
    }

    /** The maps `trackChildProcess` writes. */
    method AddChild(owner: Option<ScopeId>, pid: Option<Pid>)
      requires owner.Some? ==> owner.value in shares
      modifies this`children, this`active, this`shares
      ensures View() == Enlist(old(View()), owner, pid)
    {
      var c := |children|;
      children := children + [Child(pid, owner, if pid.Some? then 1 else 0, 0)];
      if pid.Some? { active := active[pid.value := c]; }
      if owner.Some? {
        var share := shares[owner.value];
        var groups := if pid.Some? then share.groups[pid.value := c] else share.groups;
        shares := shares[owner.value := share.(children := share.children + {c}, groups := groups)];
      }
    }

    /** `trackChildProcess`. */
    method TrackChild(owner: Option<ScopeId>, pid: Option<Pid>, delivered: bool)
      requires owner.Some? ==> Sound(View(), owner.value)
      modifies this
      ensures View() == Track(old(View()), owner, pid, delivered)
    {
      AddChild(owner, pid);
      if owner.Some? && shares[owner.value].cancelled && !shares[owner.value].committing {
        assert Sound(View(), owner.value) by {
          assert forall p :: p in old(shares)[owner.value].groups ==> GroupOf(old(View()), owner.value, p);
          forall p | p in shares[owner.value].groups ensures GroupOf(View(), owner.value, p) {
          }
        }
        TerminateChild(owner.value, |children| - 1, delivered);
      }
    }

    /** The promise of a termination runs its continuation. */
    method Answer(t: nat)
      requires t < |terms| && terms[t].stage.Observed? && terms[t].child < |children|
      modifies this`terms, this`active, this`shares
      ensures View() == Step(old(View()), Releases(t))
    {
      var term := terms[t];
      terms := terms[t := term.(stage := Answered(term.stage.quiesced))];
      if term.stage.quiesced && term.releases && children[term.child].pid.Some? {
        ReleaseGroup(term.scope, term.child, children[term.child].pid.value);
      }
    }

    /** `finalizeRequestProcessCustody` up to its await, over the scope's groups in their order. */
    method StartFinalizing(x: ScopeId, pids: seq<Pid>, heeded: set<nat>)
      requires Sound(View(), x) && forall p :: p in pids <==> p in shares[x].groups
      modifies this`terms, this`shares
      ensures View() == Step(old(View()), FinalizeStarts(x, pids, heeded))
    {
      ghost var all := EndGroups(View(), x, pids, heeded);
      for i := 0 to |pids|
        invariant Sound(View(), x) && children == old(children)
        invariant forall j :: 0 <= j < |pids| ==> pids[j] in shares[x].groups
        invariant EndGroups(View(), x, pids[i..], heeded) == all
      {
        assert GroupOf(View(), x, pids[i]);
        assert pids[i..][0] == pids[i] && pids[i..][1..] == pids[i + 1..];
        label turn:
        TerminateGroup(Some(x), shares[x].groups[pids[i]], true, shares[x].groups[pids[i]] in heeded);
        forall p | p in shares[x].groups ensures GroupOf(View(), x, p) {
          assert GroupOf(old@turn(View()), x, p);
        }
      }
      assert pids[|pids|..] == [];
      var share := shares[x];
      shares := shares[x := share.(awaited := Some(share.promises.Values))];
    }

    /** The answer, once every awaited receipt is there. */
    method FinishFinalizing(x: ScopeId) returns (quiesced: bool)
      requires x in shares && shares[x].awaited.Some?
      requires forall t :: t in shares[x].awaited.value ==> t < |terms| && terms[t].stage.Answered?
      ensures quiesced <==> Quiesced(View(), x)
    {
      var left := shares[x].awaited.value;
      var every := true;
      while left != {}
        invariant left <= shares[x].awaited.value
        invariant every <==> forall t :: t in shares[x].awaited.value - left ==> terms[t].stage.quiesced
        decreases |left|
      {
        var t :| t in left;
        every := every && terms[t].stage.quiesced;
        left := left - {t};
      }
      quiesced := shares[x].children == {} && shares[x].groups == map[] && every;
    }
  }
}
