/** Process custody on POSIX: which process groups a request may still own, who
    has asked for their end and what finalizing a request is allowed to report. */
module Custody {
  import opened Wrappers

  type Pid = nat
  type ScopeId = string

  /** A child the agent has spawned, under the number it was tracked with. With
      a pid it leads a process group of that number; `running` counts the group's
      members that are no zombies. */
  datatype Child = Child(pid: Option<Pid>, owner: Option<ScopeId>, running: nat, zombies: nat)

  /** A termination: waiting for the group's end, decided, or answered, which is
      after the release that a positive receipt brings. */
  datatype Stage = Waiting | Observed(quiesced: bool) | Answered(quiesced: bool)

  datatype Termination = Termination(child: nat, scope: Option<ScopeId>, releases: bool, stage: Stage)

  datatype Key = GroupKey(pid: Pid) | ChildKey(child: nat)

  /** A request scope's share: `children`, `processGroups` and `terminationPromises`. */
  datatype Share = Share(
    cancelled: bool, committing: bool,
    children: set<nat>, groups: map<Pid, nat>, promises: map<Key, nat>,
    awaited: Option<set<nat>>)

  const NewShare := Share(false, false, {}, map[], map[], None)

  datatype State = State(
    children: seq<Child>,
    active: map<Pid, nat>,             // `activeProcessGroups`
    terms: seq<Termination>,
    shares: map<ScopeId, Share>)

  const Initial := State([], map[], [], map[])

  datatype Event =
    // operating system
    | Forks(c: nat)
    | Dies(c: nat)
    | Reaped(c: nat)
    // agent
    | Opens(x: ScopeId)
    | Cancels(x: ScopeId)
    | Commits(x: ScopeId, on: bool)
    | Tracks(owner: Option<ScopeId>, pid: Option<Pid>, delivered: bool)
    | ChildCloses(c: nat)
    | EndsGroup(scope: Option<ScopeId>, c: nat, allow: bool, delivered: bool)
    | EndsChild(x: ScopeId, c: nat, delivered: bool)
    | GroupQuiet(t: nat)
    | GivesUp(t: nat)
    | Releases(t: nat)
    | FinalizeStarts(x: ScopeId, pids: seq<Pid>, heeded: set<nat>)

  // ---------- what the kernel can be asked ----------

  /** `kill(-pid, 0)` finds somebody. */
  predicate GroupAlive(s: State, pid: Pid) {
    exists c :: 0 <= c < |s.children| && s.children[c].pid == Some(pid) && s.children[c].running + s.children[c].zombies > 0
  }

  /** `posixProcessGroupCanMutate`: somebody who is no zombie. */
  predicate CanMutate(s: State, pid: Pid) {
    exists c :: 0 <= c < |s.children| && s.children[c].pid == Some(pid) && s.children[c].running > 0
  }

  // ---------- agent steps ----------

  function SetShare(s: State, x: ScopeId, share: Share): State { s.(shares := s.shares[x := share]) }

  /** `releaseRetainedProcessGroup`: only what the maps hold for this very group. */
  function Release(s: State, scope: Option<ScopeId>, c: nat, pid: Pid): State {
    var t := if pid in s.active && s.active[pid] == c then s.(active := s.active - {pid}) else s;
    if scope.Some? && scope.value in t.shares && pid in t.shares[scope.value].groups && t.shares[scope.value].groups[pid] == c
    then SetShare(t, scope.value, t.shares[scope.value].(groups := t.shares[scope.value].groups - {pid}))
    else t
  }

  /** The first part of `terminateWorkspaceProcessTree`, up to its first await. */
  function FirstStage(s: State, pid: Option<Pid>, delivered: bool): Stage {
    if pid.None? then Observed(delivered)           // quiesced when the child has exited
    else if !GroupAlive(s, pid.value) then Observed(true)
    else if !delivered then Observed(false)
    else Waiting
  }

  function Begin(s: State, c: nat, scope: Option<ScopeId>, releases: bool, delivered: bool): State
    requires c < |s.children|
  {
    s.(terms := s.terms + [Termination(c, scope, releases, FirstStage(s, s.children[c].pid, delivered))])
  }

  /** `terminateRetainedProcessGroup`; the promise is kept under the group's pid. */
  function EndGroup(s: State, scope: Option<ScopeId>, c: nat, allow: bool, delivered: bool): State
    requires c < |s.children| && s.children[c].pid.Some? && (scope.Some? ==> scope.value in s.shares)
  {
    if scope.None? then Begin(s, c, None, true, delivered)
    else
      var share := s.shares[scope.value];
      var key := GroupKey(s.children[c].pid.value);
      if (share.committing && !allow) || key in share.promises then s
      else SetShare(Begin(s, c, scope, true, delivered), scope.value, share.(promises := share.promises[key := |s.terms|]))
  }

  /** `terminateScopeChild`. */
  function EndChild(s: State, x: ScopeId, c: nat, delivered: bool): State
    requires c < |s.children| && x in s.shares
    requires forall p :: p in s.shares[x].groups ==> GroupOf(s, x, p)
  {
    var share := s.shares[x];
    var pid := s.children[c].pid;
    if share.committing then s
    else if pid.Some? && pid.value in share.groups then
      assert GroupOf(s, x, pid.value);
      EndGroup(s, Some(x), share.groups[pid.value], false, delivered)
    else if ChildKey(c) in share.promises then s
    else SetShare(Begin(s, c, Some(x), false, delivered), x, share.(promises := share.promises[ChildKey(c) := |s.terms|]))
  }

  /** The entry under a pid is a group of that pid. */
  predicate GroupOf(s: State, x: ScopeId, p: Pid)
    requires x in s.shares && p in s.shares[x].groups
  {
    s.shares[x].groups[p] < |s.children| && s.children[s.shares[x].groups[p]].pid == Some(p)
    && s.children[s.shares[x].groups[p]].owner == Some(x)
  }

  /** `trackChildProcess` up to the cancellation check. */
  function Enlist(s: State, owner: Option<ScopeId>, pid: Option<Pid>): State
    requires owner.Some? ==> owner.value in s.shares
  {
    var c := |s.children|;
    var t := s.(children := s.children + [Child(pid, owner, if pid.Some? then 1 else 0, 0)],
                active := if pid.Some? then s.active[pid.value := c] else s.active);
    if owner.None? then t
    else
      var share := t.shares[owner.value];
      SetShare(t, owner.value, share.(
        children := share.children + {c},
        groups := if pid.Some? then share.groups[pid.value := c] else share.groups))
  }

  /** A scope that was cancelled outside its commit ends a late child at once. */
  function Track(s: State, owner: Option<ScopeId>, pid: Option<Pid>, delivered: bool): State
    requires owner.Some? ==> owner.value in s.shares && forall p :: p in s.shares[owner.value].groups ==> GroupOf(s, owner.value, p)
  {
    var t := Enlist(s, owner, pid);
    if owner.Some? && s.shares[owner.value].cancelled && !s.shares[owner.value].committing then
      assert forall p :: p in t.shares[owner.value].groups && (pid.None? || p != pid.value) ==> GroupOf(s, owner.value, p);
      EndChild(t, owner.value, |s.children|, delivered)
    else t
  }

  /** A child's `close` event. */
  function Closed(s: State, c: nat): State
    requires c < |s.children|
  {
    var owner := s.children[c].owner;
    if owner.Some? && owner.value in s.shares
    then SetShare(s, owner.value, s.shares[owner.value].(children := s.shares[owner.value].children - {c}))
    else s
  }

  /** The loop of `finalizeRequestProcessCustody` over the groups still held. */
  function EndGroups(s: State, x: ScopeId, pids: seq<Pid>, heeded: set<nat>): State
    requires x in s.shares && forall p :: p in s.shares[x].groups ==> GroupOf(s, x, p)
    requires forall i :: 0 <= i < |pids| ==> pids[i] in s.shares[x].groups
    ensures var t := EndGroups(s, x, pids, heeded);
      t.children == s.children && x in t.shares && t.shares[x].groups == s.shares[x].groups && t.shares.Keys == s.shares.Keys
    decreases |pids|
  {
    if pids == [] then s
    else
      assert GroupOf(s, x, pids[0]);
      var t := EndGroup(s, Some(x), s.shares[x].groups[pids[0]], true, s.shares[x].groups[pids[0]] in heeded);
      assert forall p :: p in t.shares[x].groups ==> GroupOf(s, x, p);
      EndGroups(t, x, pids[1..], heeded)
  }

  /** `finalizeRequestProcessCustody` answers that the request is quiesced: every
      receipt it awaited has come, all of them positive, and nothing is held. */
  predicate Quiesced(s: State, x: ScopeId)
    requires x in s.shares && s.shares[x].awaited.Some?
  {
    && s.shares[x].children == {} && s.shares[x].groups == map[]
    && forall t :: t in s.shares[x].awaited.value ==> t < |s.terms| && s.terms[t].stage == Answered(true)
  }

  // ---------- steps ----------

  predicate Sound(s: State, x: ScopeId) {
    x in s.shares && forall p {:trigger GroupOf(s, x, p)} :: p in s.shares[x].groups ==> GroupOf(s, x, p)
  }

  /** A group to be ended is taken from one of the maps. */
  predicate Mapped(s: State, scope: Option<ScopeId>, c: nat, pid: Pid) {
    || (pid in s.active && s.active[pid] == c)
    || (scope.Some? && scope.value in s.shares && pid in s.shares[scope.value].groups && s.shares[scope.value].groups[pid] == c)
  }

  /** A pid is given out again only when no process is in the group it names. */
  ghost predicate Enabled(s: State, e: Event) {
    match e
    case Forks(c) => c < |s.children| && s.children[c].running > 0
    case Dies(c) => c < |s.children| && s.children[c].running > 0
    case Reaped(c) => c < |s.children| && s.children[c].zombies > 0
    case Opens(x) => x !in s.shares
    case Cancels(x) => x in s.shares
    case Commits(x, _) => x in s.shares
    case Tracks(owner, pid, _) => (owner.Some? ==> Sound(s, owner.value)) && (pid.Some? ==> !GroupAlive(s, pid.value))
    case ChildCloses(c) => c < |s.children|
    case EndsGroup(scope, c, _, _) =>
      c < |s.children| && s.children[c].pid.Some?
      && (scope.Some? ==> s.children[c].owner == scope && scope.value in s.shares)
      && Mapped(s, scope, c, s.children[c].pid.value)
    case EndsChild(x, c, _) => c < |s.children| && Sound(s, x) && s.children[c].owner == Some(x)
    case GroupQuiet(t) =>
      t < |s.terms| && s.terms[t].stage.Waiting? && s.terms[t].child < |s.children|
      && s.children[s.terms[t].child].pid.Some? && !CanMutate(s, s.children[s.terms[t].child].pid.value)
    case GivesUp(t) => t < |s.terms| && s.terms[t].stage.Waiting?
    case Releases(t) =>
      t < |s.terms| && s.terms[t].stage.Observed? && s.terms[t].child < |s.children|
    case FinalizeStarts(x, pids, _) =>
      Sound(s, x) && forall p :: p in pids <==> p in s.shares[x].groups
  }

  function SetStage(s: State, t: nat, stage: Stage): State
    requires t < |s.terms|
  {
    s.(terms := s.terms[t := s.terms[t].(stage := stage)])
  }

  function SetChild(s: State, c: nat, child: Child): State
    requires c < |s.children|
  {
    s.(children := s.children[c := child])
  }

  ghost function Step(s: State, e: Event): State
    requires Enabled(s, e)
  {
    match e
    case Forks(c) => SetChild(s, c, s.children[c].(running := s.children[c].running + 1))
    case Dies(c) =>
      SetChild(s, c, s.children[c].(running := s.children[c].running - 1, zombies := s.children[c].zombies + 1))
    case Reaped(c) => SetChild(s, c, s.children[c].(zombies := s.children[c].zombies - 1))
    case Opens(x) => SetShare(s, x, NewShare)
    case Cancels(x) => SetShare(s, x, s.shares[x].(cancelled := true))
    case Commits(x, on) => SetShare(s, x, s.shares[x].(committing := on))
    case Tracks(owner, pid, delivered) => Track(s, owner, pid, delivered)
    case ChildCloses(c) => Closed(s, c)
    case EndsGroup(scope, c, allow, delivered) => EndGroup(s, scope, c, allow, delivered)
    case EndsChild(x, c, delivered) => EndChild(s, x, c, delivered)
    case GroupQuiet(t) => SetStage(s, t, Observed(true))
    case GivesUp(t) => SetStage(s, t, Observed(false))
    case Releases(t) =>
      var term := s.terms[t];
      var r := SetStage(s, t, Answered(term.stage.quiesced));
      if term.releases && term.stage.quiesced && s.children[term.child].pid.Some?
      then Release(r, term.scope, term.child, s.children[term.child].pid.value)
      else r
    case FinalizeStarts(x, pids, heeded) =>
      var t := EndGroups(s, x, pids, heeded);
      SetShare(t, x, t.shares[x].(awaited := Some(t.shares[x].promises.Values)))
  }
}
