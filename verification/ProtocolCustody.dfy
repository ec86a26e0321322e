/** The protocol and process custody side by side: what a caller is told about
    quiescence is true of the processes. */
module ProtocolCustody {
  import opened Wrappers
  import opened Wire
  import opened HostState
  import opened AgentState
  import P = Protocol
  import F = ProtocolAgent
  import S = ProtocolSteps
  import T = ProtocolTheorems
  import Q = ProtocolQuiescence
  import C = Custody
  import K = CustodyProof
  import N = CustodyPromises

  /** `waits` has, for each cancel job, the pids of the groups whose promised
      terminations the job awaits. */
  datatype Joint = Joint(protocol: P.System, custody: C.State, waits: map<Id, set<C.Pid>>)

  const Initial := Joint(P.Initial, C.Initial, map[])

  /** The groups that a cancel of `x` ends: all that are held, or none during the commit. */
  function Holding(a: Joint, x: Id): set<C.Pid> {
    if x in a.custody.shares && x in a.protocol.agent.scopes && a.protocol.agent.scopes[x].phase != Commit
    then a.custody.shares[x].groups.Keys else {}
  }

  function Awaited(a: Joint, c: Id): set<C.Pid> { if c in a.waits then a.waits[c] else {} }

  /** The next call cancels a scope that is active. */
  predicate Cancels(s: P.System, e: P.Event) {
    e.HearCall? && s.heard < |s.calls| && s.calls[s.heard].CancelRequest?
    && Active(s.agent, s.calls[s.heard].target) && Recall(s.agent.recent, s.calls[s.heard].target).None?
  }

  predicate Answered(c: C.State, x: Id, p: C.Pid) {
    x in c.shares && C.GroupKey(p) in c.shares[x].promises
    && c.shares[x].promises[C.GroupKey(p)] < |c.terms| && c.terms[c.shares[x].promises[C.GroupKey(p)]].stage.Answered?
  }

  /** Finalization is answered once every receipt awaited has come, and as custody has
      it. A cancel that is heard has asked for its terminations, and resumes with what
      their receipts say. */
  ghost predicate Answers(a: Joint, e: P.Event)
    requires P.Enabled(a.protocol, e)
  {
    var s, c := a.protocol, a.custody;
    && (e.CustodyFinalized? ==>
        && e.id in c.shares && c.shares[e.id].awaited.Some?
        && (forall t :: t in c.shares[e.id].awaited.value ==> t < |c.terms| && c.terms[t].stage.Answered?)
        && (e.quiesced <==> C.Quiesced(c, e.id)))
    && (Cancels(s, e) ==>
        forall p :: p in Holding(a, s.calls[s.heard].target) ==> C.GroupKey(p) in c.shares[s.calls[s.heard].target].promises)
    && (e.CancelResumes? ==>
        && (forall p :: p in Awaited(a, e.id) ==> Answered(c, s.agent.jobs[e.id].target, p))
        && (e.terminated <==> forall p :: p in Awaited(a, e.id) ==> N.Paid(c, s.agent.jobs[e.id].target, p)))
  }

  function WaitsAfter(a: Joint, e: P.Event): map<Id, set<C.Pid>> {
    var s := a.protocol;
    if Cancels(s, e) then a.waits[s.calls[s.heard].id := Holding(a, s.calls[s.heard].target)] else a.waits
  }

  ghost predicate Moves(a: Joint, b: Joint, e: P.Event) {
    P.Enabled(a.protocol, e) && Answers(a, e) && b == Joint(P.Step(a.protocol, e), a.custody, WaitsAfter(a, e))
  }

  ghost predicate Next(a: Joint, b: Joint) {
    || (exists e :: Moves(a, b, e))
    || (a.protocol == b.protocol && a.waits == b.waits && K.Next(a.custody, b.custody))
  }

  /** Any interleaving of messages, handlers, terminations and what the kernel does. */
  ghost predicate IsRun(run: seq<Joint>) {
    && |run| > 0 && run[0] == Initial
    && forall i :: 0 <= i < |run| - 1 ==> Next(run[i], run[i + 1])
  }

  // ---------- the invariant ----------

  ghost predicate Found(a: Joint, id: Id) { Q.Done(a.protocol, id) && a.protocol.agent.scopes[id].found }

  ghost predicate Agreed(a: Joint, id: Id) {
    Q.Done(a.protocol, id) ==> a.protocol.agent.scopes[id].quiesced == a.protocol.agent.scopes[id].found
  }

  /** A group that a cancel job awaits is held or has been answered for; the latter once
      the request was found quiesced. */
  ghost predicate Owed(a: Joint, x: Id, p: C.Pid) {
    && x in a.custody.shares && C.GroupKey(p) in a.custody.shares[x].promises
    && (p in a.custody.shares[x].groups || N.Paid(a.custody, x, p))
    && (Found(a, x) ==> N.Paid(a.custody, x, p))
  }

  ghost predicate WaitOk(a: Joint, c: Id)
    requires c in a.protocol.agent.jobs && a.protocol.agent.jobs[c].Waiting?
  {
    forall p {:trigger Owed(a, a.protocol.agent.jobs[c].target, p)} :: p in Awaited(a, c) ==> Owed(a, a.protocol.agent.jobs[c].target, p)
  }

  ghost predicate Linked(a: Joint) {
    && (forall id {:trigger Agreed(a, id)} :: Agreed(a, id))
    && (forall c {:trigger WaitOk(a, c)} :: c in a.protocol.agent.jobs && a.protocol.agent.jobs[c].Waiting? ==> WaitOk(a, c))
  }

  ghost predicate Inv(a: Joint) {
    && P.Inv(a.protocol) && T.Accounted(a.protocol) && Q.Honest(a.protocol)
    && K.Inv(a.custody) && N.AllRemembered(a.custody) && Linked(a)
  }

  // ---------- custody moves ----------

  lemma CustodyLinks(a: Joint, b: Joint)
    requires Linked(a) && b.protocol == a.protocol && b.waits == a.waits && N.Keeps(a.custody, b.custody)
    ensures Linked(b)
  {
    forall id ensures Agreed(b, id) { assert Agreed(a, id); }
    forall c | c in b.protocol.agent.jobs && b.protocol.agent.jobs[c].Waiting? ensures WaitOk(b, c) {
      assert WaitOk(a, c);
      var x := b.protocol.agent.jobs[c].target;
      forall p | p in Awaited(b, c) ensures Owed(b, x, p) {
        assert Owed(a, x, p);
        if N.Paid(a.custody, x, p) { N.PaidStays(a.custody, b.custody, x, p); }
      }
    }
  }

  // ---------- the protocol moves ----------

  /** A scope is done by finalizing it. From then on only a cancel job that resumes
      for it changes it. */
  lemma FoundByFinalizing(s: P.System, e: P.Event, id: Id)
    requires P.Inv(s) && P.Enabled(s, e) && Q.Done(P.Step(s, e), id)
    ensures var d := P.Step(s, e).agent.scopes[id];
      if Q.Done(s, id) then d.found == s.agent.scopes[id].found
      else e == P.CustodyFinalized(id, d.found) && d.quiesced == d.found
  {
    if Q.Done(s, id) {
      Q.StepDone(s, e, id);
    } else if P.AtHost(e) {
      T.HostLeavesAgent(s, e);
    } else if e.CustodyFinalized? {
      Q.FinalizeSent(s, e);
    } else if e.HearCall? {
      Q.HeardShape(s, P.Step(s, e));
    }
  }

  /** What hearing a call does to the agent. */
  ghost predicate Hears(s: P.System, t: P.System) {
    && F.HearsNext(s, t)
    && var q := s.calls[s.heard];
       t.agent == if q.Request? then ReceiveRequest(s.agent, q.id, q.verb, q.apply).0 else ReceiveCancel(s.agent, q.id, q.target)
  }

  lemma HearingLeaves(s: P.System, t: P.System, id: Id)
    requires Hears(s, t) && Q.Done(s, id) && s.calls[s.heard].id !in s.agent.scopes
    ensures id in t.agent.scopes && t.agent.scopes[id] == s.agent.scopes[id]
  {
  }

  lemma HearingWaits(s: P.System, t: P.System, c: Id)
    requires Hears(s, t) && s.calls[s.heard].id !in s.agent.jobs && c in t.agent.jobs && t.agent.jobs[c].Waiting?
    ensures
      || (c in s.agent.jobs && s.agent.jobs[c] == t.agent.jobs[c] && s.calls[s.heard].id != c)
      || (Cancels(s, P.HearCall) && s.calls[s.heard].id == c && s.calls[s.heard].target == t.agent.jobs[c].target)
  {
  }

  lemma DoneUntouched(s: P.System, e: P.Event, id: Id)
    requires P.Inv(s) && P.Enabled(s, e) && Q.Done(s, id)
    requires e.CancelResumes? ==> s.agent.jobs[e.id].target != id
    ensures id in P.Step(s, e).agent.scopes && P.Step(s, e).agent.scopes[id] == s.agent.scopes[id]
  {
    if P.AtHost(e) {
      T.HostLeavesAgent(s, e);
    } else if e.CustodyFinalized? {
      Q.FinalizeSent(s, e);
    } else if e.HearCall? {
      F.Unheard(s);
      Q.HeardShape(s, P.Step(s, e));
      HearingLeaves(s, P.Step(s, e), id);
    }
  }

  /** A job comes to wait only by a cancel that is heard. */
  lemma WaitingJob(s: P.System, e: P.Event, c: Id)
    requires P.Inv(s) && P.Enabled(s, e) && c in P.Step(s, e).agent.jobs && P.Step(s, e).agent.jobs[c].Waiting?
    ensures var job := P.Step(s, e).agent.jobs[c];
      || (c in s.agent.jobs && s.agent.jobs[c] == job && (Cancels(s, e) ==> s.calls[s.heard].id != c))
      || (Cancels(s, e) && s.calls[s.heard].id == c && s.calls[s.heard].target == job.target)
  {
    if P.AtHost(e) {
      T.HostLeavesAgent(s, e);
    } else if e.CustodyFinalized? {
      Q.FinalizeSent(s, e);
    } else if e.HearCall? {
      F.Unheard(s);
      Q.HeardShape(s, P.Step(s, e));
      HearingWaits(s, P.Step(s, e), c);
    }
  }

  /** When a cancel job resumes for a request that was found quiesced, its terminations
      have all been answered positively. */
  lemma ResumeAgrees(a: Joint, b: Joint, e: P.Event)
    requires Inv(a) && Moves(a, b, e) && e.CancelResumes?
    ensures Agreed(b, a.protocol.agent.jobs[e.id].target)
  {
    var x := a.protocol.agent.jobs[e.id].target;
    assert Agreed(a, x) && WaitOk(a, e.id);
    if Found(a, x) {
      forall p | p in Awaited(a, e.id) ensures N.Paid(a.custody, x, p) { assert Owed(a, x, p); }
    }
  }

  lemma MoveAgrees(a: Joint, b: Joint, e: P.Event, id: Id)
    requires Inv(a) && Moves(a, b, e)
    ensures Agreed(b, id)
  {
    if Q.Done(b.protocol, id) {
      FoundByFinalizing(a.protocol, e, id);
      if Q.Done(a.protocol, id) {
        assert Agreed(a, id);
        if e.CancelResumes? && a.protocol.agent.jobs[e.id].target == id {
          ResumeAgrees(a, b, e);
        } else {
          DoneUntouched(a.protocol, e, id);
        }
      }
    }
  }

  /** A group is owed on: what newly finds the request quiesced finds nothing held. */
  lemma OwedOn(a: Joint, b: Joint, e: P.Event, x: Id, p: C.Pid)
    requires P.Inv(a.protocol) && Moves(a, b, e)
    requires x in a.custody.shares && C.GroupKey(p) in a.custody.shares[x].promises
    requires p in a.custody.shares[x].groups || N.Paid(a.custody, x, p)
    requires Found(a, x) ==> N.Paid(a.custody, x, p)
    ensures Owed(b, x, p)
  {
    if Found(b, x) { FoundByFinalizing(a.protocol, e, x); }
  }

  lemma MoveOwes(a: Joint, b: Joint, e: P.Event, c: Id)
    requires Inv(a) && Moves(a, b, e) && c in b.protocol.agent.jobs && b.protocol.agent.jobs[c].Waiting?
    ensures WaitOk(b, c)
  {
    WaitingJob(a.protocol, e, c);
    var x := b.protocol.agent.jobs[c].target;
    if Cancels(a.protocol, e) && a.protocol.calls[a.protocol.heard].id == c {
      forall p | p in Awaited(b, c) ensures Owed(b, x, p) { OwedOn(a, b, e, x, p); }
    } else {
      assert WaitOk(a, c);
      forall p | p in Awaited(b, c) ensures Owed(b, x, p) {
        assert Owed(a, x, p);
        OwedOn(a, b, e, x, p);
      }
    }
  }

  lemma NextKeeps(a: Joint, b: Joint)
    requires Inv(a) && Next(a, b)
    ensures Inv(b) && K.Later(a.custody, b.custody)
  {
    if e :| Moves(a, b, e) {
      S.StepKeeps(a.protocol, e);
      T.StepAccounts(a.protocol, e);
      Q.StepHonest(a.protocol, e);
      forall id ensures Agreed(b, id) { MoveAgrees(a, b, e, id); }
      forall c | c in b.protocol.agent.jobs && b.protocol.agent.jobs[c].Waiting? ensures WaitOk(b, c) { MoveOwes(a, b, e, c); }
    } else {
      var e :| C.Enabled(a.custody, e) && b.custody == C.Step(a.custody, e);
      K.StepKeeps(a.custody, e);
      N.StepRemembers(a.custody, e);
      CustodyLinks(a, b);
    }
  }

  // ---------- runs ----------

  lemma {:induction false} RunInv(run: seq<Joint>, i: nat)
    requires IsRun(run) && i < |run|
    ensures Inv(run[i])
  {
    if i > 0 {
      RunInv(run, i - 1);
      assert Next(run[i - 1], run[i - 1 + 1]);
      NextKeeps(run[i - 1], run[i]);
    }
  }

  lemma {:induction false} RunLater(run: seq<Joint>, i: nat, j: nat)
    requires IsRun(run) && i <= j < |run|
    ensures K.Later(run[i].custody, run[j].custody)
    decreases j - i
  {
    if i < j {
      RunInv(run, i);
      assert Next(run[i], run[i + 1]);
      NextKeeps(run[i], run[i + 1]);
      RunLater(run, i + 1, j);
    }
  }

  lemma FoundStep(a: Joint, b: Joint, id: Id)
    requires P.Inv(a.protocol) && Next(a, b) && Found(b, id)
    ensures Found(a, id) || Moves(a, b, P.CustodyFinalized(id, true))
  {
    if a.protocol != b.protocol {
      var e :| Moves(a, b, e);
      FoundByFinalizing(a.protocol, e, id);
    }
  }

  lemma NothingFoundYet(id: Id)
    ensures !Found(Initial, id)
  {
  }

  /** What holds late and not at first began to hold somewhere. */
  lemma {:induction false} Began<A>(run: seq<A>, i: nat, holds: A -> bool, begins: (A, A) -> bool) returns (k: nat)
    requires i < |run| && holds(run[i]) && !holds(run[0])
    requires forall l :: 0 <= l < |run| - 1 && holds(run[l + 1]) ==> holds(run[l]) || begins(run[l], run[l + 1])
    ensures k < i && begins(run[k], run[k + 1])
  {
    k := i - 1;
    if holds(run[k]) { k := Began(run, k, holds, begins); }
  }

  /** Where in the run a scope's finalization reported quiescence. */
  lemma FoundWhen(run: seq<Joint>, i: nat, id: Id) returns (k: nat)
    requires IsRun(run) && i < |run| && Found(run[i], id)
    ensures k < i && Moves(run[k], run[k + 1], P.CustodyFinalized(id, true))
  {
    var holds, begins := (a: Joint) => Found(a, id), (a: Joint, b: Joint) => Moves(a, b, P.CustodyFinalized(id, true));
    NothingFoundYet(id);
    forall l | 0 <= l < |run| - 1 && holds(run[l + 1]) ensures holds(run[l]) || begins(run[l], run[l + 1]) {
      assert Next(run[l], run[l + 1]);
      RunInv(run, l);
      FoundStep(run[l], run[l + 1], id);
    }
    k := Began(run, i, holds, begins);
  }

  /** A group tracked for the request by the time of `s` has no running member in `t`. */
  ghost predicate Ended(s: C.State, t: C.State, id: Id, c: nat)
    requires c < |s.children|
  {
    s.children[c].owner == Some(id) && s.children[c].pid.Some? ==> c < |t.children| && t.children[c].running == 0
  }

  /** A caller whose scoped request was aborted, answered with a result, or answered with
      an error that claims quiescence: finalizing the request did report it, and every
      process group tracked for the request until then has no member that could mutate,
      neither when the caller is told nor at any time after. */
  lemma ToldMeansGone(run: seq<Joint>, i: nat, j: nat, id: Id) returns (k: nat)
    requires IsRun(run) && i <= j < |run|
    requires id in run[i].protocol.host.verdicts && id in run[i].protocol.agent.scopes
    requires var v := run[i].protocol.host.verdicts[id]; !v.Unwritten? && !v.TransportClosed? && Q.Claimed(v)
    ensures k < i && Moves(run[k], run[k + 1], P.CustodyFinalized(id, true))
    ensures forall c: nat :: c < |run[k].custody.children| ==> Ended(run[k].custody, run[j].custody, id, c)
  {
    RunInv(run, i);
    Q.VerdictTruthful(run[i].protocol, id);
    k := FoundWhen(run, i, id);
    RunInv(run, k);
    RunLater(run, k, j);
    forall c: nat | c < |run[k].custody.children| ensures Ended(run[k].custody, run[j].custody, id, c) {
      assert K.ChildOk(run[k].custody, c);
    }
  }

  lemma VerdictKept(a: Joint, b: Joint, id: Id)
    requires Inv(a) && Next(a, b) && id in a.protocol.host.verdicts
    ensures id in b.protocol.host.verdicts && b.protocol.host.verdicts[id] == a.protocol.host.verdicts[id]
  {
    if a.protocol != b.protocol {
      var e :| Moves(a, b, e);
      T.StepAccounts(a.protocol, e);
    }
  }

  lemma {:induction false} VerdictStays(run: seq<Joint>, i: nat, j: nat, id: Id)
    requires IsRun(run) && i <= j < |run| && id in run[i].protocol.host.verdicts
    ensures id in run[j].protocol.host.verdicts
    ensures run[j].protocol.host.verdicts[id] == run[i].protocol.host.verdicts[id]
    decreases j - i
  {
    if i < j {
      RunInv(run, i);
      assert Next(run[i], run[i + 1]);
      VerdictKept(run[i], run[i + 1], id);
      VerdictStays(run, i + 1, j, id);
    }
  }

  /** What a caller was told about quiescence and what its scope says are one, from
      then on: no cancel that resumes later finds otherwise, since finalization has
      seen the receipts that it waits for. */
  lemma ToldForGood(run: seq<Joint>, i: nat, j: nat, id: Id)
    requires IsRun(run) && i <= j < |run| && id in run[i].protocol.host.verdicts && id in run[j].protocol.agent.scopes
    requires var v := run[i].protocol.host.verdicts[id]; !v.Unwritten? && !v.TransportClosed?
    ensures Q.Done(run[j].protocol, id)
    ensures run[j].protocol.agent.scopes[id].quiesced == Q.Claimed(run[i].protocol.host.verdicts[id])
  {
    RunInv(run, j);
    VerdictStays(run, i, j, id);
    Q.VerdictTruthful(run[j].protocol, id);
    assert Agreed(run[j], id);
  }
}
