/** Optimistic preference writes: shown at once, saved one after the other,
    rolled back when the newest one fails. */
module Preferences {
  import opened Wrappers
  import opened Text

  type Scope = string
  type Value = string

  datatype Status = Idle | Saving | Ready | Failed

  datatype ScopeState = ScopeState(generation: nat, status: Status, error: string)

  datatype Write = Write(scope: Scope, requested: Value, generation: nat)

  /** How the persisting of a write ended: its canonical value, or an error. */
  datatype Ending = Saved(canonical: Value) | Lost(error: string)

  datatype Event =
    | Picked(write: Write)
    | Ended(write: Write, ending: Ending, applicable: bool)
    | Reconciled(scope: Scope)

  /** The coordinator with what its callbacks write; `log` is the history. */
  datatype Coordinator = Coordinator(
    scopes: map<Scope, ScopeState>, queue: seq<Write>,
    optimistic: map<Scope, Value>, confirmed: map<Scope, Value>,
    log: seq<Event>)

  function Initial(values: map<Scope, Value>): Coordinator { Coordinator(map[], [], values, values, []) }

  function ScopeOf(c: Coordinator, scope: Scope): ScopeState {
    if scope in c.scopes then c.scopes[scope] else ScopeState(0, Idle, "")
  }

  function Look(m: map<Scope, Value>, scope: Scope): Value { if scope in m then m[scope] else "" }

  /** The user picks a value: it is shown and its write is queued. */
  function Pick(c: Coordinator, scope: Scope, value: Value): Coordinator {
    var generation := ScopeOf(c, scope).generation + 1;
    var write := Write(scope, value, generation);
    c.(optimistic := c.optimistic[scope := value],
       scopes := c.scopes[scope := ScopeState(generation, Saving, "")],
       queue := c.queue + [write], log := c.log + [Picked(write)])
  }

  /** The first write in the queue has ended. */
  function End(c: Coordinator, ending: Ending, applicable: bool): Coordinator
    requires c.queue != []
  {
    var w := c.queue[0];
    var state := ScopeOf(c, w.scope);
    var latest := state.generation == w.generation;
    var t := c.(queue := c.queue[1..], log := c.log + [Ended(w, ending, applicable)]);
    match ending
    case Saved(canonical) =>
      t.(confirmed := if applicable then c.confirmed[w.scope := canonical] else c.confirmed,
         optimistic := if latest && applicable then c.optimistic[w.scope := canonical] else c.optimistic,
         scopes := if latest then c.scopes[w.scope := ScopeState(state.generation, Ready, "")] else c.scopes)
    case Lost(error) =>
      t.(optimistic := if latest && applicable then c.optimistic[w.scope := Look(c.confirmed, w.scope)] else c.optimistic,
         scopes :=
           if latest && applicable then c.scopes[w.scope := ScopeState(state.generation, Failed, error)]
           else if latest then c.scopes[w.scope := ScopeState(state.generation, Ready, "")]
           else c.scopes)
  }

  function Reconcile(c: Coordinator, scope: Scope): Coordinator {
    c.(scopes := c.scopes[scope := ScopeState(ScopeOf(c, scope).generation + 1, Ready, "")],
       log := c.log + [Reconciled(scope)])
  }

  // ---------- what the history says ----------

  /** The writes asked for, and those that have ended, in order. */
  function Asked(log: seq<Event>): seq<Write> {
    if log == [] then []
    else
      var e := log[|log| - 1];
      Asked(log[..|log| - 1]) + if e.Picked? then [e.write] else []
  }

  function Done(log: seq<Event>): seq<Write> {
    if log == [] then []
    else
      var e := log[|log| - 1];
      Done(log[..|log| - 1]) + if e.Ended? then [e.write] else []
  }

  /** The value of the last successful write of a scope, in the order they were asked for. */
  function LastSaved(log: seq<Event>, scope: Scope, initial: Value): Value {
    if log == [] then initial
    else
      var e := log[|log| - 1];
      if e.Ended? && e.write.scope == scope && e.ending.Saved? && e.applicable then e.ending.canonical
      else LastSaved(log[..|log| - 1], scope, initial)
  }

  /** The last write picked for a scope. */
  function LastPicked(log: seq<Event>, scope: Scope): (w: Option<Write>)
    ensures w.Some? ==> w.value.scope == scope
  {
    if log == [] then None
    else
      var e := log[|log| - 1];
      if e.Picked? && e.write.scope == scope then Some(e.write) else LastPicked(log[..|log| - 1], scope)
  }

  /** It has not ended yet. */
  predicate Open(log: seq<Event>, scope: Scope) {
    log != [] &&
    var front, e := log[..|log| - 1], log[|log| - 1];
    if e.Picked? && e.write.scope == scope then true
    else if e.Ended? && LastPicked(front, scope) == Some(e.write) then false
    else Open(front, scope)
  }

  /** The scope was reconciled between its last pick and the end of that write, or
      that write turned out not to be applicable. */
  predicate Missed(log: seq<Event>, scope: Scope) {
    log != [] &&
    var front, e := log[..|log| - 1], log[|log| - 1];
    if e.Picked? && e.write.scope == scope then false
    else
      || Missed(front, scope)
      || (e.Reconciled? && e.scope == scope && Open(front, scope))
      || (e.Ended? && LastPicked(front, scope) == Some(e.write) && !e.applicable)
  }

  // ---------- the queue ----------

  predicate Waits(queue: seq<Write>, scope: Scope) {
    queue != [] && (queue[0].scope == scope || Waits(queue[1..], scope))
  }

  /** The last waiting write of a scope. */
  function LastWaiting(queue: seq<Write>, scope: Scope): Write
    requires Waits(queue, scope)
  {
    if Waits(queue[1..], scope) then LastWaiting(queue[1..], scope) else queue[0]
  }

  lemma {:induction false} WaitsAppend(queue: seq<Write>, w: Write, scope: Scope)
    ensures Waits(queue + [w], scope) <==> Waits(queue, scope) || w.scope == scope
    ensures Waits(queue + [w], scope) ==>
      LastWaiting(queue + [w], scope) == if w.scope == scope then w else LastWaiting(queue, scope)
  {
    if queue == [] {
      assert [] + [w] == [w];
    } else {
      assert (queue + [w])[0] == queue[0] && (queue + [w])[1..] == queue[1..] + [w];
      WaitsAppend(queue[1..], w, scope);
    }
  }

  lemma {:induction false} WaitsIndex(queue: seq<Write>, scope: Scope) returns (i: nat)
    requires Waits(queue, scope)
    ensures i < |queue| && queue[i] == LastWaiting(queue, scope) && queue[i].scope == scope
  {
    if Waits(queue[1..], scope) {
      var j := WaitsIndex(queue[1..], scope);
      i := j + 1;
    } else {
      i := 0;
    }
  }

  // ---------- the invariant ----------

  /** While the scope's last write is open it waits, and the scope is saving it
      unless that was missed. What shows is that pick as long as it is open, and for
      good if it was missed; otherwise it is the confirmed value. */
  ghost predicate ShownOk(c: Coordinator, scope: Scope) {
    var picked, open, missed := LastPicked(c.log, scope), Open(c.log, scope), Missed(c.log, scope);
    && (open <==> Waits(c.queue, scope))
    && (open || missed ==> picked.Some?)
    && (open ==> LastWaiting(c.queue, scope) == picked.value && scope in c.scopes)
    && (open ==> (missed <==> c.scopes[scope].generation != picked.value.generation))
    && (scope in c.scopes ==> (c.scopes[scope].status == Saving <==> open && !missed))
    && Look(c.optimistic, scope) == if open || missed then picked.value.requested else Look(c.confirmed, scope)
  }

  /** No waiting write is from a later generation than its scope. */
  ghost predicate WriteOk(c: Coordinator, i: nat)
    requires i < |c.queue|
  {
    c.queue[i].generation <= ScopeOf(c, c.queue[i].scope).generation
    && forall j {:trigger c.queue[j]} :: i < j < |c.queue| && c.queue[j].scope == c.queue[i].scope ==>
      c.queue[i].generation < c.queue[j].generation
  }

  ghost predicate ConfirmedOk(c: Coordinator, values: map<Scope, Value>, scope: Scope) {
    Look(c.confirmed, scope) == LastSaved(c.log, scope, Look(values, scope))
  }

  ghost predicate Inv(c: Coordinator, values: map<Scope, Value>) {
    && Asked(c.log) == Done(c.log) + c.queue
    && (forall i: nat {:trigger WriteOk(c, i)} :: i < |c.queue| ==> WriteOk(c, i))
    && (forall scope {:trigger ConfirmedOk(c, values, scope)} :: ConfirmedOk(c, values, scope))
    && (forall scope {:trigger ShownOk(c, scope)} :: ShownOk(c, scope))
  }

  lemma Front(log: seq<Event>, e: Event)
    ensures (log + [e])[..|log + [e]| - 1] == log && (log + [e])[|log + [e]| - 1] == e
  {
  }

  lemma PickShown(c: Coordinator, scope: Scope, value: Value, x: Scope)
    requires ShownOk(c, x)
    ensures ShownOk(Pick(c, scope, value), x)
  {
    var t := Pick(c, scope, value);
    Front(c.log, t.log[|c.log|]);
    WaitsAppend(c.queue, t.queue[|c.queue|], x);
  }

  lemma PickKeeps(c: Coordinator, values: map<Scope, Value>, scope: Scope, value: Value)
    requires Inv(c, values)
    ensures Inv(Pick(c, scope, value), values)
  {
    var t := Pick(c, scope, value);
    var w := t.queue[|c.queue|];
    Front(c.log, Picked(w));
    assert Done(c.log) + c.queue + [w] == Done(c.log) + (c.queue + [w]);
    forall i: nat | i < |t.queue| ensures WriteOk(t, i) {
      if i < |c.queue| { assert WriteOk(c, i); }
    }
    forall x ensures ConfirmedOk(t, values, x) { assert ConfirmedOk(c, values, x); }
    forall x ensures ShownOk(t, x) {
      assert ShownOk(c, x);
      PickShown(c, scope, value, x);
    }
  }

  /** Showing the choice and asking for its write is picking it. */
  lemma ShownAndAsked(c: Coordinator, t: Coordinator, scope: Scope, value: Value)
    requires t.optimistic == c.optimistic[scope := value] && t.confirmed == c.confirmed
    requires var w := Write(scope, value, ScopeOf(c, scope).generation + 1);
      t.scopes == c.scopes[scope := ScopeState(w.generation, Saving, "")] && t.queue == c.queue + [w] && t.log == c.log + [Picked(w)]
    ensures t == Pick(c, scope, value)
  {
  }

  /** The generation test finds exactly the writes behind which no other of their
      scope waits and that were not missed. */
  lemma LatestIsLast(c: Coordinator, values: map<Scope, Value>)
    requires Inv(c, values) && c.queue != []
    ensures var w := c.queue[0];
      ScopeOf(c, w.scope).generation == w.generation <==> !Waits(c.queue[1..], w.scope) && !Missed(c.log, w.scope)
    ensures LastPicked(c.log, c.queue[0].scope) == Some(c.queue[0]) <==> !Waits(c.queue[1..], c.queue[0].scope)
  {
    var w := c.queue[0];
    assert ShownOk(c, w.scope) && WriteOk(c, 0);
    if Waits(c.queue[1..], w.scope) {
      var i := WaitsIndex(c.queue[1..], w.scope);
      assert c.queue[i + 1] == c.queue[1..][i] && WriteOk(c, i + 1);
    }
  }

  /** The end of a write is no news to other scopes. */
  lemma EndElsewhere(log: seq<Event>, w: Write, ending: Ending, applicable: bool, x: Scope)
    requires w.scope != x
    ensures var next := log + [Ended(w, ending, applicable)];
      LastPicked(next, x) == LastPicked(log, x) && Open(next, x) == Open(log, x) && Missed(next, x) == Missed(log, x)
  {
    Front(log, Ended(w, ending, applicable));
  }

  /** The scopes whose write has not ended. */
  lemma EndOthers(c: Coordinator, ending: Ending, applicable: bool, x: Scope)
    requires c.queue != [] && ShownOk(c, x) && x != c.queue[0].scope
    ensures ShownOk(End(c, ending, applicable), x)
  {
    EndElsewhere(c.log, c.queue[0], ending, applicable, x);
    var t := End(c, ending, applicable);
    assert Waits(t.queue, x) == Waits(c.queue, x);
    assert Waits(t.queue, x) ==> LastWaiting(t.queue, x) == LastWaiting(c.queue, x);
  }

  lemma EndShown(c: Coordinator, ending: Ending, applicable: bool)
    requires c.queue != [] && ShownOk(c, c.queue[0].scope)
    requires var w := c.queue[0];
      && (ScopeOf(c, w.scope).generation == w.generation <==> !Waits(c.queue[1..], w.scope) && !Missed(c.log, w.scope))
      && (LastPicked(c.log, w.scope) == Some(w) <==> !Waits(c.queue[1..], w.scope))
    ensures ShownOk(End(c, ending, applicable), c.queue[0].scope)
  {
    Front(c.log, Ended(c.queue[0], ending, applicable));
  }

  lemma EndKeeps(c: Coordinator, values: map<Scope, Value>, ending: Ending, applicable: bool)
    requires Inv(c, values) && c.queue != []
    ensures Inv(End(c, ending, applicable), values)
  {
    var t := End(c, ending, applicable);
    EndAsked(c, ending, applicable);
    forall i: nat | i < |t.queue| ensures WriteOk(t, i) {
      assert WriteOk(c, i + 1);
      EndWrite(c, ending, applicable, i);
    }
    forall x ensures ConfirmedOk(t, values, x) {
      assert ConfirmedOk(c, values, x);
      Front(c.log, Ended(c.queue[0], ending, applicable));
    }
    LatestIsLast(c, values);
    forall x ensures ShownOk(t, x) {
      assert ShownOk(c, x);
      if x == c.queue[0].scope { EndShown(c, ending, applicable); } else { EndOthers(c, ending, applicable, x); }
    }
  }

  lemma EndAsked(c: Coordinator, ending: Ending, applicable: bool)
    requires c.queue != [] && Asked(c.log) == Done(c.log) + c.queue
    ensures var t := End(c, ending, applicable); Asked(t.log) == Done(t.log) + t.queue
  {
    var w := c.queue[0];
    Front(c.log, Ended(w, ending, applicable));
    assert c.queue == [w] + c.queue[1..];
    assert Done(c.log) + ([w] + c.queue[1..]) == (Done(c.log) + [w]) + c.queue[1..];
  }

  lemma EndWrite(c: Coordinator, ending: Ending, applicable: bool, i: nat)
    requires c.queue != [] && i + 1 < |c.queue| && WriteOk(c, i + 1)
    ensures WriteOk(End(c, ending, applicable), i)
  {
    var rest := c.queue[1..];
    assert rest[i] == c.queue[i + 1];
    assert forall j :: 0 <= j < |rest| ==> rest[j] == c.queue[j + 1];
  }

  lemma ReconcileKeeps(c: Coordinator, values: map<Scope, Value>, scope: Scope)
    requires Inv(c, values)
    ensures Inv(Reconcile(c, scope), values)
  {
    var t := Reconcile(c, scope);
    Front(c.log, Reconciled(scope));
    forall i: nat | i < |t.queue| ensures WriteOk(t, i) { assert WriteOk(c, i); }
    forall x ensures ConfirmedOk(t, values, x) { assert ConfirmedOk(c, values, x); }
    forall x ensures ShownOk(t, x) {
      assert ShownOk(c, x);
      if x == scope && Waits(c.queue, x) {
        var i := WaitsIndex(c.queue, x);
        assert WriteOk(c, i);
      }
    }
  }

  // ---------- what it promises ----------

  /** With an empty queue no scope is saving and every write asked for has ended, in
      order. A scope shows its confirmed value, the last one saved, if and only if
      its last pick was not missed, or is by chance that very value. A missed pick
      goes on showing, whether its write was saved or failed. */
  lemma SettledShowsSaved(c: Coordinator, values: map<Scope, Value>, scope: Scope)
    requires Inv(c, values) && c.queue == []
    ensures scope in c.scopes ==> c.scopes[scope].status != Saving
    ensures Done(c.log) == Asked(c.log)
    ensures var saved, picked := LastSaved(c.log, scope, Look(values, scope)), LastPicked(c.log, scope);
      && Look(c.confirmed, scope) == saved
      && (Missed(c.log, scope) ==> picked.Some? && Look(c.optimistic, scope) == picked.value.requested)
      && (Look(c.optimistic, scope) == Look(c.confirmed, scope) <==>
          Missed(c.log, scope) ==> picked.Some? && picked.value.requested == saved)
  {
    assert ShownOk(c, scope) && ConfirmedOk(c, values, scope);
    assert Done(c.log) + [] == Done(c.log);
  }

  /** A pick heals its scope, and no other scope's history matters. */
  lemma PickHeals(log: seq<Event>, w: Write, e: Event, scope: Scope)
    ensures w.scope == scope ==> !Missed(log + [Picked(w)], scope)
    ensures (match e case Picked(v) => v.scope != scope case Ended(v, _, _) => v.scope != scope case Reconciled(x) => x != scope)
      ==> (Missed(log + [e], scope) <==> Missed(log, scope))
  {
    Front(log, Picked(w));
    Front(log, e);
  }

  /** A failed write that a newer pick has superseded rolls nothing back. */
  lemma SupersededFailure(c: Coordinator, values: map<Scope, Value>, error: string, applicable: bool)
    requires Inv(c, values) && c.queue != [] && Waits(c.queue[1..], c.queue[0].scope)
    ensures var t := End(c, Lost(error), applicable);
      t.optimistic == c.optimistic && t.confirmed == c.confirmed && t.scopes == c.scopes
  {
    LatestIsLast(c, values);
  }

  /** The newest write of a scope fails and was not missed: what shows is the last
      saved value. If it was missed, the pick goes on showing over the old value. */
  lemma NewestFailure(c: Coordinator, values: map<Scope, Value>, error: string)
    requires Inv(c, values) && c.queue != [] && !Waits(c.queue[1..], c.queue[0].scope)
    ensures var t, w := End(c, Lost(error), true), c.queue[0];
      && Look(t.confirmed, w.scope) == LastSaved(c.log, w.scope, Look(values, w.scope))
      && if Missed(c.log, w.scope) then Look(t.optimistic, w.scope) == w.requested && t.scopes == c.scopes
         else Look(t.optimistic, w.scope) == Look(t.confirmed, w.scope) && ScopeOf(t, w.scope).status == Failed
  {
    LatestIsLast(c, values);
    assert ConfirmedOk(c, values, c.queue[0].scope) && ShownOk(c, c.queue[0].scope);
  }

  /** A scope is reconciled while its write is under way. The write is saved under
      another name, or fails: either way what shows is not what is confirmed. */
  lemma ReconcileInFlight(scope: Scope, value: Value, canonical: Value, error: string)
    requires canonical != value && value != ""
    ensures var c := Reconcile(Pick(Initial(map[]), scope, value), scope);
      var saved, lost := End(c, Saved(canonical), true), End(c, Lost(error), true);
      && saved.queue == [] && lost.queue == []
      && ScopeOf(saved, scope).status == ScopeOf(lost, scope).status == Ready
      && Look(saved.optimistic, scope) == Look(lost.optimistic, scope) == value
      && Look(saved.confirmed, scope) == canonical && Look(lost.confirmed, scope) == ""
  {
  }

  // ---------- callers that test the status ----------

  /** Reconciling disturbs a scope exactly while it is saving. */
  lemma ReconcileDisturbs(c: Coordinator, values: map<Scope, Value>, scope: Scope)
    requires Inv(c, values)
    ensures Missed(Reconcile(c, scope).log, scope) <==>
      Missed(c.log, scope) || (scope in c.scopes && c.scopes[scope].status == Saving)
    ensures forall x :: x != scope ==> (Missed(Reconcile(c, scope).log, x) <==> Missed(c.log, x))
  {
    Front(c.log, Reconciled(scope));
    assert ShownOk(c, scope);
  }

  datatype Move = Picks(scope: Scope, value: Value) | Ends(ending: Ending, applicable: bool) | Reconciles(scope: Scope)

  /** What happens to a coordinator whose callers reconcile a scope only if it is known
      and not saving. */
  predicate Guarded(c: Coordinator, m: Move) {
    match m
    case Picks(_, _) => true
    case Ends(_, _) => c.queue != []
    case Reconciles(scope) => scope in c.scopes && c.scopes[scope].status != Saving
  }

  function Moved(c: Coordinator, m: Move): Coordinator
    requires Guarded(c, m)
  {
    match m
    case Picks(scope, value) => Pick(c, scope, value)
    case Ends(ending, applicable) => End(c, ending, applicable)
    case Reconciles(scope) => Reconcile(c, scope)
  }

  ghost predicate Next(c: Coordinator, d: Coordinator) {
    exists m :: Guarded(c, m) && d == Moved(c, m)
  }

  ghost predicate IsRun(run: seq<Coordinator>, values: map<Scope, Value>) {
    && |run| > 0 && run[0] == Initial(values)
    && forall i :: 0 <= i < |run| - 1 ==> Next(run[i], run[i + 1])
  }

  /** The last write picked for the scope was not applicable when it ended. */
  predicate Stale(log: seq<Event>, scope: Scope) {
    log != [] &&
    var front, e := log[..|log| - 1], log[|log| - 1];
    if e.Picked? && e.write.scope == scope then false
    else Stale(front, scope) || (e.Ended? && LastPicked(front, scope) == Some(e.write) && !e.applicable)
  }

  /** No scope was reconciled while it was saving. */
  ghost predicate Undisturbed(c: Coordinator) {
    forall x {:trigger Missed(c.log, x)} :: Missed(c.log, x) <==> Stale(c.log, x)
  }

  lemma MoveKeeps(c: Coordinator, values: map<Scope, Value>, m: Move)
    requires Inv(c, values) && Undisturbed(c) && Guarded(c, m)
    ensures Inv(Moved(c, m), values) && Undisturbed(Moved(c, m))
  {
    var t := Moved(c, m);
    match m {
      case Picks(scope, value) => PickKeeps(c, values, scope, value);
      case Ends(ending, applicable) => EndKeeps(c, values, ending, applicable);
      case Reconciles(scope) =>
        ReconcileKeeps(c, values, scope);
        ReconcileDisturbs(c, values, scope);
    }
    Front(c.log, t.log[|c.log|]);
    forall x ensures Missed(t.log, x) <==> Stale(t.log, x) {
      assert Missed(c.log, x) <==> Stale(c.log, x);
    }
  }

  lemma NextKeeps(c: Coordinator, d: Coordinator, values: map<Scope, Value>)
    requires Inv(c, values) && Undisturbed(c) && Next(c, d)
    ensures Inv(d, values) && Undisturbed(d)
  {
    var m :| Guarded(c, m) && d == Moved(c, m);
    MoveKeeps(c, values, m);
  }

  lemma {:induction false} RunKeeps(run: seq<Coordinator>, values: map<Scope, Value>, i: nat)
    requires IsRun(run, values) && i < |run|
    ensures Inv(run[i], values) && Undisturbed(run[i])
  {
    if i > 0 {
      RunKeeps(run, values, i - 1);
      assert Next(run[i - 1], run[i - 1 + 1]);
      NextKeeps(run[i - 1], run[i], values);
    }
  }

  /** Over every run with such callers, whenever the queue is empty: a scope shows
      its confirmed value, the last one saved, unless its last write was not
      applicable when it ended, in which case the pick goes on showing. */
  lemma GuardedShowsSaved(run: seq<Coordinator>, values: map<Scope, Value>, i: nat, scope: Scope)
    requires IsRun(run, values) && i < |run| && run[i].queue == []
    ensures var c := run[i];
      var saved, picked := LastSaved(c.log, scope, Look(values, scope)), LastPicked(c.log, scope);
      && Look(c.confirmed, scope) == saved
      && (if Stale(c.log, scope) then picked.Some? && Look(c.optimistic, scope) == picked.value.requested
          else Look(c.optimistic, scope) == saved)
      && (scope in c.scopes ==> c.scopes[scope].status != Saving)
  {
    RunKeeps(run, values, i);
    SettledShowsSaved(run[i], values, scope);
    assert Missed(run[i].log, scope) <==> Stale(run[i].log, scope);
  }

  /** While every write was applicable when it ended, no scope is stale. */
  lemma {:induction false} ApplicableNeverStale(log: seq<Event>, scope: Scope)
    requires forall k :: 0 <= k < |log| && log[k].Ended? ==> log[k].applicable
    ensures !Stale(log, scope)
    decreases |log|
  {
    if log != [] { ApplicableNeverStale(log[..|log| - 1], scope); }
  }

  /** With writes that are all applicable every scope of an idle coordinator shows
      exactly the last value saved. */
  lemma IdleShowsSaved(run: seq<Coordinator>, values: map<Scope, Value>, i: nat)
    requires IsRun(run, values) && i < |run| && run[i].queue == []
    requires forall k :: 0 <= k < |run[i].log| && run[i].log[k].Ended? ==> run[i].log[k].applicable
    ensures forall scope ::
      Look(run[i].optimistic, scope) == Look(run[i].confirmed, scope) == LastSaved(run[i].log, scope, Look(values, scope))
  {
    forall scope ensures
      Look(run[i].optimistic, scope) == Look(run[i].confirmed, scope) == LastSaved(run[i].log, scope, Look(values, scope))
    {
      ApplicableNeverStale(run[i].log, scope);
      GuardedShowsSaved(run, values, i, scope);
    }
  }

  // ---------- the coordinator as an object ----------

  class PreferenceCoordinator {
    var scopeStates: map<Scope, ScopeState>
    var queue: seq<Write>
    var optimistic: map<Scope, Value>
    var confirmed: map<Scope, Value>
    ghost var values: map<Scope, Value>
    ghost var log: seq<Event>

    ghost function View(): Coordinator
      reads this
    {
      Coordinator(scopeStates, queue, optimistic, confirmed, log)
    }

    ghost predicate Valid()
      reads this
    {
      Inv(View(), values)
    }

    constructor (values: map<Scope, Value>)
      ensures Valid() && View() == Initial(values) && this.values == values
    {
      scopeStates, queue, optimistic, confirmed := map[], [], values, values;
      this.values, log := values, [];
    }

    /** `setRuntimeOverride`: the choice is shown first, then its write is asked for.
        A setting that belongs to no scope is not saved. */
    method Choose(scopeValue: string, value: Value) returns (refused: bool)
      requires Valid()
      modifies this
      ensures Valid() && values == old(values) && refused == (Trim(scopeValue) == "")
      ensures View() == if refused then old(View()) else Pick(old(View()), Trim(scopeValue), value)
    {
      var scope := Trim(scopeValue);
      if scope == "" { return true; }
      ghost var before := View();
      PickKeeps(before, values, scope, value);
      optimistic := optimistic[scope := value];
      refused := Enqueue(scopeValue, value);
      ShownAndAsked(before, View(), scope, value);
    }

    /** `enqueue`: a blank scope is refused; otherwise the scope is saving and the
        write waits behind all others. What shows is none of its business. */
    method Enqueue(scopeValue: string, requested: Value) returns (refused: bool)
      modifies this`scopeStates, this`queue, this`log
      ensures refused == (Trim(scopeValue) == "")
      ensures refused ==> unchanged(this)
      ensures !refused ==>
        var scope := Trim(scopeValue); var write := Write(scope, requested, ScopeOf(old(View()), scope).generation + 1);
        && scopeStates == old(scopeStates)[scope := ScopeState(write.generation, Saving, "")]
        && queue == old(queue) + [write] && log == old(log) + [Picked(write)]
    {
      var scope := Trim(scopeValue);
      if scope == "" { return true; }
      var current := if scope in scopeStates then scopeStates[scope] else ScopeState(0, Idle, "");
      var generation := current.generation + 1;
      scopeStates := scopeStates[scope := current.(generation := generation, status := Saving, error := "")];
      queue := queue + [Write(scope, requested, generation)];
      log := log + [Picked(Write(scope, requested, generation))];
      refused := false;
    }

    /** The write at the head of the queue ends, after `persist` has. */
    method TaskEnds(ending: Ending, applicable: bool)
      requires Valid() && queue != []
      modifies this
      ensures Valid() && values == old(values) && View() == End(old(View()), ending, applicable)
    {
      ghost var after := End(View(), ending, applicable);
      EndKeeps(View(), values, ending, applicable);
      var task := queue[0];
      match ending {
        case Saved(canonical) => Succeeds(task, canonical, applicable);
        case Lost(error) => Fails(task, error, applicable);
      }
      assert scopeStates == after.scopes && optimistic == after.optimistic && confirmed == after.confirmed;
      queue, log := queue[1..], log + [Ended(task, ending, applicable)];
      assert View() == after;
    }

    /** The `try` part after `persist`. */
    method Succeeds(task: Write, canonical: Value, applicable: bool)
      modifies this`scopeStates, this`confirmed, this`optimistic
      ensures var state := ScopeOf(old(View()), task.scope); var latest := state.generation == task.generation;
        && confirmed == (if applicable then old(confirmed)[task.scope := canonical] else old(confirmed))
        && optimistic == (if latest && applicable then old(optimistic)[task.scope := canonical] else old(optimistic))
        && scopeStates == (if latest then old(scopeStates)[task.scope := ScopeState(state.generation, Ready, "")] else old(scopeStates))
    {
      var current := if task.scope in scopeStates then scopeStates[task.scope] else ScopeState(0, Idle, "");
      if applicable { confirmed := confirmed[task.scope := canonical]; }
      if current.generation == task.generation {
        scopeStates := scopeStates[task.scope := current.(status := Ready, error := "")];
        if applicable { optimistic := optimistic[task.scope := canonical]; }
      }
    }

    /** The `catch` part. */
    method Fails(task: Write, error: string, applicable: bool)
      modifies this`scopeStates, this`optimistic
      ensures var state := ScopeOf(old(View()), task.scope); var latest := state.generation == task.generation;
        && optimistic == (if latest && applicable then old(optimistic)[task.scope := Look(confirmed, task.scope)] else old(optimistic))
        && scopeStates ==
          (if latest && applicable then old(scopeStates)[task.scope := ScopeState(state.generation, Failed, error)]
           else if latest then old(scopeStates)[task.scope := ScopeState(state.generation, Ready, "")]
           else old(scopeStates))
    {
      var current := if task.scope in scopeStates then scopeStates[task.scope] else ScopeState(0, Idle, "");
      if current.generation != task.generation { return; }
      if applicable {
        scopeStates := scopeStates[task.scope := current.(status := Failed, error := error)];
        optimistic := optimistic[task.scope := if task.scope in confirmed then confirmed[task.scope] else ""];
      } else {
        scopeStates := scopeStates[task.scope := current.(status := Ready, error := "")];
      }
    }

    /** `reconcile`. */
    method ReconcileScope(scopeValue: string) returns (refused: bool)
      requires Valid()
      modifies this
      ensures Valid() && values == old(values) && refused == (Trim(scopeValue) == "")
      ensures View() == if refused then old(View()) else Reconcile(old(View()), Trim(scopeValue))
    {
      var scope := Trim(scopeValue);
      if scope == "" { return true; }
      ReconcileKeeps(View(), values, scope);
      var current := if scope in scopeStates then scopeStates[scope] else ScopeState(0, Idle, "");
      log := log + [Reconciled(scope)];
      scopeStates := scopeStates[scope := ScopeState(current.generation + 1, Ready, "")];
      refused := false;
    }
  }
}
