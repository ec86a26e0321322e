/** The host's transport as the object it is: a map of pending records that
    timers, listeners, write callbacks and incoming lines change. Every method
    follows the branches of its original and is proved to be the step that the
    protocol takes at the host. */
module HostTransport {
  import opened Json
  import opened Outcome
  import opened Wrappers
  import opened Wire
  import opened HostState

  class NdjsonTransport {
    var pending: map<Id, Entry>
    var closed: bool
    var verdicts: map<Id, Verdict>   // the promises settled so far
    var settledTwice: bool
    var outbox: seq<Call>            // what stdin accepted

    ghost function View(): Host
      reads this
    {
      Host(pending, closed, verdicts, settledTwice)
    }

    constructor ()
      ensures View() == InitialHost && outbox == []
    {
      pending, closed, verdicts, settledTwice, outbox := map[], false, map[], false, [];
    }

    method ClearPending(id: Id) returns (entry: Option<Entry>)
      modifies this`pending
      ensures View() == Clear(old(View()), id)
      ensures entry == if id in old(pending) then Some(old(pending)[id]) else None
    {
      if id !in pending {
        assert pending - {id} == pending;
        return None;
      }
      entry := Some(pending[id]);
      pending := pending - {id};
    }

    /** `resolve` or `reject` of the promise for `id`. */
    method Settle(id: Id, v: Verdict)
      modifies this`verdicts, this`settledTwice
      ensures View() == HostState.Settle(old(View()), id, v)
    {
      if id in verdicts {
        settledTwice := true;
      } else {
        verdicts := verdicts[id := v];
      }
    }

    method SettleUnlessDone(id: Id, entry: Entry, v: Verdict)
      requires entry.RequestEntry?
      modifies this`verdicts, this`settledTwice
      ensures View() == SettleOnce(old(View()), id, entry, v)
    {
      if !entry.clientSettled { Settle(id, v); }
    }

    /** The cancel record goes along with a request that was answered after its cancellation. */
    method Finish(id: Id, entry: Entry, v: Verdict)
      requires entry.RequestEntry?
      modifies this`pending, this`verdicts, this`settledTwice
      ensures View() == SettleOnce(ClearCancel(old(View()), entry), id, entry, v)
    {
      ClearCancelOf(entry);
      SettleUnlessDone(id, entry, v);
    }

    method ClearCancelOf(entry: Entry)
      requires entry.RequestEntry?
      modifies this`pending
      ensures View() == ClearCancel(old(View()), entry)
    {
      if entry.cancelId.Some? {
        var _ := ClearPending(entry.cancelId.value);
      }
    }

    // ---------- requests ----------

    /** `request`: refused when closed, aborted before it is sent when the signal
        has fired, otherwise recorded and written. `thrown` is the code of an
        error that the write throws. */
    method Request(id: Id, verb: string, apply: bool, signal: bool, fired: bool, thrown: Option<string>)
      returns (refused: bool)
      requires fired ==> signal
      modifies this
      ensures refused == old(closed)
      ensures refused ==> View() == old(View())
      ensures !refused && fired ==> View() == AskAborted(old(View()), id)
      ensures !refused && !fired ==>
        View() == var h := HostState.Ask(old(View()), id, verb, signal);
          if thrown.Some? then HostState.Written(h, id, thrown) else h
      ensures outbox == old(outbox)
        + if refused || fired || thrown.Some? then [] else [Call.Request(id, verb, apply)]
    {
      if closed { return true; }
      refused := false;
      if fired {
        Settle(id, Aborted(false, true, true));
        return;
      }
      pending := pending[id := FreshEntry(verb, signal)];
      if thrown.None? {
        outbox := outbox + [Call.Request(id, verb, apply)];
      } else {
        ClearCancelOf(pending[id]);
        HandleWriteFailure(id, thrown.value);
      }
    }

    /** The callback of a request's write. */
    method RequestWritten(id: Id, error: Option<string>)
      modifies this`pending, this`verdicts, this`settledTwice
      ensures View() == HostState.Written(old(View()), id, error)
    {
      if id in pending && pending[id].RequestEntry? {
        if error.None? {
          pending := pending[id := pending[id].(writePending := false)];
        } else {
          ClearCancelOf(pending[id]);
          HandleWriteFailure(id, error.value);
        }
      }
    }

    method HandleWriteFailure(id: Id, code: string)
      modifies this`pending, this`verdicts, this`settledTwice
      ensures View() == WriteFailure(old(View()), id, code)
    {
      var entry := ClearPending(id);
      if entry.None? || entry.value.CancelEntry? || entry.value.clientSettled { return; }
      Settle(id, Unwritten(UnwrittenOutcome(id, entry.value.verb, code)));
    }

    // ---------- cancellation ----------

    /** `sendCancellationRequest`. */
    method SendCancellationRequest(id: Id, cancelId: Id, throws: bool)
      requires id in pending && pending[id].RequestEntry? && cancelId !in pending
      modifies this`pending, this`outbox
      ensures var h := SendCancel(old(View()), id, old(pending)[id], cancelId);
        View() == if throws && cancelId in h.pending then HostState.CancelWritten(h, cancelId, id, true) else h
      ensures outbox == old(outbox)
        + if old(closed) || old(pending)[id].cancelId.Some? || throws then [] else [CancelRequest(cancelId, id)]
    {
      var entry := pending[id];
      if entry.cancelId.Some? || closed {
        assert pending[id := entry] == pending;
        return;
      }
      pending := pending[id := entry.(cancelId := Some(cancelId))];
      pending := pending[cancelId := CancelEntry(id, true)];
      if throws {
        CancelWritten(cancelId, id, true);
      } else {
        outbox := outbox + [CancelRequest(cancelId, id)];
      }
    }

    /** The callback of a cancel request's write. */
    method CancelWritten(cancelId: Id, target: Id, failed: bool)
      modifies this`pending
      ensures View() == HostState.CancelWritten(old(View()), cancelId, target, failed)
    {
      if !failed {
        if cancelId in pending && pending[cancelId].CancelEntry? {
          pending := pending[cancelId := pending[cancelId].(cancelWritePending := false)];
        }
        return;
      }
      var _ := ClearPending(cancelId);
      if target in pending && pending[target].RequestEntry? {
        pending := pending[target := pending[target].(controlError := Some(CancelUnwritten))];
      }
    }

    /** The timer callback: it starts a cancellation and settles nothing. */
    method DeadlinePasses(id: Id, cancelId: Id, throws: bool)
      requires id in pending && pending[id].RequestEntry? && cancelId !in pending
      modifies this`pending, this`outbox
      ensures var h := Deadline(old(View()), id, cancelId);
        View() == if throws && cancelId in h.pending then HostState.CancelWritten(h, cancelId, id, true) else h
    {
      pending := pending[id := pending[id].(timerArmed := false, abortRequested := true, timeoutTriggered := true, listening := false)];
      SendAgain(old(View()), id, pending[id], cancelId);
      SendCancellationRequest(id, cancelId, throws);
    }

    /** The abort listener, which fires at most once. */
    method SignalAborts(id: Id, cancelId: Id, throws: bool)
      requires id in pending && pending[id].RequestEntry? && cancelId !in pending
      modifies this`pending, this`outbox
      ensures var h := Abort(old(View()), id, cancelId);
        View() == if throws && cancelId in h.pending then HostState.CancelWritten(h, cancelId, id, true) else h
    {
      if pending[id].abortRequested { return; }
      pending := pending[id := pending[id].(abortRequested := true, listening := false)];
      SendAgain(old(View()), id, pending[id], cancelId);
      SendCancellationRequest(id, cancelId, throws);
    }

    /** Changing the record first and sending then is sending the changed record. */
    static lemma SendAgain(h: Host, id: Id, e: Entry, c: Id)
      requires e.RequestEntry?
      ensures SendCancel(h.(pending := h.pending[id := e]), id, e, c) == SendCancel(h, id, e, c)
    {
      var p := h.pending[id := e];
      assert p[id := e] == p;
      assert p[id := e.(cancelId := Some(c))] == h.pending[id := e.(cancelId := Some(c))];
    }

    // ---------- incoming messages ----------

    /** `handleLine` on a parsed message. */
    method HandleLine(m: Message)
      modifies this`pending, this`verdicts, this`settledTwice
      ensures View() == Handle(old(View()), m)
    {
      if m.id !in pending { return; }
      var entry := pending[m.id];
      var _ := ClearPending(m.id);
      if entry.CancelEntry? {
        HandleCancelAnswer(entry.target, m.payload);
      } else {
        HandleOwnReply(m.id, entry, m.payload);
      }
    }

    method HandleCancelAnswer(target: Id, p: Payload)
      modifies this`pending, this`verdicts, this`settledTwice
      ensures View() == HandleAck(old(View()), target, p)
    {
      if target !in pending || pending[target].CancelEntry? { return; }
      var entry := pending[target];
      if p.Err? {
        pending := pending[target := entry.(controlError := Some(AgentSaid(p.error.code)))];
        return;
      }
      var ack := p.result.ack;
      if ack.None? || ack.value.target != target || !ack.value.acknowledged || !ack.value.quiesced {
        pending := pending[target := entry.(controlError := Some(Unacknowledged))];
        return;
      }
      Acknowledged(target, entry, p);
    }

    /** The cancellation was acknowledged. */
    method Acknowledged(target: Id, entry: Entry, p: Payload)
      requires target in pending && pending[target] == entry && entry.RequestEntry? && p.Ok?
      requires p.result.ack.Some?
      requires p.result.ack.value.target == target && p.result.ack.value.acknowledged && p.result.ack.value.quiesced
      modifies this`pending, this`verdicts, this`settledTwice
      ensures View() == HandleAck(old(View()), target, p)
    {
      var ack := p.result.ack;
      var outcome := Read(ack.value.mutationOutcome, target, entry.verb, None);
      if ack.value.mutationOutcome.Some? && outcome.None? {
        pending := pending[target := entry.(controlError := Some(OutcomeUnreadable))];
        return;
      }
      if outcome.Some? && outcome.value.committed {
        // The receipt proves the commit; the result itself must still arrive.
        pending := pending[target := entry.(timerArmed := false, listening := false, committedReceipt := outcome)];
        return;
      }
      var _ := ClearPending(target);
      SettleUnlessDone(target, entry,
        if outcome.Some? && outcome.value.partialPossible then HostRejected(AcknowledgedFailure, outcome)
        else Aborted(entry.timeoutTriggered, true, true));
    }

    method HandleOwnReply(id: Id, entry: Entry, p: Payload)
      requires entry.RequestEntry?
      modifies this`pending, this`verdicts, this`settledTwice
      ensures View() == HandleReply(old(View()), id, entry, p)
    {
      var outcome: Option<Receipt> := None;
      if p.Ok? && p.result.requestOutcome.Some? {
        outcome := Normalize(p.result.requestOutcome.value, id, entry.verb, Some(p.result.body));
      }
      SettleReply(id, entry, p, outcome);
    }

    method SettleReply(id: Id, entry: Entry, p: Payload, outcome: Option<Receipt>)
      requires entry.RequestEntry? && (outcome.Some? ==> p.Ok? && p.result.requestOutcome.Some?)
      modifies this`pending, this`verdicts, this`settledTwice
      ensures View() == HandleRead(old(View()), id, entry, p, outcome)
    {
      var held := entry.committedReceipt;
      if p.Ok? && p.result.requestOutcome.Some? {
        if outcome.None? {
          Finish(id, entry, HostRejected(InvalidOutcome, held));
          return;
        }
        if held.Some? && held.value.outcomeDigest != outcome.value.outcomeDigest {
          Finish(id, entry, HostRejected(OutcomeConflict, held));
          return;
        }
      }
      if held.Some? && !(outcome.Some? && outcome.value.committed) {
        Finish(id, entry, HostRejected(ReceiptMissing, held));
      } else if entry.abortRequested {
        FinishAborted(id, entry, p, outcome);
      } else {
        match p
        case Err(error) => Settle(id, Failed(error, id, entry));
        case Ok(result) => Settle(id, Resolved(result.body, outcome));
      }
    }

    method FinishAborted(id: Id, entry: Entry, p: Payload, outcome: Option<Receipt>)
      requires entry.RequestEntry?
      modifies this`pending, this`verdicts, this`settledTwice
      ensures View() == SettleOnce(ClearCancel(old(View()), entry), id, entry,
        if p.Err? then Failed(p.error, id, entry)
        else if outcome.Some? && outcome.value.committed then Resolved(p.result.body, outcome)
        else Aborted(entry.timeoutTriggered, true, true))
    {
      if p.Err? {
        Finish(id, entry, Failed(p.error, id, entry));
      } else if outcome.Some? && outcome.value.committed {
        Finish(id, entry, Resolved(p.result.body, outcome));
      } else {
        Finish(id, entry, Aborted(entry.timeoutTriggered, true, true));
      }
    }

    // ---------- the end of the transport ----------

    /** `close`: every record goes, every open request is rejected. */
    method CloseTransport()
      modifies this
      ensures View() == Close(old(View())) && outbox == old(outbox)
    {
      if closed { return; }
      closed := true;
      ghost var before: Host, order: seq<Id> := View(), [];
      var left := pending.Keys;
      while left != {}
        invariant Parts(before.pending, before.pending.Keys, order, left)
        invariant View() == RejectInTurn(before, order, None) && outbox == old(outbox)
        decreases |left|
      {
        var id :| id in left;
        NextInTurn(before, order, left, id, None);
        RejectClosed(id);
        left, order := left - {id}, order + [id];
      }
      assert View() == RejectSome(before, before.pending.Keys, None) by {
        EveryOrder(before, order, None);
        assert Set(order) == before.pending.Keys;
      }
      AllRejected(old(View()));
    }

    method RejectClosed(id: Id)
      modifies this`pending, this`verdicts, this`settledTwice
      ensures View() == RejectOne(old(View()), id, None)
    {
      var entry := ClearPending(id);
      if entry.Some? && entry.value.RequestEntry? {
        SettleUnlessDone(id, entry.value, TransportClosed);
      }
    }

    /** `failPendingWrites`: what was not yet written fails, then the transport closes. */
    method FailPendingWrites(code: string)
      modifies this
      ensures View() == StdinFailed(old(View()), code) && outbox == old(outbox)
    {
      if closed { return; }
      ghost var before := View();
      FailUnwritten(code);
      WritesRejected(before, code);
      CloseTransport();
    }

    /** Everything that waits for its write to be accepted fails, record after record. */
    method FailUnwritten(code: string)
      modifies this`pending, this`verdicts, this`settledTwice
      ensures View() == RejectSome(old(View()), Unsent(old(pending)), Some(code))
    {
      var writes := Unsent(pending);
      ghost var before: Host, order: seq<Id> := View(), [];
      while writes != {}
        invariant Parts(before.pending, Unsent(before.pending), order, writes)
        invariant View() == RejectInTurn(before, order, Some(code))
        decreases |writes|
      {
        var id :| id in writes;
        NextInTurn(before, order, writes, id, Some(code));
        HandleWriteFailure(id, code);
        writes, order := writes - {id}, order + [id];
      }
      EveryOrder(before, order, Some(code));
      assert Set(order) == Unsent(before.pending);
    }
  }

  // ---------- rejecting record after record ----------

  /** The requests among `ids` whose caller still waits. */
  ghost function Open(h: Host, ids: set<Id>): set<Id> {
    set id | id in ids && id in h.pending && h.pending[id].RequestEntry? && !h.pending[id].clientSettled
  }

  function Unsent(pending: map<Id, Entry>): set<Id> {
    set id | id in pending && pending[id].RequestEntry? && pending[id].writePending
  }

  function Rejection(h: Host, id: Id, code: Option<string>): Verdict
    requires id in h.pending && h.pending[id].RequestEntry?
  {
    if code.None? then TransportClosed else Unwritten(UnwrittenOutcome(id, h.pending[id].verb, code.value))
  }

  /** The verdicts there are, and a rejection for each of `open` that has none. */
  ghost function Rejections(h: Host, open: set<Id>, code: Option<string>): map<Id, Verdict>
    requires forall id :: id in open ==> id in h.pending && h.pending[id].RequestEntry?
  {
    map id | id in h.verdicts.Keys + open :: if id in h.verdicts then h.verdicts[id] else Rejection(h, id, code)
  }

  /** The records of `ids` are gone and their open callers rejected: as unwritten
      with an error code, otherwise as closed. */
  ghost function RejectSome(h: Host, ids: set<Id>, code: Option<string>): Host {
    h.(pending := h.pending - ids,
       verdicts := Rejections(h, Open(h, ids), code),
       settledTwice := h.settledTwice || Open(h, ids) * h.verdicts.Keys != {})
  }

  /** One turn of either loop. */
  function RejectOne(h: Host, id: Id, code: Option<string>): Host {
    if id in h.pending && h.pending[id].RequestEntry?
    then SettleOnce(Clear(h, id), id, h.pending[id], Rejection(h, id, code))
    else Clear(h, id)
  }

  function RejectInTurn(h: Host, order: seq<Id>, code: Option<string>): Host {
    if order == [] then h
    else RejectOne(RejectInTurn(h, order[..|order| - 1], code), order[|order| - 1], code)
  }

  ghost function Set(order: seq<Id>): set<Id> { set id | id in order }

  /** `order` is the part of `all` that is done, `left` what remains. */
  ghost predicate Parts(pending: map<Id, Entry>, all: set<Id>, order: seq<Id>, left: set<Id>) {
    && all <= pending.Keys
    && (forall i, j :: 0 <= i < j < |order| ==> order[i] != order[j])
    && Set(order) !! left && Set(order) + left == all
  }

  lemma NextInTurn(h: Host, order: seq<Id>, left: set<Id>, id: Id, code: Option<string>)
    requires id in left
    ensures RejectInTurn(h, order + [id], code) == RejectOne(RejectInTurn(h, order, code), id, code)
    ensures forall all :: Parts(h.pending, all, order, left) ==> Parts(h.pending, all, order + [id], left - {id})
    ensures code.Some? ==>
      RejectOne(RejectInTurn(h, order, code), id, code) == WriteFailure(RejectInTurn(h, order, code), id, code.value)
  {
    assert (order + [id])[..|order|] == order;
    assert Set(order + [id]) == Set(order) + {id};
  }

  /** The order does not matter. */
  lemma {:induction false} EveryOrder(h: Host, order: seq<Id>, code: Option<string>)
    requires Set(order) <= h.pending.Keys
    requires forall i, j :: 0 <= i < j < |order| ==> order[i] != order[j]
    ensures RejectInTurn(h, order, code) == RejectSome(h, Set(order), code)
  {
    if order == [] {
      NoneRejected(h, code);
    } else {
      var rest, id := order[..|order| - 1], order[|order| - 1];
      assert order == rest + [id];
      assert Set(order) == Set(rest) + {id};
      EveryOrder(h, rest, code);
      OneMoreRejected(h, Set(rest), id, code);
    }
  }

  lemma NoneRejected(h: Host, code: Option<string>)
    ensures RejectSome(h, {}, code) == h
  {
    assert Open(h, {}) == {};
    assert h.pending - {} == h.pending;
    assert RejectSome(h, {}, code).verdicts == h.verdicts;
  }

  lemma OneMoreRejected(h: Host, ids: set<Id>, id: Id, code: Option<string>)
    requires id in h.pending && id !in ids
    ensures var g := Clear(RejectSome(h, ids, code), id);
      RejectSome(h, ids + {id}, code)
        == if h.pending[id].RequestEntry? then SettleOnce(g, id, h.pending[id], Rejection(h, id, code)) else g
  {
    var g := Clear(RejectSome(h, ids, code), id);
    var r := RejectSome(h, ids + {id}, code);
    assert r.pending == g.pending;
    if id in Open(h, {id}) {
      OneMoreOpen(h, ids, id, code);
    } else {
      assert Open(h, ids + {id}) == Open(h, ids);
    }
  }

  lemma OneMoreOpen(h: Host, ids: set<Id>, id: Id, code: Option<string>)
    requires id !in ids && id in Open(h, {id})
    ensures var g := RejectSome(h, ids, code);
      var r := RejectSome(h, ids + {id}, code);
      if id in h.verdicts then r.verdicts == g.verdicts && r.settledTwice
      else r.verdicts == g.verdicts[id := Rejection(h, id, code)] && r.settledTwice == g.settledTwice
  {
    assert Open(h, ids + {id}) == Open(h, ids) + {id};
    OneMoreVerdict(h, Open(h, ids), id, code);
    if id in h.verdicts {
      assert id in Open(h, ids + {id}) * h.verdicts.Keys;
    } else {
      assert (Open(h, ids) + {id}) * h.verdicts.Keys == Open(h, ids) * h.verdicts.Keys;
    }
  }

  lemma OneMoreVerdict(h: Host, open: set<Id>, id: Id, code: Option<string>)
    requires forall x :: x in open + {id} ==> x in h.pending && h.pending[x].RequestEntry?
    ensures Rejections(h, open + {id}, code)
      == if id in h.verdicts then Rejections(h, open, code) else Rejections(h, open, code)[id := Rejection(h, id, code)]
  {
  }

  lemma AllRejected(h: Host)
    requires !h.closed
    ensures var g := h.(closed := true); RejectSome(g, g.pending.Keys, None) == Close(h)
  {
    var g := h.(closed := true);
    var open := set id | id in h.pending && h.pending[id].RequestEntry? && !h.pending[id].clientSettled;
    assert Open(g, g.pending.Keys) == open;
    assert RejectSome(g, g.pending.Keys, None).verdicts == Close(h).verdicts;
  }

  lemma WritesRejected(h: Host, code: string)
    requires !h.closed
    ensures Close(RejectSome(h, Unsent(h.pending), Some(code))) == StdinFailed(h, code)
  {
    var lost := Unsent(h.pending);
    var open := lost - set id | id in lost && h.pending[id].clientSettled;
    assert Open(h, lost) == open;
    var verdicts := map id | id in h.verdicts.Keys + open ::
      if id in h.verdicts then h.verdicts[id] else Unwritten(UnwrittenOutcome(id, h.pending[id].verb, code));
    assert RejectSome(h, lost, Some(code)).verdicts == verdicts;
  }
}
