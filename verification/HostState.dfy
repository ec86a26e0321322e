/** The host's side of the request protocol as a function of its state. */
module HostState {
  import opened Json
  import opened Outcome
  import opened Wrappers
  import opened Wire

  datatype HostFault = InvalidOutcome | OutcomeConflict | ReceiptMissing | AcknowledgedFailure

  /** How a caller's promise is settled. */
  datatype Verdict =
    | Resolved(body: Json, receipt: Option<Receipt>)
    | Aborted(timeout: bool, acknowledged: bool, quiesced: bool)
    | AgentFailed(code: ErrorCode, completed: bool, quiesced: bool, acknowledged: bool, outcome: Option<Receipt>)
    | HostRejected(fault: HostFault, outcome: Option<Receipt>)
    | Unwritten(outcome: Option<Receipt>)
    | TransportClosed

  datatype ControlError = AgentSaid(code: ErrorCode) | Unacknowledged | OutcomeUnreadable | CancelUnwritten

  datatype Entry =
    | RequestEntry(
        verb: string, writePending: bool, abortRequested: bool, timeoutTriggered: bool,
        clientSettled: bool, cancelId: Option<Id>, controlError: Option<ControlError>,
        committedReceipt: Option<Receipt>, timerArmed: bool, listening: bool)
    | CancelEntry(target: Id, cancelWritePending: bool)

  /** `verdicts` holds the first settlement of each promise; a second one would set `settledTwice`. */
  datatype Host = Host(
    pending: map<Id, Entry>, closed: bool, verdicts: map<Id, Verdict>, settledTwice: bool)

  const InitialHost := Host(map[], false, map[], false)

  function Clear(h: Host, id: Id): Host { h.(pending := h.pending - {id}) }

  function ClearCancel(h: Host, e: Entry): Host
    requires e.RequestEntry?
  {
    if e.cancelId.Some? then Clear(h, e.cancelId.value) else h
  }

  function Settle(h: Host, id: Id, v: Verdict): Host {
    if id in h.verdicts then h.(settledTwice := true) else h.(verdicts := h.verdicts[id := v])
  }

  /** Settles a promise unless its record says that was done. */
  function SettleOnce(h: Host, id: Id, e: Entry, v: Verdict): Host
    requires e.RequestEntry?
  {
    if e.clientSettled then h else Settle(h, id, v)
  }

  function Read(outcome: Option<Receipt>, id: Id, verb: string, body: Option<Json>): Option<Receipt> {
    if outcome.None? then None else Normalize(outcome.value, id, verb, body)
  }

  /** `backendError`. */
  function Failed(error: ErrorObject, id: Id, e: Entry): Verdict
    requires e.RequestEntry?
  {
    AgentFailed(error.code, error.completed, error.quiesced,
      e.abortRequested && error.completed && error.quiesced,
      Read(error.mutationOutcome, id, e.verb, None))
  }

  /** A new record; the call has been handed to the stream. */
  function FreshEntry(verb: string, signal: bool): Entry {
    RequestEntry(verb, true, false, false, false, None, None, None, true, signal)
  }

  /** `request` when the write is accepted. */
  function Ask(h: Host, id: Id, verb: string, signal: bool): Host {
    h.(pending := h.pending[id := FreshEntry(verb, signal)])
  }

  /** `request` with a signal that has already fired: nothing is sent. */
  function AskAborted(h: Host, id: Id): Host { Settle(h, id, Aborted(false, true, true)) }

  /** `sendCancellationRequest` when the write is accepted. */
  function SendCancel(h: Host, id: Id, e: Entry, cancelId: Id): Host
    requires e.RequestEntry?
  {
    if e.cancelId.Some? || h.closed then h.(pending := h.pending[id := e])
    else h.(pending := h.pending[id := e.(cancelId := Some(cancelId))][cancelId := CancelEntry(id, true)])
  }

  /** The deadline timer. */
  function Deadline(h: Host, id: Id, cancelId: Id): Host
    requires id in h.pending && h.pending[id].RequestEntry?
  {
    SendCancel(h, id,
      h.pending[id].(timerArmed := false, abortRequested := true, timeoutTriggered := true, listening := false),
      cancelId)
  }

  /** The abort listener. */
  function Abort(h: Host, id: Id, cancelId: Id): Host
    requires id in h.pending && h.pending[id].RequestEntry?
  {
    if h.pending[id].abortRequested then h
    else SendCancel(h, id, h.pending[id].(abortRequested := true, listening := false), cancelId)
  }

  /** `handleWriteFailure`. */
  function WriteFailure(h: Host, id: Id, code: string): Host {
    if id !in h.pending || !h.pending[id].RequestEntry? then Clear(h, id)
    else SettleOnce(Clear(h, id), id, h.pending[id], Unwritten(UnwrittenOutcome(id, h.pending[id].verb, code)))
  }

  /** The write callback of a request. */
  function Written(h: Host, id: Id, error: Option<string>): Host {
    if id !in h.pending || !h.pending[id].RequestEntry? then h
    else if error.None? then h.(pending := h.pending[id := h.pending[id].(writePending := false)])
    else WriteFailure(ClearCancel(h, h.pending[id]), id, error.value)
  }

  /** The write callback of a cancel request; `target` is the record its closure holds. */
  function CancelWritten(h: Host, cancelId: Id, target: Id, failed: bool): Host {
    if !failed then
      if cancelId in h.pending && h.pending[cancelId].CancelEntry?
      then h.(pending := h.pending[cancelId := h.pending[cancelId].(cancelWritePending := false)])
      else h
    else
      var g := Clear(h, cancelId);
      if target in g.pending && g.pending[target].RequestEntry?
      then g.(pending := g.pending[target := g.pending[target].(controlError := Some(CancelUnwritten))])
      else g
  }

  /** `close`: every request still pending is rejected. */
  function Close(h: Host): Host {
    if h.closed then h
    else
      var open := set id | id in h.pending && h.pending[id].RequestEntry? && !h.pending[id].clientSettled;
      Host(map[], true,
        map id | id in h.verdicts.Keys + open :: if id in h.verdicts then h.verdicts[id] else TransportClosed,
        h.settledTwice || open * h.verdicts.Keys != {})
  }

  /** `failPendingWrites`: calls not yet written fail as unwritten, then the transport closes. */
  function StdinFailed(h: Host, code: string): Host {
    if h.closed then h
    else
      var lost := set id | id in h.pending && h.pending[id].RequestEntry? && h.pending[id].writePending;
      var open := lost - set id | id in lost && h.pending[id].clientSettled;
      Close(h.(
        pending := h.pending - lost,
        verdicts := map id | id in h.verdicts.Keys + open ::
          if id in h.verdicts then h.verdicts[id]
          else Unwritten(UnwrittenOutcome(id, h.pending[id].verb, code)),
        settledTwice := h.settledTwice || open * h.verdicts.Keys != {}))
  }

  /** A message for a cancel request that was waiting on `target`. */
  function HandleAck(h: Host, target: Id, p: Payload): Host {
    if target !in h.pending || !h.pending[target].RequestEntry? then h
    else
      var e := h.pending[target];
      if p.Err? then h.(pending := h.pending[target := e.(controlError := Some(AgentSaid(p.error.code)))])
      else if p.result.ack.None? || p.result.ack.value.target != target
        || !p.result.ack.value.acknowledged || !p.result.ack.value.quiesced
      then h.(pending := h.pending[target := e.(controlError := Some(Unacknowledged))])
      else
        var claimed := p.result.ack.value.mutationOutcome;
        var outcome := Read(claimed, target, e.verb, None);
        if claimed.Some? && outcome.None?
        then h.(pending := h.pending[target := e.(controlError := Some(OutcomeUnreadable))])
        else if outcome.Some? && outcome.value.committed
        then h.(pending := h.pending[target :=
          e.(timerArmed := false, listening := false, committedReceipt := outcome)])
        else SettleOnce(Clear(h, target), target, e,
          if outcome.Some? && outcome.value.partialPossible then HostRejected(AcknowledgedFailure, outcome)
          else Aborted(e.timeoutTriggered, true, true))
  }

  /** A message under a request's own id; its record `e` has been taken off the map. */
  function HandleReply(h: Host, id: Id, e: Entry, p: Payload): Host
    requires e.RequestEntry?
  {
    HandleRead(h, id, e, p, if p.Ok? then Read(p.result.requestOutcome, id, e.verb, Some(p.result.body)) else None)
  }

  /** `outcome` is the receipt the message carries, as read. */
  function HandleRead(h: Host, id: Id, e: Entry, p: Payload, outcome: Option<Receipt>): Host
    requires e.RequestEntry?
  {
    var held := e.committedReceipt;
    if p.Ok? && p.result.requestOutcome.Some? && outcome.None?
    then SettleOnce(ClearCancel(h, e), id, e, HostRejected(InvalidOutcome, held))
    else if outcome.Some? && held.Some? && held.value.outcomeDigest != outcome.value.outcomeDigest
    then SettleOnce(ClearCancel(h, e), id, e, HostRejected(OutcomeConflict, held))
    else if held.Some? && !(outcome.Some? && outcome.value.committed)
    then SettleOnce(ClearCancel(h, e), id, e, HostRejected(ReceiptMissing, held))
    else if e.abortRequested then
      SettleOnce(ClearCancel(h, e), id, e,
        if p.Err? then Failed(p.error, id, e)
        else if outcome.Some? && outcome.value.committed then Resolved(p.result.body, outcome)
        else Aborted(e.timeoutTriggered, true, true))
    else Settle(h, id, if p.Err? then Failed(p.error, id, e) else Resolved(p.result.body, outcome))
  }

  /** `handleLine` on a parsed message that is no event. */
  function Handle(h: Host, m: Message): Host {
    if m.id !in h.pending then h
    else if h.pending[m.id].CancelEntry? then HandleAck(Clear(h, m.id), h.pending[m.id].target, m.payload)
    else HandleReply(Clear(h, m.id), m.id, h.pending[m.id], m.payload)
  }
}
