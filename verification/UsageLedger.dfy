/** The usage ledger: a serial queue of appends onto a chain of digests. */
module UsageLedger {
  import opened Wrappers

  const MAX_QUEUE := 1000

  /** A digest stands for what was hashed: hashing is taken to be injective. */
  datatype Digest = Sha256(input: Input)

  /** What the digest of a row is taken over. */
  datatype Input = Input(seqNo: nat, previous: Option<Digest>, body: Body, dedupe: Option<string>)

  /** The row's own content, or what is kept of a row the redaction scan blocked. */
  datatype Body = Full(text: string) | Stub(kept: string, blockers: seq<string>)

  datatype Row = Row(input: Input, digest: Digest)

  datatype Candidate = Candidate(text: string, kept: string, dedupe: Option<string>)

  datatype Manifest = Manifest(rowCount: nat, lastDigest: Option<Digest>)

  // ---------- the chain ----------

  function LastDigest(file: seq<Row>): Option<Digest> {
    if file == [] then None else Some(file[|file| - 1].digest)
  }

  /** Rows numbered from 1, each with its own digest and its predecessor's. */
  predicate Chained(file: seq<Row>) {
    file == [] ||
    (Chained(file[..|file| - 1])
     && var row := file[|file| - 1];
        row.input.seqNo == |file| && row.digest == Sha256(row.input)
        && row.input.previous == LastDigest(file[..|file| - 1]))
  }

  lemma {:induction false} ChainedAt(file: seq<Row>, i: nat)
    requires Chained(file) && i < |file|
    ensures file[i].input.seqNo == i + 1 && file[i].digest == Sha256(file[i].input)
    ensures file[i].input.previous == if i == 0 then None else Some(file[i - 1].digest)
    ensures Chained(file[..i])
  {
    if i == |file| - 1 {
      assert i > 0 ==> file[..i][i - 1] == file[i - 1];
    } else {
      var rest := file[..|file| - 1];
      ChainedAt(rest, i);
      assert rest[..i] == file[..i];
    }
  }

  /** The last digest pins down the whole ledger: two ledgers that end in the same
      digest are the same, row for row. */
  lemma {:induction false} LastDigestDetermines(a: seq<Row>, b: seq<Row>)
    requires Chained(a) && Chained(b) && LastDigest(a) == LastDigest(b)
    ensures a == b
  {
    if a != [] {
      var x, y := a[|a| - 1], b[|b| - 1];
      assert x.input == y.input && |a| == |b|;
      LastDigestDetermines(a[..|a| - 1], b[..|b| - 1]);
      assert a == a[..|a| - 1] + [x] && b == b[..|b| - 1] + [y];
    }
  }

  /** The manifest describes the first rows of the file. */
  predicate Describes(m: Manifest, file: seq<Row>) {
    m.rowCount <= |file| && m.lastDigest == LastDigest(file[..m.rowCount])
  }

  // ---------- the store ----------

  /** Where the write in progress is, between two awaits. */
  datatype Progress =
    | Resting
    | Appending(row: Row)            // the row is made, the file not yet written
    | Appended(row: Row)             // it is in the file, the counters are not updated yet
    | Describing(manifest: Manifest)

  // ---------- who asked first ----------

  /** Everything the deduplication rests on: the file and the queue with the
      tickets their rows drew when they were asked for, the row in the making,
      and how many tickets had been drawn when each row was recorded. */
  datatype Past = Past(
    file: seq<Row>, queue: seq<Candidate>, queuedAs: seq<nat>, making: Option<(Option<string>, nat)>,
    writtenAs: seq<nat>, recordedAt: seq<nat>, seen: set<string>, asked: nat)

  ghost predicate Shaped(p: Past) {
    |p.recordedAt| <= |p.file| && |p.writtenAs| == |p.file| && |p.queuedAs| == |p.queue|
  }

  /** Of the first `n` recorded rows those with this key were recorded after the ticket was drawn. */
  ghost predicate Late(p: Past, key: Option<string>, ticket: nat, n: nat)
    requires Shaped(p) && n <= |p.recordedAt|
  {
    key.Some? ==> forall i {:trigger p.recordedAt[i]} :: 0 <= i < n && p.file[i].input.dedupe == key ==> ticket < p.recordedAt[i]
  }

  ghost predicate QueuedOk(p: Past, i: nat)
    requires Shaped(p) && i < |p.queue|
  {
    p.queuedAs[i] < p.asked && Late(p, p.queue[i].dedupe, p.queuedAs[i], |p.recordedAt|)
  }

  ghost predicate WrittenOk(p: Past, j: nat)
    requires Shaped(p) && j < |p.file|
  {
    p.writtenAs[j] < p.asked
    && Late(p, p.file[j].input.dedupe, p.writtenAs[j], if j < |p.recordedAt| then j else |p.recordedAt|)
  }

  ghost predicate RecordedOk(p: Past, i: nat)
    requires Shaped(p) && i < |p.recordedAt|
  {
    p.recordedAt[i] <= p.asked && (p.file[i].input.dedupe.Some? ==> p.file[i].input.dedupe.value in p.seen)
  }

  ghost predicate Deduped(p: Past) {
    && Shaped(p)
    && (forall i: nat {:trigger RecordedOk(p, i)} :: i < |p.recordedAt| ==> RecordedOk(p, i))
    && (forall i: nat {:trigger QueuedOk(p, i)} :: i < |p.queue| ==> QueuedOk(p, i))
    && (forall j: nat {:trigger WrittenOk(p, j)} :: j < |p.file| ==> WrittenOk(p, j))
    && (p.making.Some? ==> p.making.value.1 < p.asked && Late(p, p.making.value.0, p.making.value.1, |p.recordedAt|))
  }

  lemma QueueKeeps(p: Past, c: Candidate)
    requires Deduped(p) && (c.dedupe.Some? ==> c.dedupe.value !in p.seen)
    ensures Deduped(p.(queue := p.queue + [c], queuedAs := p.queuedAs + [p.asked], asked := p.asked + 1))
  {
    var q := p.(queue := p.queue + [c], queuedAs := p.queuedAs + [p.asked], asked := p.asked + 1);
    forall k: nat | k < |p.recordedAt|
      ensures p.file[k].input.dedupe.Some? ==> p.file[k].input.dedupe.value in p.seen
    {
      assert RecordedOk(p, k);
    }
    forall i: nat | i < |q.recordedAt| ensures RecordedOk(q, i) { assert RecordedOk(p, i); }
    forall i: nat | i < |q.queue| ensures QueuedOk(q, i) {
      if i < |p.queue| { assert QueuedOk(p, i); }
    }
    forall j: nat | j < |q.file| ensures WrittenOk(q, j) { assert WrittenOk(p, j); }
  }

  lemma StartKeeps(p: Past, key: Option<string>)
    requires Deduped(p) && p.queue != [] && (key == p.queue[0].dedupe || key.None?)
    ensures Deduped(p.(queue := p.queue[1..], queuedAs := p.queuedAs[1..], making := Some((key, p.queuedAs[0]))))
  {
    var q := p.(queue := p.queue[1..], queuedAs := p.queuedAs[1..], making := Some((key, p.queuedAs[0])));
    assert QueuedOk(p, 0);
    forall i: nat | i < |q.recordedAt| ensures RecordedOk(q, i) { assert RecordedOk(p, i); }
    forall i: nat | i < |q.queue| ensures QueuedOk(q, i) { assert QueuedOk(p, i + 1); }
    forall j: nat | j < |q.file| ensures WrittenOk(q, j) { assert WrittenOk(p, j); }
  }

  lemma GrowKeeps(p: Past, row: Row)
    requires Deduped(p) && p.making.Some? && p.making.value.0 == row.input.dedupe && |p.recordedAt| == |p.file|
    ensures Deduped(p.(file := p.file + [row], writtenAs := p.writtenAs + [p.making.value.1], making := None))
  {
    var q := p.(file := p.file + [row], writtenAs := p.writtenAs + [p.making.value.1], making := None);
    forall i: nat | i < |q.recordedAt| ensures RecordedOk(q, i) { assert RecordedOk(p, i); }
    forall i: nat | i < |q.queue| ensures QueuedOk(q, i) { assert QueuedOk(p, i); }
    forall j: nat | j < |q.file| ensures WrittenOk(q, j) { assert j < |p.file| ==> WrittenOk(p, j); }
  }

  lemma DropKeeps(p: Past)
    requires Deduped(p)
    ensures Deduped(p.(making := None))
  {
    var q := p.(making := None);
    forall i: nat | i < |q.recordedAt| ensures RecordedOk(q, i) { assert RecordedOk(p, i); }
    forall i: nat | i < |q.queue| ensures QueuedOk(q, i) { assert QueuedOk(p, i); }
    forall j: nat | j < |q.file| ensures WrittenOk(q, j) { assert WrittenOk(p, j); }
  }

  lemma RecordKeeps(p: Past)
    requires Deduped(p) && |p.recordedAt| + 1 == |p.file| && p.making.None?
    ensures var key := p.file[|p.file| - 1].input.dedupe;
      Deduped(p.(recordedAt := p.recordedAt + [p.asked], seen := p.seen + if key.Some? then {key.value} else {}))
  {
    var key := p.file[|p.file| - 1].input.dedupe;
    var q := p.(recordedAt := p.recordedAt + [p.asked], seen := p.seen + if key.Some? then {key.value} else {});
    forall i: nat | i < |q.recordedAt| ensures RecordedOk(q, i) { assert i < |p.recordedAt| ==> RecordedOk(p, i); }
    forall i: nat | i < |q.queue| ensures QueuedOk(q, i) { assert QueuedOk(p, i); }
    forall j: nat | j < |q.file| ensures WrittenOk(q, j) { assert WrittenOk(p, j); }
  }

  datatype Answer = Skipped | Full_ | Queued

  datatype State = Idle | Writing | Failed | Backpressured

  predicate SameKey(a: Row, b: Row) { a.input.dedupe.Some? && a.input.dedupe == b.input.dedupe }

  class UsageLedgerStore {
    const scan: Input -> seq<string>       // `scanSerializedRow`
    var queue: seq<Candidate>
    var progress: Progress
    var pendingCount: nat
    var droppedRows: nat
    var seqNo: nat
    var lastRowDigest: Option<Digest>
    var rowCount: nat
    var state: State
    var seenDedupeKeys: set<string>
    var file: seq<Row>                     // the ledger file
    var manifest: Option<Manifest>         // the manifest file
    // history: how many appends were asked for, which of them each queued row and
    // each written row was, and how many had been asked for when a row was recorded
    ghost var asked: nat
    ghost var queuedAs: seq<nat>
    ghost var current: nat
    ghost var writtenAs: seq<nat>
    ghost var recordedAt: seq<nat>

    ghost predicate Counters()
      reads this
    {
      && seqNo == rowCount == |recordedAt| && rowCount <= |file| && lastRowDigest == LastDigest(file[..rowCount])
      && |writtenAs| == |file| && |queuedAs| == |queue|
      && rowCount + (if progress.Appended? then 1 else 0) == |file|
      && pendingCount == |queue| + (if progress.Resting? then 0 else 1)
      && pendingCount <= MAX_QUEUE
    }

    /** The row in the making continues the chain. */
    ghost predicate RowFits()
      reads this
    {
      && Chained(file) && rowCount <= |file|
      && (progress.Appending? || progress.Appended? ==>
          progress.row.digest == Sha256(progress.row.input)
          && progress.row.input.seqNo == rowCount + 1
          && progress.row.input.previous == LastDigest(file[..rowCount]))
      && (progress.Appended? ==> rowCount < |file| && file[rowCount] == progress.row)
      && (progress.Describing? ==> Describes(progress.manifest, file))
      && (manifest.Some? ==> Describes(manifest.value, file))
    }

    ghost function History(): Past
      reads this
    {
      Past(file, queue, queuedAs, if progress.Appending? then Some((progress.row.input.dedupe, current)) else None,
        writtenAs, recordedAt, seenDedupeKeys, asked)
    }

    ghost predicate Valid()
      reads this
    {
      Counters() && RowFits() && Deduped(History())
    }

    constructor (scan: Input -> seq<string>)
      ensures Valid() && file == [] && manifest == None && this.scan == scan
    {
      this.scan := scan;
      queue, progress, pendingCount, droppedRows, seqNo, lastRowDigest, rowCount := [], Resting, 0, 0, 0, None, 0;
      state, seenDedupeKeys, file, manifest := Idle, {}, [], None;
      asked, queuedAs, current, writtenAs, recordedAt := 0, [], 0, [], [];
    }

    /** `append`: skipped when the key has been seen, dropped when the queue is full. */
    method Append(row: Candidate) returns (answer: Answer)
      requires Valid()
      modifies this
      ensures Valid() && file == old(file) && manifest == old(manifest) && progress == old(progress)
      ensures answer == if row.dedupe.Some? && row.dedupe.value in seenDedupeKeys then Skipped
        else if old(pendingCount) >= MAX_QUEUE then Full_ else Queued
      ensures queue == if answer == Queued then old(queue) + [row] else old(queue)
      ensures droppedRows == old(droppedRows) + if answer == Full_ then 1 else 0
      ensures seenDedupeKeys == old(seenDedupeKeys)
    {
      if row.dedupe.Some? && row.dedupe.value in seenDedupeKeys { return Skipped; }
      if pendingCount >= MAX_QUEUE {
        droppedRows := droppedRows + 1;
        state := Backpressured;
        return Full_;
      }
      Enqueue(row);
      answer := Queued;
    }

    /** The row waits behind all others. */
    method Enqueue(row: Candidate)
      requires Valid() && pendingCount < MAX_QUEUE && (row.dedupe.Some? ==> row.dedupe.value !in seenDedupeKeys)
      modifies `pendingCount, `queue, `queuedAs, `asked
      ensures Valid() && queue == old(queue) + [row]
    {
      ghost var p := History();
      QueueKeeps(p, row);
      pendingCount, queue, queuedAs, asked := pendingCount + 1, queue + [row], queuedAs + [asked], asked + 1;
      assert History() == p.(queue := p.queue + [row], queuedAs := p.queuedAs + [p.asked], asked := p.asked + 1);
    }

    /** `writeRow` up to the file append. */
    method StartWrite()
      requires Valid() && progress.Resting? && queue != []
      modifies this
      ensures Valid() && progress.Appending? && file == old(file) && manifest == old(manifest)
      ensures queue == old(queue)[1..] && seenDedupeKeys == old(seenDedupeKeys)
      ensures var c := old(queue)[0]; var whole := Input(|file| + 1, LastDigest(file), Full(c.text), c.dedupe);
        progress.row.input == if scan(whole) == [] then whole
          else Input(|file| + 1, LastDigest(file), Stub(c.kept, scan(whole)), None)
    {
      state := Writing;
      var candidate := queue[0];
      assert file[..rowCount] == file;
      ghost var before := History();
      current := queuedAs[0];
      queue, queuedAs := queue[1..], queuedAs[1..];
      var input := Input(seqNo + 1, lastRowDigest, Full(candidate.text), candidate.dedupe);
      var blockers := scan(input);
      if blockers != [] {
        input := Input(seqNo + 1, lastRowDigest, Stub(candidate.kept, blockers), None);
      }
      progress := Appending(Row(input, Sha256(input)));
      StartKeeps(before, input.dedupe);
      assert History() == before.(queue := before.queue[1..], queuedAs := before.queuedAs[1..],
        making := Some((input.dedupe, before.queuedAs[0])));
    }

    /** The file append succeeds and the row is in the file, or it fails and leaves
        the file as it was; a failure ends this write. */
    method AppendFile(ok: bool)
      requires Valid() && progress.Appending?
      modifies this
      ensures Valid() && manifest == old(manifest) && queue == old(queue) && seenDedupeKeys == old(seenDedupeKeys)
      ensures file == if ok then old(file) + [old(progress).row] else old(file)
      ensures if ok then progress == Appended(old(progress).row) else progress == Resting && pendingCount == old(pendingCount) - 1
    {
      assert file[..rowCount] == file;
      if ok {
        Grow(progress.row);
      } else {
        DropKeeps(History());
        state := Failed;
        Rest();
      }
    }

    /** The appended row becomes the last one of the file. */
    method Grow(row: Row)
      requires Valid() && progress == Appending(row) && file[..rowCount] == file
      modifies this`file, this`writtenAs, this`progress
      ensures Valid() && file == old(file) + [row] && progress == Appended(row)
    {
      ghost var before := file;
      GrowKeeps(History(), row);
      file, writtenAs := file + [row], writtenAs + [current];
      progress := Appended(row);
      assert file[..rowCount] == before && file[..|file| - 1] == before;
      assert forall m: Manifest :: Describes(m, before) ==> Describes(m, file) by {
        forall m: Manifest | Describes(m, before) ensures Describes(m, file) {
          assert file[..m.rowCount] == before[..m.rowCount];
        }
      }
    }

    /** `finally`. */
    method Rest()
      requires !progress.Resting?
      requires pendingCount > 0
      modifies this`progress, this`pendingCount, this`state
      ensures progress == Resting && pendingCount == old(pendingCount) - 1
    {
      progress := Resting;
      pendingCount := pendingCount - 1;
      if state == Writing && pendingCount == 0 { state := Idle; }
    }

    /** The counters follow, the key is recorded, and the manifest is put together. */
    method Record()
      requires Valid() && progress.Appended?
      modifies this
      ensures Valid() && file == old(file) && manifest == old(manifest) && queue == old(queue)
      ensures rowCount == |file| && progress == Describing(Manifest(|file|, LastDigest(file)))
      ensures seenDedupeKeys == old(seenDedupeKeys)
        + if old(progress).row.input.dedupe.Some? then {old(progress).row.input.dedupe.value} else {}
    {
      var row := progress.row;
      var key := row.input.dedupe;
      assert file[..rowCount + 1] == file && file[|file| - 1] == row;
      ghost var p := History();
      RecordKeeps(p);
      var keys := if key.Some? then {key.value} else {};
      seqNo, rowCount, lastRowDigest := row.input.seqNo, rowCount + 1, Some(row.digest);
      seenDedupeKeys, recordedAt := seenDedupeKeys + keys, recordedAt + [asked];
      progress := Describing(Manifest(rowCount, lastRowDigest));
      assert Counters() && RowFits();
      assert History() == p.(recordedAt := p.recordedAt + [p.asked], seen := p.seen + keys);
    }

    /** The manifest is replaced, or that fails; either way the row stays. */
    method WriteManifest(ok: bool)
      requires Valid() && progress.Describing?
      modifies this
      ensures Valid() && file == old(file) && queue == old(queue) && progress == Resting && seenDedupeKeys == old(seenDedupeKeys)
      ensures manifest == if ok then Some(old(progress).manifest) else old(manifest)
    {
      if ok { manifest := Some(progress.manifest); } else { state := Failed; }
      Rest();
    }

    /** `close`: after the queue has run dry. */
    method Close()
      requires Valid() && progress.Resting?
      modifies this`manifest
      ensures Valid() && manifest == Some(Manifest(|file|, LastDigest(file)))
    {
      assert file[..rowCount] == file;
      manifest := Some(Manifest(rowCount, lastRowDigest));
    }

    /** What holds in every state any sequence of these steps leads to: the file is
        a chain numbered 1 to n, the manifest describes a prefix, at most 1000 rows
        wait, and a key occurs twice only if the later row was asked for before
        the earlier one was recorded. */
    lemma WhatHolds()
      requires Valid()
      ensures Chained(file) && pendingCount <= MAX_QUEUE && (manifest.Some? ==> Describes(manifest.value, file))
      ensures forall j :: 0 <= j < |file| ==>
        file[j].input.seqNo == j + 1 && (j > 0 ==> file[j].input.previous == Some(file[j - 1].digest))
      ensures forall i, j :: 0 <= i < j < |recordedAt| && SameKey(file[i], file[j]) ==> writtenAs[j] < recordedAt[i]
    {
      forall j | 0 <= j < |file|
        ensures file[j].input.seqNo == j + 1 && (j > 0 ==> file[j].input.previous == Some(file[j - 1].digest))
      {
        ChainedAt(file, j);
      }
      forall i, j | 0 <= i < j < |recordedAt| && SameKey(file[i], file[j]) ensures writtenAs[j] < recordedAt[i] {
        assert WrittenOk(History(), j);
      }
    }
  }
}
