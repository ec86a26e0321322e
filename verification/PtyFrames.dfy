/** The frames a PTY helper takes from its standard input: one type byte, a
    four-byte big-endian length, the payload. */
module PtyFrames {
  import opened Framing

  const MAX_PAYLOAD := 0x10_0000    // 1 << 20

  const TYPED: Byte := 100          // 'd'
  const RESIZE: Byte := 114         // 'r'
  const KILL: Byte := 107           // 'k'

  datatype Frame = Frame(kind: Byte, payload: seq<Byte>)

  /** What a frame makes the helper do. */
  datatype Action =
    | Write(bytes: seq<Byte>)
    | SetSize(rows: nat, cols: nat)
    | Signal(name: seq<Byte>)
    | Nothing

  function Clamp(n: nat): (r: nat)
    ensures 1 <= r <= 1000
  {
    if n < 1 then 1 else if n > 1000 then 1000 else n
  }

  function ActionOf(f: Frame): Action {
    if f.kind == TYPED then Write(f.payload)
    else if f.kind == RESIZE && |f.payload| == 4 then
      SetSize(Clamp(Big2(f.payload[0], f.payload[1])), Clamp(Big2(f.payload[2], f.payload[3])))
    else if f.kind == KILL then Signal(f.payload)
    else Nothing
  }

  function Actions(fs: seq<Frame>): seq<Action> {
    if fs == [] then [] else [ActionOf(fs[0])] + Actions(fs[1..])
  }

  // ---------- encoding ----------

  function Length(b: seq<Byte>): nat
    requires |b| >= 5
  {
    Big4(b[1], b[2], b[3], b[4])
  }

  /** Big-endian numbers. */
  function Big2(a: nat, b: nat): nat { a * 0x100 + b }

  function Big4(a: nat, b: nat, c: nat, d: nat): nat { ((a * 0x100 + b) * 0x100 + c) * 0x100 + d }

  /** A frame's header: its type and its length, the high byte first. */
  function Head(f: Frame): (h: seq<Byte>)
    requires |f.payload| < 0x1_0000_0000
    ensures |h| == 5 && h[0] == f.kind && Length(h) == |f.payload|
  {
    var n := |f.payload|;
    var high := n / 0x100;
    var higher := high / 0x100;
    [f.kind, higher / 0x100, higher % 0x100, high % 0x100, n % 0x100]
  }

  function Encode(f: Frame): seq<Byte>
    requires |f.payload| < 0x1_0000_0000
  {
    Head(f) + f.payload
  }

  function EncodeAll(fs: seq<Frame>): seq<Byte>
    requires forall i :: 0 <= i < |fs| ==> |fs[i].payload| < 0x1_0000_0000
  {
    if fs == [] then [] else Encode(fs[0]) + EncodeAll(fs[1..])
  }

  // ---------- decoding ----------

  /** The frames read, the bytes left over, and whether an oversized header ended it all. */
  datatype Input = Input(frames: seq<Frame>, pending: seq<Byte>, rejected: bool)

  /** The decoding loop as a function of the bytes that wait. */
  function Decode(b: seq<Byte>): (r: Input)
    ensures !r.rejected ==> |r.pending| < 5 + MAX_PAYLOAD
    ensures r.rejected ==> r.pending == []
    decreases |b|
  {
    if |b| < 5 then Input([], b, false)
    else if Length(b) > MAX_PAYLOAD then Input([], [], true)
    else if |b| < 5 + Length(b) then Input([], b, false)
    else Before(Frame(b[0], b[5..5 + Length(b)]), Decode(b[5 + Length(b)..]))
  }

  function Before(f: Frame, rest: Input): Input { rest.(frames := [f] + rest.frames) }

  function After(fs: seq<Frame>, rest: Input): Input { rest.(frames := fs + rest.frames) }

  /** One more chunk arrives. */
  function Arrive(s: Input, chunk: seq<Byte>): Input {
    if s.rejected then s else After(s.frames, Decode(s.pending + chunk))
  }

  function ArriveAll(s: Input, chunks: seq<seq<Byte>>): Input
    decreases |chunks|
  {
    if chunks == [] then s else ArriveAll(Arrive(s, chunks[0]), chunks[1..])
  }

  // ---------- chunking does not matter ----------

  lemma HeadSame(a: seq<Byte>, b: seq<Byte>)
    requires |a| >= 5
    ensures (a + b)[0] == a[0] && Length(a + b) == Length(a)
    ensures |a| >= 5 + Length(a) ==>
      (a + b)[5..5 + Length(a)] == a[5..5 + Length(a)] && (a + b)[5 + Length(a)..] == a[5 + Length(a)..] + b
  {
  }

  /** Decoding some bytes and then the rest is decoding all of them. */
  lemma {:induction false} DecodeMore(a: seq<Byte>, b: seq<Byte>)
    ensures Decode(a + b)
      == if Decode(a).rejected then Decode(a) else After(Decode(a).frames, Decode(Decode(a).pending + b))
    decreases |a|
  {
    if |a| >= 5 && Length(a) <= MAX_PAYLOAD && |a| >= 5 + Length(a) {
      HeadSame(a, b);
      var f, rest := Frame(a[0], a[5..5 + Length(a)]), a[5 + Length(a)..];
      DecodeMore(rest, b);
      var more := Decode(Decode(rest).pending + b);
      assert [f] + (Decode(rest).frames + more.frames) == ([f] + Decode(rest).frames) + more.frames;
    } else {
      if |a| >= 5 { HeadSame(a, b); }
      assert [] + Decode(a + b).frames == Decode(a + b).frames;
    }
  }

  lemma AfterTwice(a: seq<Frame>, b: seq<Frame>, rest: Input)
    ensures After(a, After(b, rest)) == After(a + b, rest)
  {
    assert a + (b + rest.frames) == a + b + rest.frames;
  }

  lemma DecodeTwice(p: seq<Byte>, a: seq<Byte>, b: seq<Byte>)
    ensures Decode(p + (a + b)) == if Decode(p + a).rejected then Decode(p + a)
      else After(Decode(p + a).frames, Decode(Decode(p + a).pending + b))
  {
    DecodeMore(p + a, b);
    assert (p + a) + b == p + (a + b);
  }

  lemma ArriveTwice(s: Input, a: seq<Byte>, b: seq<Byte>)
    ensures Arrive(Arrive(s, a), b) == Arrive(s, a + b)
  {
    if !s.rejected {
      DecodeTwice(s.pending, a, b);
      var first := Decode(s.pending + a);
      AfterTwice(s.frames, first.frames, Decode(first.pending + b));
    }
  }

  lemma {:induction false} PendingWaits(b: seq<Byte>)
    ensures !Decode(b).rejected ==> Decode(Decode(b).pending) == Input([], Decode(b).pending, false)
    decreases |b|
  {
    if |b| >= 5 && Length(b) <= MAX_PAYLOAD && |b| >= 5 + Length(b) { PendingWaits(b[5 + Length(b)..]); }
  }

  /** For every split of the bytes into chunks the same frames come out, an
      oversized header stops the reading at the same frame, and what is left over
      is shorter than one maximal frame. */
  lemma {:induction false} AnyChunks(s: Input, chunks: seq<seq<Byte>>)
    requires s.rejected || Decode(s.pending) == Input([], s.pending, false)
    ensures ArriveAll(s, chunks) == Arrive(s, Concat(chunks))
    ensures !ArriveAll(s, chunks).rejected ==> |ArriveAll(s, chunks).pending| < 5 + MAX_PAYLOAD
    decreases |chunks|
  {
    if chunks == [] {
      assert s.pending + [] == s.pending && s.frames + [] == s.frames;
    } else {
      var t := Arrive(s, chunks[0]);
      if !s.rejected { PendingWaits(s.pending + chunks[0]); }
      AnyChunks(t, chunks[1..]);
      ArriveTwice(s, chunks[0], Concat(chunks[1..]));
    }
  }

  // ---------- the round trip ----------

  lemma DecodeOne(head: seq<Byte>, f: Frame, rest: seq<Byte>)
    requires |head| == 5 && head[0] == f.kind && Length(head) == |f.payload| <= MAX_PAYLOAD
    ensures Decode((head + f.payload) + rest) == Before(f, Decode(rest))
  {
    var b := (head + f.payload) + rest;
    assert b == head + (f.payload + rest);
    HeadSame(head, f.payload + rest);
    assert b[5..5 + |f.payload|] == f.payload && b[5 + |f.payload|..] == rest;
  }

  lemma {:induction false} DecodeEncoded(fs: seq<Frame>)
    requires forall i :: 0 <= i < |fs| ==> |fs[i].payload| <= MAX_PAYLOAD
    ensures Decode(EncodeAll(fs)) == Input(fs, [], false)
  {
    if fs != [] {
      DecodeOne(Head(fs[0]), fs[0], EncodeAll(fs[1..]));
      DecodeEncoded(fs[1..]);
      assert fs == [fs[0]] + fs[1..];
    }
  }

  /** Frames with payloads up to the limit come out as they went in, however the
      bytes were cut. */
  lemma RoundTrip(fs: seq<Frame>, chunks: seq<seq<Byte>>)
    requires forall i :: 0 <= i < |fs| ==> |fs[i].payload| <= MAX_PAYLOAD
    requires Concat(chunks) == EncodeAll(fs)
    ensures ArriveAll(Input([], [], false), chunks) == Input(fs, [], false)
  {
    AnyChunks(Input([], [], false), chunks);
    DecodeEncoded(fs);
    assert [] + EncodeAll(fs) == EncodeAll(fs) && [] + fs == fs;
  }

  /** A frame whose header states too much ends the reading after the frames
      before it, whatever follows. */
  lemma {:induction false} OversizeStops(fs: seq<Frame>, tail: seq<Byte>)
    requires forall i :: 0 <= i < |fs| ==> |fs[i].payload| <= MAX_PAYLOAD
    requires |tail| >= 5 && Length(tail) > MAX_PAYLOAD
    ensures Decode(EncodeAll(fs) + tail) == Input(fs, [], true)
  {
    DecodeEncoded(fs);
    DecodeMore(EncodeAll(fs), tail);
    assert [] + tail == tail && fs + [] == fs;
  }

  // ---------- the helper ----------

  class Helper {
    var pending: seq<Byte>
    var rejected: bool            // killed with exit code 125
    var done: seq<Action>
    ghost var frames: seq<Frame>

    ghost predicate Valid()
      reads this
    {
      done == Actions(frames) && (!rejected ==> Decode(pending) == Input([], pending, false))
    }

    ghost function View(): Input
      reads this
    {
      Input(frames, if rejected then [] else pending, rejected)
    }

    constructor ()
      ensures Valid() && View() == Input([], [], false)
    {
      pending, rejected, done, frames := [], false, [], [];
    }

    static lemma OneMore(fs: seq<Frame>, f: Frame)
      ensures Actions(fs + [f]) == Actions(fs) + [ActionOf(f)]
    {
      if fs == [] {
        assert [] + [f] == [f];
      } else {
        assert (fs + [f])[1..] == fs[1..] + [f];
        OneMore(fs[1..], f);
      }
    }

    /** A chunk has been read from standard input: the inner loop of `main`. */
    method TakeChunk(chunk: seq<Byte>)
      requires Valid() && !rejected
      modifies this
      ensures Valid() && View() == Arrive(old(View()), chunk)
    {
      pending := pending + chunk;
      while |pending| >= 5
        invariant !rejected && done == Actions(frames)
        invariant After(frames, Decode(pending)) == Arrive(old(View()), chunk)
        decreases |pending|
      {
        var length := Length(pending);
        if length > MAX_PAYLOAD {
          rejected := true;
          assert frames + [] == frames;
          return;
        }
        if |pending| < 5 + length { break; }
        TakeFrame(length);
      }
      assert frames + [] == frames;
    }

    /** One whole frame is taken off and acted on. */
    method TakeFrame(length: nat)
      requires |pending| >= 5 + length && length == Length(pending) <= MAX_PAYLOAD && done == Actions(frames)
      modifies this`pending, this`done, this`frames
      ensures |pending| < |old(pending)| && done == Actions(frames)
      ensures After(frames, Decode(pending)) == old(After(frames, Decode(pending)))
    {
      var kind, payload := pending[0], pending[5..5 + length];
      ghost var f := Frame(kind, payload);
      AfterTwice(frames, [f], Decode(pending[5 + length..]));
      OneMore(frames, f);
      pending := pending[5 + length..];
      if kind == TYPED {
        done := done + [Write(payload)];
      } else if kind == RESIZE && length == 4 {
        done := done + [SetSize(Clamp(Big2(payload[0], payload[1])), Clamp(Big2(payload[2], payload[3])))];
      } else if kind == KILL {
        done := done + [Signal(payload)];
      } else {
        done := done + [Nothing];
      }
      frames := frames + [f];
    }
  }
}
