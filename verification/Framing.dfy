/** NDJSON framing: bytes in chunks of any size, lines out, with a bound on the buffer. */
module Framing {

  type Byte = b: int | 0 <= b < 256

  const NEWLINE: Byte := 10

  // ---------- the meaning, byte by byte ----------

  /** Complete lines so far, the line being read, and whether a line was too long.
      After an overflow nothing is read any more. */
  datatype Stream = Stream(lines: seq<seq<Byte>>, part: seq<Byte>, over: bool)

  function OneByte(s: Stream, b: Byte, limit: nat): Stream {
    if s.over then s
    else if b == NEWLINE then Stream(s.lines + [s.part], [], false)
    else if |s.part| + 1 > limit then Stream(s.lines, [], true)
    else s.(part := s.part + [b])
  }

  function Feed(s: Stream, bytes: seq<Byte>, limit: nat): Stream
    decreases |bytes|
  {
    if bytes == [] then s else Feed(OneByte(s, bytes[0], limit), bytes[1..], limit)
  }

  /** Chunks do not matter: only their concatenation does. */
  lemma {:induction false} FeedAppend(s: Stream, a: seq<Byte>, b: seq<Byte>, limit: nat)
    ensures Feed(s, a + b, limit) == Feed(Feed(s, a, limit), b, limit)
    decreases |a|
  {
    if a == [] {
      assert a + b == b;
    } else {
      assert (a + b)[0] == a[0] && (a + b)[1..] == a[1..] + b;
      FeedAppend(OneByte(s, a[0], limit), a[1..], b, limit);
    }
  }

  function Concat(chunks: seq<seq<Byte>>): seq<Byte> {
    if chunks == [] then [] else chunks[0] + Concat(chunks[1..])
  }

  function FeedChunks(s: Stream, chunks: seq<seq<Byte>>, limit: nat): Stream
    decreases |chunks|
  {
    if chunks == [] then s else FeedChunks(Feed(s, chunks[0], limit), chunks[1..], limit)
  }

  lemma {:induction false} AnyChunking(s: Stream, chunks: seq<seq<Byte>>, limit: nat)
    ensures FeedChunks(s, chunks, limit) == Feed(s, Concat(chunks), limit)
    decreases |chunks|
  {
    if chunks != [] {
      FeedAppend(s, chunks[0], Concat(chunks[1..]), limit);
      AnyChunking(Feed(s, chunks[0], limit), chunks[1..], limit);
    }
  }

  // ---------- the newline split ----------

  /** The pieces between newlines; the last one is the unfinished line. */
  function Pieces(bytes: seq<Byte>): (r: seq<seq<Byte>>)
    ensures r != []
  {
    if bytes == [] then [[]]
    else if bytes[0] == NEWLINE then [[]] + Pieces(bytes[1..])
    else
      var rest := Pieces(bytes[1..]);
      [[bytes[0]] + rest[0]] + rest[1..]
  }

  /** The pieces before the first one that is too long. */
  function Short(pieces: seq<seq<Byte>>, limit: nat): seq<seq<Byte>> {
    if pieces == [] || |pieces[0]| > limit then [] else [pieces[0]] + Short(pieces[1..], limit)
  }

  /** What reading should come to: all lines and the unfinished one, or the lines
      before the first over-long one. */
  function Read(pieces: seq<seq<Byte>>, limit: nat): Stream
    requires pieces != []
  {
    if |Short(pieces, limit)| == |pieces|
    then Stream(pieces[..|pieces| - 1], pieces[|pieces| - 1], false)
    else Stream(Short(pieces, limit), [], true)
  }

  /** The pieces when the first goes on from `part`. */
  function Continue(part: seq<Byte>, pieces: seq<seq<Byte>>): (r: seq<seq<Byte>>)
    requires pieces != []
    ensures r != []
  {
    [part + pieces[0]] + pieces[1..]
  }

  lemma ContinueNothing(pieces: seq<seq<Byte>>)
    requires pieces != []
    ensures Continue([], pieces) == pieces
  {
    assert [] + pieces[0] == pieces[0];
    assert pieces == [pieces[0]] + pieces[1..];
  }

  function Prepend(lines: seq<seq<Byte>>, s: Stream): Stream { s.(lines := lines + s.lines) }

  /** Everything, seen from the middle of a line that starts with `part`. */
  lemma {:induction false} FeedIsRead(lines: seq<seq<Byte>>, part: seq<Byte>, bytes: seq<Byte>, limit: nat)
    requires |part| <= limit
    ensures Feed(Stream(lines, part, false), bytes, limit) == Prepend(lines, Read(Continue(part, Pieces(bytes)), limit))
    decreases |bytes|
  {
    if bytes == [] {
      NothingLeft(lines, part, limit);
    } else if bytes[0] == NEWLINE {
      FeedIsRead(lines + [part], [], bytes[1..], limit);
      LineDone(lines, part, Pieces(bytes[1..]), limit);
    } else if |part| == limit {
      FeedStopped(Stream(lines, [], true), bytes[1..], limit);
    } else {
      FeedIsRead(lines, part + [bytes[0]], bytes[1..], limit);
      OneByteOn(part, bytes);
    }
  }

  lemma OneByteOn(part: seq<Byte>, bytes: seq<Byte>)
    requires bytes != [] && bytes[0] != NEWLINE
    ensures Continue(part + [bytes[0]], Pieces(bytes[1..])) == Continue(part, Pieces(bytes))
  {
    var rest := Pieces(bytes[1..]);
    assert (part + [bytes[0]]) + rest[0] == part + ([bytes[0]] + rest[0]);
    assert Pieces(bytes)[1..] == rest[1..];
  }

  lemma NothingLeft(lines: seq<seq<Byte>>, part: seq<Byte>, limit: nat)
    requires |part| <= limit
    ensures Prepend(lines, Read(Continue(part, [[]]), limit)) == Stream(lines, part, false)
  {
    assert part + [] == part;
    assert Continue(part, [[]]) == [part];
    assert Short([part], limit) == [part] + Short([], limit);
    assert lines + [] == lines;
  }

  lemma LineDone(lines: seq<seq<Byte>>, part: seq<Byte>, pieces: seq<seq<Byte>>, limit: nat)
    requires |part| <= limit && pieces != []
    ensures Prepend(lines + [part], Read(Continue([], pieces), limit)) == Prepend(lines, Read(Continue(part, [[]] + pieces), limit))
  {
    ContinueNothing(pieces);
    var all := [part] + pieces;
    assert part + [] == part && ([[]] + pieces)[1..] == pieces;
    assert Continue(part, [[]] + pieces) == all;
    assert all[1..] == pieces && all[0] == part;
    assert all[..|all| - 1] == [part] + pieces[..|pieces| - 1];
    assert lines + [part] + Read(pieces, limit).lines == lines + ([part] + Read(pieces, limit).lines);
  }

  lemma {:induction false} FeedStopped(s: Stream, bytes: seq<Byte>, limit: nat)
    requires s.over
    ensures Feed(s, bytes, limit) == s
    decreases |bytes|
  {
    if bytes != [] { FeedStopped(s, bytes[1..], limit); }
  }

  /** The dispatched lines are the newline split of all bytes, up to the first
      over-long line; overflow happens exactly when some line has more bytes than
      the limit; what waits in the buffer never exceeds it. */
  lemma ReadsTheSplit(chunks: seq<seq<Byte>>, limit: nat)
    ensures FeedChunks(Stream([], [], false), chunks, limit) == Read(Pieces(Concat(chunks)), limit)
    ensures Read(Pieces(Concat(chunks)), limit).over <==> exists piece :: piece in Pieces(Concat(chunks)) && |piece| > limit
    ensures |Read(Pieces(Concat(chunks)), limit).part| <= limit
  {
    var bytes := Concat(chunks);
    var pieces := Pieces(bytes);
    AnyChunking(Stream([], [], false), chunks, limit);
    FeedIsRead([], [], bytes, limit);
    ContinueNothing(pieces);
    assert [] + Read(pieces, limit).lines == Read(pieces, limit).lines;
    ShortMeans(pieces, limit);
  }

  lemma {:induction false} ShortMeans(pieces: seq<seq<Byte>>, limit: nat)
    ensures |Short(pieces, limit)| <= |pieces|
    ensures |Short(pieces, limit)| < |pieces| <==> exists piece :: piece in pieces && |piece| > limit
    ensures |Short(pieces, limit)| == |pieces| ==> Short(pieces, limit) == pieces
  {
    if pieces != [] {
      ShortMeans(pieces[1..], limit);
      assert forall p :: p in pieces <==> p == pieces[0] || p in pieces[1..];
      assert pieces == [pieces[0]] + pieces[1..];
    }
  }

  // ---------- the readers ----------

  /** Where the next newline is, or -1: `indexOf(0x0a, offset)`. */
  method IndexOfNewline(source: seq<Byte>, offset: nat) returns (index: int)
    requires offset <= |source|
    ensures index == -1 ==> NEWLINE !in source[offset..]
    ensures index != -1 ==> offset <= index < |source| && source[index] == NEWLINE && NEWLINE !in source[offset..index]
  {
    for i := offset to |source|
      invariant NEWLINE !in source[offset..i]
    {
      if source[i] == NEWLINE { return i; }
      assert source[offset..i + 1] == source[offset..i] + [source[i]];
    }
    assert source[offset..|source|] == source[offset..];
    index := -1;
  }

  /** A piece without newline is added to the line, or is too much. */
  lemma {:induction false} FeedPiece(s: Stream, piece: seq<Byte>, limit: nat)
    requires !s.over && NEWLINE !in piece && |s.part| <= limit
    ensures Feed(s, piece, limit)
      == if |s.part| + |piece| > limit then Stream(s.lines, [], true) else s.(part := s.part + piece)
    decreases |piece|
  {
    if piece == [] {
      assert s.part + [] == s.part;
    } else {
      var t := OneByte(s, piece[0], limit);
      if t.over {
        FeedStopped(t, piece[1..], limit);
      } else {
        FeedPiece(t, piece[1..], limit);
        assert (s.part + [piece[0]]) + piece[1..] == s.part + piece;
      }
    }
  }

  lemma FeedLine(s: Stream, piece: seq<Byte>, rest: seq<Byte>, limit: nat)
    requires !s.over && NEWLINE !in piece && |s.part| + |piece| <= limit
    ensures Feed(s, piece + [NEWLINE] + rest, limit) == Feed(Stream(s.lines + [s.part + piece], [], false), rest, limit)
  {
    FeedAppend(s, piece + [NEWLINE], rest, limit);
    FeedAppend(s, piece, [NEWLINE], limit);
    FeedPiece(s, piece, limit);
    assert [NEWLINE][1..] == [];
  }

  lemma FeedOver(s: Stream, piece: seq<Byte>, rest: seq<Byte>, limit: nat)
    requires !s.over && NEWLINE !in piece && |s.part| <= limit && |s.part| + |piece| > limit
    ensures Feed(s, piece + rest, limit) == Stream(s.lines, [], true)
  {
    FeedAppend(s, piece, rest, limit);
    FeedPiece(s, piece, limit);
    FeedStopped(Stream(s.lines, [], true), rest, limit);
  }

  /** The input side of the agent, and of the host as long as it is open. */
  class LineReader {
    const limit: nat
    var buffer: seq<Byte>
    var overflowed: bool
    var ended: bool              // standard input has ended
    var lines: seq<seq<Byte>>     // complete lines, handed on if they are not blank

    ghost predicate Valid()
      reads this
    {
      |buffer| <= limit
    }

    ghost function View(): Stream
      reads this
    {
      Stream(lines, if overflowed then [] else buffer, overflowed)
    }

    constructor (limit: nat)
      ensures Valid() && View() == Stream([], [], false) && this.limit == limit && !ended
    {
      this.limit, buffer, overflowed, lines, ended := limit, [], false, [], false;
    }

    /** `consumeInput`: nothing is read any more once the input has ended. */
    method ConsumeInput(source: seq<Byte>)
      requires Valid()
      modifies this`buffer, this`overflowed, this`lines
      ensures Valid() && View() == if ended then old(View()) else Feed(old(View()), source, limit)
    {
      if ended { return; }
      if overflowed {
        FeedStopped(View(), source, limit);
        return;
      }
      ReadChunk(source);
    }

    /** The loop over one chunk, the same on both sides; the host runs it even
        after it has closed, when nobody listens any more. */
    method ReadChunk(source: seq<Byte>)
      requires Valid() && !overflowed
      modifies this`buffer, this`overflowed, this`lines
      ensures Valid() && View() == Feed(old(View()), source, limit)
    {
      var offset := 0;
      assert source[0..] == source;
      while offset < |source|
        invariant offset <= |source| && Valid() && !overflowed
        invariant Feed(View(), source[offset..], limit) == Feed(old(View()), source, limit)
      {
        var newlineIndex := IndexOfNewline(source, offset);
        var segmentEnd := if newlineIndex >= 0 then newlineIndex else |source|;
        CutAt(source, offset, segmentEnd);
        var done := TakeSegment(source[offset..segmentEnd], source[segmentEnd..]);
        if done { return; }
        offset := newlineIndex + 1;
      }
      assert source[offset..] == [];
    }

    static lemma CutAt(source: seq<Byte>, offset: nat, end: nat)
      requires offset <= end <= |source|
      ensures source[offset..] == source[offset..end] + source[end..]
      ensures end < |source| ==> source[end..][1..] == source[end + 1..]
      ensures end == |source| ==> source[end..] == []
    {
    }

    /** One segment: up to a newline, which then heads `rest`, or to the end of the chunk. */
    method TakeSegment(piece: seq<Byte>, rest: seq<Byte>) returns (done: bool)
      requires Valid() && !overflowed && NEWLINE !in piece && (rest == [] || rest[0] == NEWLINE)
      modifies this`buffer, this`overflowed, this`lines
      ensures Valid() && (done <==> overflowed || rest == [])
      ensures Feed(old(View()), piece + rest, limit) == if done then View() else Feed(View(), rest[1..], limit)
    {
      if |buffer| + |piece| > limit {
        FeedOver(View(), piece, rest, limit);
        overflowed := true;
        return true;
      }
      ghost var before := View();
      buffer := buffer + piece;
      if rest == [] {
        assert piece + rest == piece;
        FeedPiece(before, piece, limit);
        return true;
      }
      assert piece + rest == piece + [NEWLINE] + rest[1..];
      FeedLine(before, piece, rest[1..], limit);
      lines := lines + [buffer];
      buffer := [];
      done := false;
    }

    /** At the end of its input the agent takes an unfinished line for a line, once. */
    method InputEnds()
      requires Valid()
      modifies this`lines, this`ended
      ensures Valid() && ended
      ensures lines == old(lines) + if old(ended) || overflowed || buffer == [] then [] else [buffer]
    {
      if !ended && !overflowed && buffer != [] { lines := lines + [buffer]; }
      ended := true;
    }
  }
}
