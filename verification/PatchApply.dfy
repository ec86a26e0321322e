/** Applying the hunks of a file patch: where a hunk lands and what it does there. */
module PatchApply {
  import opened Wrappers
  import opened Text
  import opened Lines

  datatype Prefix = Context | Removal | Addition

  datatype PatchLine = PatchLine(prefix: Prefix, content: string, noNewline: bool)

  datatype Hunk = Hunk(oldStart: nat, oldCount: nat, newStart: nat, newCount: nat, lines: seq<PatchLine>)

  // ---------- meaning ----------

  /** The lines a hunk expects to find. */
  function Old(ls: seq<PatchLine>): seq<string> {
    if ls == [] then []
    else if ls[0].prefix == Addition then Old(ls[1..])
    else [ls[0].content] + Old(ls[1..])
  }

  /** What a line of a hunk asks of the line at `i`; a missing line fits only
      loosely, as an empty one. */
  predicate Fits(lines: seq<string>, p: PatchLine, i: nat, strict: bool) {
    p.prefix != Addition ==>
      if i < |lines| then Strip(lines[i]) == p.content else !strict && p.content == ""
  }

  predicate FitAll(lines: seq<string>, ls: seq<PatchLine>, i: nat, strict: bool) {
    ls == [] ||
    (Fits(lines, ls[0], i, strict) && FitAll(lines, ls[1..], if ls[0].prefix == Addition then i else i + 1, strict))
  }

  /** The hunk's expected lines stand at `i`. */
  predicate MatchesAt(lines: seq<string>, ls: seq<PatchLine>, i: nat) {
    i <= |lines| && FitAll(lines, ls, i, true)
  }

  /** The same with a missing line read as an empty one. */
  predicate LooselyAt(lines: seq<string>, ls: seq<PatchLine>, i: nat) { FitAll(lines, ls, i, false) }

  function StripAll(lines: seq<string>): seq<string> {
    if lines == [] then [] else [Strip(lines[0])] + StripAll(lines[1..])
  }

  /** A match as a whole: the hunk's lines are the next lines of the file. */
  lemma {:induction false} MatchMeans(lines: seq<string>, ls: seq<PatchLine>, i: nat)
    ensures MatchesAt(lines, ls, i) <==>
      i + |Old(ls)| <= |lines| && StripAll(lines[i..i + |Old(ls)|]) == Old(ls)
  {
    if ls != [] {
      var n := |Old(ls)|;
      if ls[0].prefix == Addition {
        MatchMeans(lines, ls[1..], i);
      } else if i < |lines| {
        MatchMeans(lines, ls[1..], i + 1);
        if i + n <= |lines| {
          var cut := lines[i..i + n];
          assert cut[0] == lines[i] && cut[1..] == lines[i + 1..i + 1 + (n - 1)];
          HeadAndTail(Strip(lines[i]), StripAll(cut[1..]), ls[0].content, Old(ls[1..]));
        }
      }
    }
  }

  lemma HeadAndTail(a: string, x: seq<string>, b: string, y: seq<string>)
    ensures [a] + x == [b] + y <==> a == b && x == y
  {
    if [a] + x == [b] + y {
      assert ([a] + x)[0] == ([b] + y)[0];
      assert x == ([a] + x)[1..] == ([b] + y)[1..] == y;
    }
  }

  /** Where the header says the hunk starts, counted from 0. */
  function Preferred(h: Hunk): nat { if h.oldStart <= 1 then 0 else h.oldStart - 1 }

  function Distance(i: nat, preferred: nat): nat { if i < preferred then preferred - i else i - preferred }

  /** `i` comes before `j` in the search: nearer the stated line, or as near and lower. */
  predicate Before(i: nat, j: nat, preferred: nat) {
    Distance(i, preferred) < Distance(j, preferred)
    || (Distance(i, preferred) == Distance(j, preferred) && i < j)
  }

  /** `i` is the match at or after the cursor that comes first in the search. */
  ghost predicate Lands(lines: seq<string>, h: Hunk, cursor: nat, i: nat) {
    && cursor <= i && MatchesAt(lines, h.lines, i)
    && forall j {:trigger MatchesAt(lines, h.lines, j)} ::
        cursor <= j && MatchesAt(lines, h.lines, j) && j != i ==> Before(i, j, Preferred(h))
  }

  /** The place of a hunk. Without a match it stays at the cursor, which
      succeeds only for blank lines past the end. */
  ghost function Landing(lines: seq<string>, h: Hunk, cursor: nat): (r: Option<nat>)
    ensures r.Some? ==> r.value >= cursor
  {
    if exists i: nat :: Lands(lines, h, cursor, i) then
      var i: nat :| Lands(lines, h, cursor, i);
      Some(i)
    else if LooselyAt(lines, h.lines, cursor) then Some(cursor)
    else None
  }

  lemma LandingUnique(lines: seq<string>, h: Hunk, cursor: nat, i: nat)
    requires Lands(lines, h, cursor, i)
    ensures Landing(lines, h, cursor) == Some(i)
  {
    var k := Landing(lines, h, cursor).value;
    assert Lands(lines, h, cursor, k);
    assert MatchesAt(lines, h.lines, i) && MatchesAt(lines, h.lines, k);
  }

  /** Hunks with their places, in order. */
  datatype Plan = Done | Place(hunk: Hunk, at: nat, rest: Plan)

  /** The places of all hunks, each searched for after the one before. */
  ghost function Landings(lines: seq<string>, hunks: seq<Hunk>, cursor: nat): Option<Plan> {
    if hunks == [] then Some(Done)
    else
      match Landing(lines, hunks[0], cursor)
      case None => None
      case Some(i) =>
        match Landings(lines, hunks[1..], After(hunks[0], i))
        case None => None
        case Some(rest) => Some(Place(hunks[0], i, rest))
  }

  /** The cursor after a hunk. */
  function After(h: Hunk, i: nat): nat { i + |Old(h.lines)| }

  /** The lines from `i` up to `j`, as far as there are any. */
  function Gap(lines: seq<string>, i: nat, j: nat): seq<string>
    requires i <= j
    decreases j - i
  {
    if i == j || i >= |lines| then [] else [lines[i]] + Gap(lines, i + 1, j)
  }

  /** The lines from `i` on. */
  function Tail(lines: seq<string>, i: nat): seq<string>
    decreases |lines| - i
  {
    if i >= |lines| then [] else [lines[i]] + Tail(lines, i + 1)
  }

  function Added(p: PatchLine, eol: string): string { if p.noNewline then p.content else p.content + eol }

  function Piece(lines: seq<string>, p: PatchLine, i: nat, eol: string): seq<string> {
    match p.prefix
    case Context => [if i < |lines| then lines[i] else ""]
    case Removal => []
    case Addition => [Added(p, eol)]
  }

  /** What a hunk leaves in place of the lines at `i`. */
  function New(lines: seq<string>, ls: seq<PatchLine>, i: nat, eol: string): seq<string> {
    if ls == [] then []
    else Piece(lines, ls[0], i, eol) + New(lines, ls[1..], if ls[0].prefix == Addition then i else i + 1, eol)
  }

  /** The whole text after the hunks, from the cursor on. */
  function Splice(lines: seq<string>, plan: Plan, cursor: nat, eol: string): seq<string>
    requires Ordered(plan, cursor)
  {
    match plan
    case Done => Tail(lines, cursor)
    case Place(h, i, rest) => Part(lines, h, cursor, i, eol) + Splice(lines, rest, After(h, i), eol)
  }

  /** The lines up to a hunk and the hunk. */
  function Part(lines: seq<string>, h: Hunk, cursor: nat, i: nat, eol: string): seq<string>
    requires cursor <= i
  {
    Gap(lines, cursor, i) + New(lines, h.lines, i, eol)
  }

  /** No hunk starts before the end of the one before. */
  predicate Ordered(plan: Plan, cursor: nat) {
    plan.Place? ==> cursor <= plan.at && Ordered(plan.rest, After(plan.hunk, plan.at))
  }

  lemma {:induction false} LandingsOrdered(lines: seq<string>, hunks: seq<Hunk>, cursor: nat)
    requires Landings(lines, hunks, cursor).Some?
    ensures Ordered(Landings(lines, hunks, cursor).value, cursor)
  {
    if hunks != [] {
      LandingsOrdered(lines, hunks[1..], After(hunks[0], Landing(lines, hunks[0], cursor).value));
    }
  }

  // ---------- finding the place ----------

  /** `hunkMatchesAt`. */
  method HunkMatchesAt(lines: seq<string>, h: Hunk, start: nat) returns (r: bool)
    ensures r <==> MatchesAt(lines, h.lines, start)
  {
    if start > |lines| { return false; }
    var index := start;
    for i := 0 to |h.lines|
      invariant index >= start
      invariant FitAll(lines, h.lines, start, true) <==> FitAll(lines, h.lines[i..], index, true)
    {
      assert h.lines[i..][1..] == h.lines[i + 1..];
      if h.lines[i].prefix == Addition { continue; }
      if index >= |lines| || Strip(lines[index]) != h.lines[i].content { return false; }
      index := index + 1;
    }
    r := true;
  }

  /** `a` is in the order of the search. */
  ghost predicate InOrder(a: seq<nat>, preferred: nat) {
    forall i, j :: 0 <= i < j < |a| ==> Before(a[i], a[j], preferred)
  }

  /** Insertion into a list in search order; `Sort` is the model of `Array.prototype.sort`. */
  function Insert(a: seq<nat>, x: nat, preferred: nat): (r: seq<nat>)
    requires x !in a
    ensures forall y :: y in r <==> y in a || y == x
    ensures InOrder(a, preferred) ==> InOrder(r, preferred)
  {
    if a == [] then [x]
    else if Before(x, a[0], preferred) then [x] + a
    else
      InsertBehind(a, x, preferred);
      [a[0]] + Insert(a[1..], x, preferred)
  }

  lemma InsertBehind(a: seq<nat>, x: nat, preferred: nat)
    requires a != [] && x !in a && !Before(x, a[0], preferred)
    ensures Before(a[0], x, preferred)
    ensures InOrder(a, preferred) ==> InOrder(a[1..], preferred) && forall y :: y in a[1..] ==> Before(a[0], y, preferred)
  {
  }

  function Sort(a: seq<nat>, preferred: nat): (r: seq<nat>)
    requires forall i, j :: 0 <= i < j < |a| ==> a[i] != a[j]
    ensures forall y :: y in r <==> y in a
    ensures InOrder(r, preferred)
  {
    if a == [] then [] else Insert(Sort(a[1..], preferred), a[0], preferred)
  }

  /** `locateHunkStart`: the stated line if the hunk matches there, otherwise the
      nearest match, otherwise the cursor. */
  method LocateHunkStart(lines: seq<string>, h: Hunk, preferred: nat, cursor: nat) returns (r: nat)
    requires preferred == Preferred(h)
    ensures Lands(lines, h, cursor, r)
      || (r == cursor && forall j :: cursor <= j ==> !MatchesAt(lines, h.lines, j))
  {
    if preferred >= cursor {
      var here := HunkMatchesAt(lines, h, preferred);
      if here { return preferred; }
    }
    var candidates: seq<nat> := [];
    var index := cursor;
    while index <= |lines|
      invariant cursor <= index
      invariant forall c :: c in candidates <==> cursor <= c < index && c <= |lines| && c != preferred
      invariant forall i :: 0 <= i < |candidates| ==> candidates[i] < index
      invariant forall i, j :: 0 <= i < j < |candidates| ==> candidates[i] < candidates[j]
      decreases |lines| + 1 - index
    {
      if index != preferred { candidates := candidates + [index]; }
      index := index + 1;
    }
    var sorted := Sort(candidates, preferred);
    for k := 0 to |sorted|
      invariant forall l :: 0 <= l < k ==> !MatchesAt(lines, h.lines, sorted[l])
    {
      var here := HunkMatchesAt(lines, h, sorted[k]);
      if here {
        assert sorted[k] in candidates;
        forall j | cursor <= j && MatchesAt(lines, h.lines, j) && j != sorted[k]
          ensures Before(sorted[k], j, preferred)
        {
          MatchMeans(lines, h.lines, j);
          assert j in sorted;
        }
        return sorted[k];
      }
    }
    forall j | cursor <= j ensures !MatchesAt(lines, h.lines, j) {
      MatchMeans(lines, h.lines, j);
      assert MatchesAt(lines, h.lines, j) ==> j in sorted;
    }
    r := cursor;
  }

  // ---------- applying ----------

  datatype Patched = Applied(text: string) | Refused

  /** What `applyParsedHunks` means: find every hunk's place, then splice. */
  ghost function Result(text: string, hunks: seq<Hunk>): Patched {
    var lines := SplitLines(text);
    match Landings(lines, hunks, 0)
    case None => Refused
    case Some(plan) =>
      LandingsOrdered(lines, hunks, 0);
      Applied(Join(Splice(lines, plan, 0, Ending(text))))
  }

  function Ending(text: string): string { if HasCrLf(text) then "\r\n" else "\n" }

  method ApplyLine(lines: seq<string>, p: PatchLine, cursor: nat, eol: string)
    returns (ok: bool, piece: seq<string>, next: nat)
    ensures ok <==> Fits(lines, p, cursor, false)
    ensures ok ==> piece == Piece(lines, p, cursor, eol)
    ensures next == if p.prefix == Addition then cursor else cursor + 1
  {
    ok, piece, next := true, [], cursor;
    match p.prefix {
      case Context =>
        var current := if cursor < |lines| then lines[cursor] else "";
        ok := Strip(current) == p.content;
        piece, next := [current], cursor + 1;
      case Removal =>
        var current := if cursor < |lines| then lines[cursor] else "";
        ok := Strip(current) == p.content;
        next := cursor + 1;
      case Addition =>
        piece := [if p.noNewline then p.content else p.content + eol];
    }
  }

  /** One hunk at its place, the cursor of the outer loop moving along. */
  method ApplyHunk(lines: seq<string>, h: Hunk, start: nat, eol: string)
    returns (ok: bool, output: seq<string>, cursor: nat)
    ensures ok <==> LooselyAt(lines, h.lines, start)
    ensures ok ==> output == New(lines, h.lines, start, eol) && cursor == After(h, start)
  {
    output, cursor := [], start;
    for i := 0 to |h.lines|
      invariant cursor + |Old(h.lines[i..])| == start + |Old(h.lines)|
      invariant output + New(lines, h.lines[i..], cursor, eol) == New(lines, h.lines, start, eol)
      invariant FitAll(lines, h.lines, start, false) <==> FitAll(lines, h.lines[i..], cursor, false)
    {
      LineStep(lines, h.lines, i, cursor, eol, output);
      var fits, piece, next := ApplyLine(lines, h.lines[i], cursor, eol);
      if !fits { return false, output, cursor; }
      output, cursor := output + piece, next;
    }
    ok := true;
  }

  lemma LineStep(lines: seq<string>, ls: seq<PatchLine>, i: nat, cursor: nat, eol: string, output: seq<string>)
    requires i < |ls|
    ensures var p, rest := ls[i], ls[i + 1..];
      var next := if p.prefix == Addition then cursor else cursor + 1;
      && cursor + |Old(ls[i..])| == next + |Old(rest)|
      && output + New(lines, ls[i..], cursor, eol)
        == (output + Piece(lines, p, cursor, eol)) + New(lines, rest, next, eol)
      && (FitAll(lines, ls[i..], cursor, false) <==> Fits(lines, p, cursor, false) && FitAll(lines, rest, next, false))
  {
    assert ls[i..][1..] == ls[i + 1..];
    var next := if ls[i].prefix == Addition then cursor else cursor + 1;
    Associates(output, Piece(lines, ls[i], cursor, eol), New(lines, ls[i + 1..], next, eol));
  }

  lemma Associates(a: seq<string>, b: seq<string>, c: seq<string>)
    ensures a + (b + c) == (a + b) + c
  {
  }

  /** The lines between the cursor and a hunk are copied. */
  method CopyTo(lines: seq<string>, from: nat, to: nat) returns (output: seq<string>, cursor: nat)
    requires from <= to
    ensures output == Gap(lines, from, to)
    ensures cursor == if from >= |lines| then from else if to < |lines| then to else |lines|
  {
    output, cursor := [], from;
    while cursor < to && cursor < |lines|
      invariant from <= cursor <= to && (from >= |lines| ==> cursor == from) && (from < |lines| ==> cursor <= |lines|)
      invariant output + Gap(lines, cursor, to) == Gap(lines, from, to)
    {
      Associates(output, [lines[cursor]], Gap(lines, cursor + 1, to));
      output := output + [lines[cursor]];
      cursor := cursor + 1;
    }
    assert output + [] == output;
  }

  method CopyRest(lines: seq<string>, from: nat) returns (output: seq<string>)
    ensures output == Tail(lines, from)
  {
    output := [];
    var cursor := from;
    while cursor < |lines|
      invariant output + Tail(lines, cursor) == Tail(lines, from)
    {
      Associates(output, [lines[cursor]], Tail(lines, cursor + 1));
      output := output + [lines[cursor]];
      cursor := cursor + 1;
    }
    assert output + [] == output;
  }

  lemma {:induction false} MatchIsLoose(lines: seq<string>, ls: seq<PatchLine>, i: nat)
    requires FitAll(lines, ls, i, true)
    ensures FitAll(lines, ls, i, false)
  {
    if ls != [] { MatchIsLoose(lines, ls[1..], if ls[0].prefix == Addition then i else i + 1); }
  }

  /** A landing hunk applies, and only a landing hunk does. */
  lemma LandingDecides(lines: seq<string>, h: Hunk, cursor: nat, r: nat)
    requires Lands(lines, h, cursor, r) || (r == cursor && forall j :: cursor <= j ==> !MatchesAt(lines, h.lines, j))
    ensures Landing(lines, h, cursor) == if LooselyAt(lines, h.lines, r) then Some(r) else None
  {
    if Lands(lines, h, cursor, r) {
      LandingUnique(lines, h, cursor, r);
      MatchIsLoose(lines, h.lines, r);
    }
  }

  /** The lines still to be written from the cursor on, if all the hunks land. */
  ghost function Rest(lines: seq<string>, hunks: seq<Hunk>, cursor: nat, eol: string): Option<seq<string>> {
    match Landings(lines, hunks, cursor)
    case None => None
    case Some(plan) =>
      LandingsOrdered(lines, hunks, cursor);
      Some(Splice(lines, plan, cursor, eol))
  }

  ghost function Then(output: seq<string>, rest: Option<seq<string>>): Option<seq<string>> {
    if rest.None? then None else Some(output + rest.value)
  }

  lemma ThenThen(a: seq<string>, b: seq<string>, rest: Option<seq<string>>)
    ensures Then(a, Then(b, rest)) == Then(a + b, rest)
  {
    if rest.Some? { Associates(a, b, rest.value); }
  }

  lemma ThenNothing(rest: Option<seq<string>>)
    ensures Then([], rest) == rest
  {
    if rest.Some? { assert [] + rest.value == rest.value; }
  }

  /** One turn of the outer loop. */
  method PlaceHunk(lines: seq<string>, hunks: seq<Hunk>, k: nat, cursor: nat, eol: string)
    returns (ok: bool, piece: seq<string>, next: nat)
    requires k < |hunks|
    ensures Rest(lines, hunks[k..], cursor, eol)
      == if ok then Then(piece, Rest(lines, hunks[k + 1..], next, eol)) else None
  {
    var start := LocateHunkStart(lines, hunks[k], Preferred(hunks[k]), cursor);
    LandingDecides(lines, hunks[k], cursor, start);
    assert hunks[k..][0] == hunks[k] && hunks[k..][1..] == hunks[k + 1..];
    var skipped, _ := CopyTo(lines, cursor, start);
    var replaced;
    ok, replaced, next := ApplyHunk(lines, hunks[k], start, eol);
    piece := skipped + replaced;
  }

  /** `applyParsedHunks`. */
  method ApplyParsedHunks(text: string, hunks: seq<Hunk>) returns (r: Patched)
    ensures r == Result(text, hunks)
  {
    var lines := SplitLines(text);
    var eol := if HasCrLf(text) then "\r\n" else "\n";
    var output: seq<string>, cursor: nat := [], 0;
    ghost var whole := Rest(lines, hunks, 0, eol);
    ThenNothing(whole);
    for k := 0 to |hunks|
      invariant whole == Then(output, Rest(lines, hunks[k..], cursor, eol))
    {
      var ok, piece, next := PlaceHunk(lines, hunks, k, cursor, eol);
      if !ok { return Refused; }
      ThenThen(output, piece, Rest(lines, hunks[k + 1..], next, eol));
      output, cursor := output + piece, next;
    }
    var tail := CopyRest(lines, cursor);
    r := Applied(Join(output + tail));
  }
}
