/** What applying a patch keeps: every line is accounted for, a refusal has one
    reason, and the swapped patch undoes the patch. */
module PatchTheorems {
  import opened Wrappers
  import opened Text
  import opened Lines
  import opened PatchApply

  // ---------- where hunks land ----------

  function HunksOf(plan: Plan): seq<Hunk> {
    if plan.Done? then [] else [plan.hunk] + HunksOf(plan.rest)
  }

  /** The hunk stands at the first match of its search. If there is none, it
      stands where the search began and its unmatched lines are blank ones past
      the end of the file. */
  ghost predicate Placed(lines: seq<string>, h: Hunk, cursor: nat, i: nat) {
    || Lands(lines, h, cursor, i)
    || (i == cursor && BlankPastEnd(lines, h.lines, cursor) && NoMatch(lines, h, cursor))
  }

  ghost predicate NoMatch(lines: seq<string>, h: Hunk, cursor: nat) {
    forall j {:trigger MatchesAt(lines, h.lines, j)} :: cursor <= j ==> !MatchesAt(lines, h.lines, j)
  }

  ghost predicate BlankPastEnd(lines: seq<string>, ls: seq<PatchLine>, i: nat) {
    LooselyAt(lines, ls, i) && i + |Old(ls)| > |lines|
  }

  lemma {:induction false} LooseWithinIsMatch(lines: seq<string>, ls: seq<PatchLine>, i: nat)
    requires FitAll(lines, ls, i, false) && i + |Old(ls)| <= |lines|
    ensures FitAll(lines, ls, i, true)
  {
    if ls != [] { LooseWithinIsMatch(lines, ls[1..], if ls[0].prefix == Addition then i else i + 1); }
  }

  lemma MatchExists(lines: seq<string>, h: Hunk, cursor: nat, j: nat)
    requires cursor <= j && MatchesAt(lines, h.lines, j)
    ensures exists i: nat :: Lands(lines, h, cursor, i)
    decreases Distance(j, Preferred(h)), j
  {
    if !Lands(lines, h, cursor, j) {
      var i :| cursor <= i && MatchesAt(lines, h.lines, i) && i != j && !Before(j, i, Preferred(h));
      MatchExists(lines, h, cursor, i);
    }
  }

  lemma LandingMeans(lines: seq<string>, h: Hunk, cursor: nat, i: nat)
    ensures Landing(lines, h, cursor) == Some(i) <==> Placed(lines, h, cursor, i)
  {
    if k: nat :| Lands(lines, h, cursor, k) {
      LandingUnique(lines, h, cursor, k);
      if Lands(lines, h, cursor, i) { LandingUnique(lines, h, cursor, i); }
      assert MatchesAt(lines, h.lines, k);
    } else {
      forall j | cursor <= j ensures !MatchesAt(lines, h.lines, j) {
        if MatchesAt(lines, h.lines, j) { MatchExists(lines, h, cursor, j); }
      }
      if LooselyAt(lines, h.lines, cursor) && cursor + |Old(h.lines)| <= |lines| {
        LooseWithinIsMatch(lines, h.lines, cursor);
      }
    }
  }

  ghost predicate AllPlaced(lines: seq<string>, plan: Plan, cursor: nat) {
    plan.Place? ==>
      Placed(lines, plan.hunk, cursor, plan.at) && AllPlaced(lines, plan.rest, After(plan.hunk, plan.at))
  }

  /** A plan is the one found exactly when all its hunks stand where they should. */
  lemma {:induction false} LandingsMean(lines: seq<string>, plan: Plan, cursor: nat)
    ensures Landings(lines, HunksOf(plan), cursor) == Some(plan) <==> AllPlaced(lines, plan, cursor)
  {
    if plan.Place? {
      LandingMeans(lines, plan.hunk, cursor, plan.at);
      LandingsMean(lines, plan.rest, After(plan.hunk, plan.at));
      assert HunksOf(plan)[1..] == HunksOf(plan.rest);
    }
  }

  lemma {:induction false} LandingsOf(lines: seq<string>, hunks: seq<Hunk>, cursor: nat)
    requires Landings(lines, hunks, cursor).Some?
    ensures HunksOf(Landings(lines, hunks, cursor).value) == hunks
  {
    if hunks != [] { LandingsOf(lines, hunks[1..], After(hunks[0], Landing(lines, hunks[0], cursor).value)); }
  }

  /** A patch that is not refused has its hunks placed; for one that is refused
      there is no plan with every hunk in place. */
  lemma RefusalMeans(text: string, hunks: seq<Hunk>, other: Plan)
    requires HunksOf(other) == hunks
    ensures var lines := SplitLines(text);
      match Result(text, hunks)
      case Applied(_) => HunksOf(Landings(lines, hunks, 0).value) == hunks && AllPlaced(lines, Landings(lines, hunks, 0).value, 0)
      case Refused => !AllPlaced(lines, other, 0)
  {
    var lines := SplitLines(text);
    LandingsMean(lines, other, 0);
    if Landings(lines, hunks, 0).Some? {
      LandingsOf(lines, hunks, 0);
      LandingsMean(lines, Landings(lines, hunks, 0).value, 0);
    }
  }

  // ---------- every line is accounted for ----------

  datatype Edit = Keep(line: string) | Drop(line: string) | Add(line: string)

  function Was(edits: seq<Edit>): seq<string> {
    if edits == [] then []
    else if edits[0].Add? then Was(edits[1..])
    else [edits[0].line] + Was(edits[1..])
  }

  function Is(edits: seq<Edit>): seq<string> {
    if edits == [] then []
    else if edits[0].Drop? then Is(edits[1..])
    else [edits[0].line] + Is(edits[1..])
  }

  function Keeps(lines: seq<string>): (r: seq<Edit>)
    ensures Was(r) == lines && Is(r) == lines
  {
    if lines == [] then [] else [Keep(lines[0])] + Keeps(lines[1..])
  }

  /** A line of a hunk as an edit; a blank line past the end is none. */
  function LineEdits(lines: seq<string>, p: PatchLine, i: nat, eol: string): seq<Edit> {
    match p.prefix
    case Context => if i < |lines| then [Keep(lines[i])] else []
    case Removal => if i < |lines| then [Drop(lines[i])] else []
    case Addition => [Add(Added(p, eol))]
  }

  function HunkEdits(lines: seq<string>, ls: seq<PatchLine>, i: nat, eol: string): seq<Edit> {
    if ls == [] then []
    else LineEdits(lines, ls[0], i, eol) + HunkEdits(lines, ls[1..], Next(ls[0], i), eol)
  }

  function Next(p: PatchLine, i: nat): nat { if p.prefix == Addition then i else i + 1 }

  function Edits(lines: seq<string>, plan: Plan, cursor: nat, eol: string): seq<Edit>
    requires Ordered(plan, cursor)
  {
    match plan
    case Done => Keeps(Tail(lines, cursor))
    case Place(h, i, rest) => PartEdits(lines, h, cursor, i, eol) + Edits(lines, rest, After(h, i), eol)
  }

  function PartEdits(lines: seq<string>, h: Hunk, cursor: nat, i: nat, eol: string): seq<Edit>
    requires cursor <= i
  {
    Keeps(Gap(lines, cursor, i)) + HunkEdits(lines, h.lines, i, eol)
  }

  lemma {:induction false} WasAppend(a: seq<Edit>, b: seq<Edit>)
    ensures Was(a + b) == Was(a) + Was(b)
  {
    if a == [] {
      assert a + b == b;
    } else {
      assert (a + b)[0] == a[0] && (a + b)[1..] == a[1..] + b;
      WasAppend(a[1..], b);
      Associates([a[0].line], Was(a[1..]), Was(b));
    }
  }

  lemma {:induction false} IsAppend(a: seq<Edit>, b: seq<Edit>)
    ensures Join(Is(a + b)) == Join(Is(a)) + Join(Is(b))
  {
    if a == [] {
      assert a + b == b;
    } else {
      assert (a + b)[0] == a[0] && (a + b)[1..] == a[1..] + b;
      IsAppend(a[1..], b);
      JoinAppend([a[0].line], Is(a[1..]));
      JoinAppend([a[0].line], Is(a[1..] + b));
    }
  }

  lemma LineEditsMean(lines: seq<string>, p: PatchLine, i: nat, eol: string)
    ensures Was(LineEdits(lines, p, i, eol)) == Gap(lines, i, Next(p, i))
    ensures Join(Is(LineEdits(lines, p, i, eol))) == Join(Piece(lines, p, i, eol))
  {
  }

  lemma WasBoth(a: seq<Edit>, b: seq<Edit>, x: seq<string>, y: seq<string>, g: seq<string>)
    requires Was(a) == x && Was(b) == y && g == x + y
    ensures Was(a + b) == g
  {
    WasAppend(a, b);
  }

  lemma LineWas(lines: seq<string>, ls: seq<PatchLine>, i: nat, eol: string, rest: seq<Edit>, end: nat)
    requires ls != [] && Next(ls[0], i) <= end && Was(rest) == Gap(lines, Next(ls[0], i), end)
    ensures Was(LineEdits(lines, ls[0], i, eol) + rest) == Gap(lines, i, end)
  {
    var next := Next(ls[0], i);
    LineEditsMean(lines, ls[0], i, eol);
    GapSplits(lines, i, next, end);
    WasBoth(LineEdits(lines, ls[0], i, eol), rest, Gap(lines, i, next), Gap(lines, next, end), Gap(lines, i, end));
  }

  lemma {:induction false} HunkWas(lines: seq<string>, ls: seq<PatchLine>, i: nat, eol: string)
    ensures Was(HunkEdits(lines, ls, i, eol)) == Gap(lines, i, i + |Old(ls)|)
  {
    if ls != [] {
      HunkWas(lines, ls[1..], Next(ls[0], i), eol);
      LineWas(lines, ls, i, eol, HunkEdits(lines, ls[1..], Next(ls[0], i), eol), i + |Old(ls)|);
    }
  }

  lemma {:induction false} HunkIs(lines: seq<string>, ls: seq<PatchLine>, i: nat, eol: string)
    ensures Join(Is(HunkEdits(lines, ls, i, eol))) == Join(New(lines, ls, i, eol))
  {
    if ls != [] {
      var next := Next(ls[0], i);
      LineEditsMean(lines, ls[0], i, eol);
      HunkIs(lines, ls[1..], next, eol);
      IsAppend(LineEdits(lines, ls[0], i, eol), HunkEdits(lines, ls[1..], next, eol));
      JoinAppend(Piece(lines, ls[0], i, eol), New(lines, ls[1..], next, eol));
    }
  }

  lemma {:induction false} GapSplits(lines: seq<string>, i: nat, j: nat, k: nat)
    requires i <= j <= k
    ensures Gap(lines, i, k) == Gap(lines, i, j) + Gap(lines, j, k)
    decreases j - i
  {
    if i < j && i < |lines| {
      GapSplits(lines, i + 1, j, k);
      Associates([lines[i]], Gap(lines, i + 1, j), Gap(lines, j, k));
    } else {
      assert [] + Gap(lines, j, k) == Gap(lines, j, k);
    }
  }

  lemma {:induction false} TailSplits(lines: seq<string>, i: nat, j: nat)
    requires i <= j
    ensures Tail(lines, i) == Gap(lines, i, j) + Tail(lines, j)
    decreases j - i
  {
    if i < j && i < |lines| {
      TailSplits(lines, i + 1, j);
      Associates([lines[i]], Gap(lines, i + 1, j), Tail(lines, j));
    } else {
      assert [] + Tail(lines, j) == Tail(lines, j);
    }
  }

  lemma {:induction false} TailIsDrop(lines: seq<string>, i: nat)
    requires i <= |lines|
    ensures Tail(lines, i) == lines[i..]
    decreases |lines| - i
  {
    if i < |lines| { TailIsDrop(lines, i + 1); }
  }

  lemma PartEditsMean(lines: seq<string>, h: Hunk, cursor: nat, i: nat, eol: string)
    requires cursor <= i
    ensures Was(PartEdits(lines, h, cursor, i, eol)) == Gap(lines, cursor, i + |Old(h.lines)|)
    ensures Join(Is(PartEdits(lines, h, cursor, i, eol))) == Join(Part(lines, h, cursor, i, eol))
  {
    var a, b := Keeps(Gap(lines, cursor, i)), HunkEdits(lines, h.lines, i, eol);
    HunkWas(lines, h.lines, i, eol);
    HunkIs(lines, h.lines, i, eol);
    WasAppend(a, b);
    GapSplits(lines, cursor, i, i + |Old(h.lines)|);
    IsAppend(a, b);
    JoinAppend(Gap(lines, cursor, i), New(lines, h.lines, i, eol));
  }

  lemma {:induction false} WasEveryLine(lines: seq<string>, plan: Plan, cursor: nat, eol: string)
    requires Ordered(plan, cursor)
    ensures Was(Edits(lines, plan, cursor, eol)) == Tail(lines, cursor)
  {
    if plan.Place? {
      var next := After(plan.hunk, plan.at);
      WasEveryLine(lines, plan.rest, next, eol);
      PartEditsMean(lines, plan.hunk, cursor, plan.at, eol);
      WasAppend(PartEdits(lines, plan.hunk, cursor, plan.at, eol), Edits(lines, plan.rest, next, eol));
      TailSplits(lines, cursor, next);
    }
  }

  lemma {:induction false} IsTheText(lines: seq<string>, plan: Plan, cursor: nat, eol: string)
    requires Ordered(plan, cursor)
    ensures Join(Is(Edits(lines, plan, cursor, eol))) == Join(Splice(lines, plan, cursor, eol))
  {
    if plan.Place? {
      var next := After(plan.hunk, plan.at);
      IsTheText(lines, plan.rest, next, eol);
      PartEditsMean(lines, plan.hunk, cursor, plan.at, eol);
      IsAppend(PartEdits(lines, plan.hunk, cursor, plan.at, eol), Edits(lines, plan.rest, next, eol));
      JoinAppend(Part(lines, plan.hunk, cursor, plan.at, eol), Splice(lines, plan.rest, next, eol));
    }
  }

  /** Read as edits, an applied patch keeps or drops every old line exactly once,
      in order, and the new text is what is kept and added, in order. */
  lemma EveryLineOnce(text: string, hunks: seq<Hunk>)
    requires Result(text, hunks).Applied?
    ensures var lines := SplitLines(text);
      var plan := Landings(lines, hunks, 0).value;
      && Ordered(plan, 0)
      && Was(Edits(lines, plan, 0, Ending(text))) == lines
      && Join(Is(Edits(lines, plan, 0, Ending(text)))) == Result(text, hunks).text
  {
    var lines := SplitLines(text);
    var plan := Landings(lines, hunks, 0).value;
    LandingsOrdered(lines, hunks, 0);
    WasEveryLine(lines, plan, 0, Ending(text));
    TailIsDrop(lines, 0);
    IsTheText(lines, plan, 0, Ending(text));
  }

  // ---------- undoing a patch ----------

  function SwapLine(p: PatchLine): PatchLine {
    p.(prefix := match p.prefix case Context => Context case Removal => Addition case Addition => Removal)
  }

  function Swap(ls: seq<PatchLine>): seq<PatchLine> {
    if ls == [] then [] else [SwapLine(ls[0])] + Swap(ls[1..])
  }

  /** The hunk that undoes `h` where it now starts. */
  function Reversed(h: Hunk, start: nat): Hunk {
    Hunk(start + 1, h.newCount, h.newStart, h.oldCount, Swap(h.lines))
  }

  /** How many lines a hunk leaves. */
  function NewCount(ls: seq<PatchLine>): nat {
    if ls == [] then 0 else (if ls[0].prefix == Removal then 0 else 1) + NewCount(ls[1..])
  }

  lemma {:induction false} SwapCounts(ls: seq<PatchLine>)
    ensures |Old(Swap(ls))| == NewCount(ls)
  {
    if ls != [] {
      SwapCounts(ls[1..]);
      assert Swap(ls)[1..] == Swap(ls[1..]);
    }
  }

  /** The plan that undoes a plan; `q` is where the old cursor is in the new text. */
  function Undo(plan: Plan, cursor: nat, q: nat): (undo: Plan)
    requires Ordered(plan, cursor)
    ensures Ordered(undo, q)
  {
    match plan
    case Done => Done
    case Place(h, i, rest) =>
      var start := q + (i - cursor);
      SwapCounts(h.lines);
      Place(Reversed(h, start), start, Undo(rest, After(h, i), start + NewCount(h.lines)))
  }

  predicate PlainLine(p: PatchLine) { Content(p.content) && !p.noNewline }

  /** Contents a line can have, and no mark that the last newline is missing. */
  predicate Plain(ls: seq<PatchLine>) {
    forall i {:trigger PlainLine(ls[i])} :: 0 <= i < |ls| ==> PlainLine(ls[i])
  }

  predicate AllWhole(lines: seq<string>) {
    forall i {:trigger Whole(lines[i])} :: 0 <= i < |lines| ==> Whole(lines[i])
  }

  lemma PlainRest(ls: seq<PatchLine>)
    requires Plain(ls) && ls != []
    ensures PlainLine(ls[0]) && Plain(ls[1..])
  {
    assert PlainLine(ls[0]);
    forall i | 0 <= i < |ls[1..]| ensures PlainLine(ls[1..][i]) { assert PlainLine(ls[i + 1]); }
  }

  lemma PieceWhole(lines: seq<string>, p: PatchLine, i: nat)
    requires AllWhole(lines) && PlainLine(p) && Fits(lines, p, i, true)
    ensures AllWhole(Piece(lines, p, i, "\n")) && |Piece(lines, p, i, "\n")| == if p.prefix == Removal then 0 else 1
  {
    match p.prefix
    case Addition =>
      ContentStripped(p.content);
      OneWhole(p.content + "\n");
    case Context =>
      assert Whole(lines[i]);
      OneWhole(lines[i]);
    case Removal =>
  }

  lemma OneWhole(line: string)
    requires Whole(line)
    ensures AllWhole([line])
  {
  }

  lemma BothWhole(a: seq<string>, b: seq<string>)
    requires AllWhole(a) && AllWhole(b)
    ensures AllWhole(a + b)
  {
    forall i | 0 <= i < |a + b| ensures Whole((a + b)[i]) {
      if i < |a| { assert Whole(a[i]); } else { assert Whole(b[i - |a|]); }
    }
  }

  lemma {:induction false} NewWhole(lines: seq<string>, ls: seq<PatchLine>, i: nat)
    requires AllWhole(lines) && Plain(ls) && FitAll(lines, ls, i, true)
    ensures AllWhole(New(lines, ls, i, "\n")) && |New(lines, ls, i, "\n")| == NewCount(ls)
  {
    if ls != [] {
      PlainRest(ls);
      PieceWhole(lines, ls[0], i);
      NewWhole(lines, ls[1..], Next(ls[0], i));
      BothWhole(Piece(lines, ls[0], i, "\n"), New(lines, ls[1..], Next(ls[0], i), "\n"));
    }
  }

  /** The endings that added lines are given. */
  predicate Eol(eol: string) { eol == "\n" || eol == "\r\n" }

  lemma {:induction false} NewLength(lines: seq<string>, ls: seq<PatchLine>, i: nat, eol: string)
    ensures |New(lines, ls, i, eol)| == NewCount(ls)
  {
    if ls != [] { NewLength(lines, ls[1..], Next(ls[0], i), eol); }
  }

  /** What the hunk left stands at `q`. */
  predicate LeftAt(lines: seq<string>, ls: seq<PatchLine>, i: nat, after: seq<string>, q: nat, eol: string) {
    q + NewCount(ls) <= |after| && Gap(after, q, q + NewCount(ls)) == New(lines, ls, i, eol)
  }

  /** The swapped lines find what the hunk left. */
  lemma {:induction false} SwapFinds(lines: seq<string>, ls: seq<PatchLine>, i: nat, after: seq<string>, q: nat, eol: string)
    requires Eol(eol) && Plain(ls) && FitAll(lines, ls, i, true) && LeftAt(lines, ls, i, after, q, eol)
    ensures FitAll(after, Swap(ls), q, true) && |Old(Swap(ls))| == NewCount(ls)
  {
    if ls != [] {
      PlainRest(ls);
      SwapUndoesRest(lines, ls, i, after, q, eol);
      SwapFinds(lines, ls[1..], Next(ls[0], i), after, if ls[0].prefix == Removal then q else q + 1, eol);
      assert Swap(ls)[1..] == Swap(ls[1..]);
      SwapLineFinds(lines, ls[0], i, after, q, eol);
    }
  }

  lemma SwapLineFinds(lines: seq<string>, p: PatchLine, i: nat, after: seq<string>, q: nat, eol: string)
    requires Eol(eol) && PlainLine(p) && Fits(lines, p, i, true)
    requires p.prefix != Removal ==> q < |after| && [after[q]] == Piece(lines, p, i, eol)
    ensures Fits(after, SwapLine(p), q, true)
  {
    if p.prefix != Removal { assert after[q] == [after[q]][0] == Piece(lines, p, i, eol)[0]; }
    if p.prefix == Addition { EolStripped(p.content, eol); }
  }

  lemma EolStripped(content: string, eol: string)
    requires Content(content) && Eol(eol)
    ensures Strip(content + eol) == content && Ended(content + eol)
  {
    assert (content + eol)[..|content|] == content;
    assert (content + eol)[..|content + eol| - 1] == content + eol[..|eol| - 1];
  }

  /** They leave what the hunk found. */
  lemma {:induction false} SwapRestores(lines: seq<string>, ls: seq<PatchLine>, i: nat, after: seq<string>, q: nat)
    requires AllWhole(lines) && Plain(ls) && FitAll(lines, ls, i, true) && LeftAt(lines, ls, i, after, q, "\n")
    requires i + |Old(ls)| <= |lines|
    ensures New(after, Swap(ls), q, "\n") == Gap(lines, i, i + |Old(ls)|)
  {
    if ls != [] {
      var p, rest := ls[0], ls[1..];
      PlainRest(ls);
      SwapUndoesRest(lines, ls, i, after, q, "\n");
      SwapRestores(lines, rest, Next(p, i), after, if p.prefix == Removal then q else q + 1);
      SwapLineUndoes(lines, p, i, after, q);
      SwapNew(ls, after, q);
    }
  }

  lemma SwapNew(ls: seq<PatchLine>, after: seq<string>, q: nat)
    requires ls != []
    ensures New(after, Swap(ls), q, "\n") == Piece(after, SwapLine(ls[0]), q, "\n")
      + New(after, Swap(ls[1..]), if ls[0].prefix == Removal then q else q + 1, "\n")
  {
    assert Swap(ls)[1..] == Swap(ls[1..]);
  }

  lemma SwapLineUndoes(lines: seq<string>, p: PatchLine, i: nat, after: seq<string>, q: nat)
    requires AllWhole(lines) && PlainLine(p) && Fits(lines, p, i, true)
    requires p.prefix != Removal ==> q < |after| && [after[q]] == Piece(lines, p, i, "\n")
    ensures Piece(after, SwapLine(p), q, "\n") == if p.prefix == Addition then [] else [lines[i]]
  {
    if p.prefix != Addition {
      assert Whole(lines[i]);
      WholeStripped(lines[i]);
      if p.prefix == Context { assert after[q] == [after[q]][0]; }
    }
  }

  lemma SwapUndoesRest(lines: seq<string>, ls: seq<PatchLine>, i: nat, after: seq<string>, q: nat, eol: string)
    requires ls != [] && LeftAt(lines, ls, i, after, q, eol)
    ensures ls[0].prefix != Removal ==> q < |after| && [after[q]] == Piece(lines, ls[0], i, eol)
    ensures LeftAt(lines, ls[1..], Next(ls[0], i), after, if ls[0].prefix == Removal then q else q + 1, eol)
  {
    if ls[0].prefix != Removal {
      HeadAndTail(after[q], Gap(after, q + 1, q + NewCount(ls)),
        Piece(lines, ls[0], i, eol)[0], New(lines, ls[1..], Next(ls[0], i), eol));
    }
  }

  /** Every hunk stands where its lines match, none past the end. */
  predicate AllMatch(lines: seq<string>, plan: Plan, cursor: nat)
    ensures AllMatch(lines, plan, cursor) ==> Ordered(plan, cursor)
  {
    plan.Place? ==>
      cursor <= plan.at && MatchesAt(lines, plan.hunk.lines, plan.at)
      && AllMatch(lines, plan.rest, After(plan.hunk, plan.at))
  }

  predicate AllPlain(plan: Plan) { plan.Place? ==> Plain(plan.hunk.lines) && AllPlain(plan.rest) }

  /** The lines `s` stand at `q`. */
  predicate Stands(after: seq<string>, q: nat, s: seq<string>)
    decreases |s|
  {
    s == [] || (q < |after| && after[q] == s[0] && Stands(after, q + 1, s[1..]))
  }

  lemma {:induction false} StandsAppend(after: seq<string>, q: nat, a: seq<string>, b: seq<string>)
    ensures Stands(after, q, a + b) <==> Stands(after, q, a) && Stands(after, q + |a|, b)
    decreases |a|
  {
    if a == [] {
      assert a + b == b;
    } else {
      assert (a + b)[0] == a[0] && (a + b)[1..] == a[1..] + b;
      StandsAppend(after, q + 1, a[1..], b);
    }
  }

  lemma {:induction false} StandsGap(after: seq<string>, q: nat, s: seq<string>)
    requires Stands(after, q, s) && q <= |after|
    ensures q + |s| <= |after| && Gap(after, q, q + |s|) == s
    decreases |s|
  {
    if s != [] { StandsGap(after, q + 1, s[1..]); }
  }

  lemma {:induction false} TailStands(after: seq<string>, q: nat)
    requires q <= |after|
    ensures Stands(after, q, Tail(after, q)) && q + |Tail(after, q)| == |after|
    decreases |after| - q
  {
    if q < |after| { TailStands(after, q + 1); }
  }

  lemma {:induction false} GapStands(lines: seq<string>, i: nat, j: nat)
    requires i <= j <= |lines|
    ensures Stands(lines, i, Gap(lines, i, j)) && |Gap(lines, i, j)| == j - i
    decreases j - i
  {
    if i < j { GapStands(lines, i + 1, j); }
  }

  /** The first hunk in the new text: copied lines, what it left, and the rest. */
  lemma FirstHunk(lines: seq<string>, h: Hunk, cursor: nat, i: nat, rest: seq<string>, after: seq<string>, q: nat, eol: string)
    requires cursor <= i && MatchesAt(lines, h.lines, i)
    requires q <= |after| && Stands(after, q, Part(lines, h, cursor, i, eol) + rest)
    ensures var start := q + (i - cursor);
      && start <= |after| && Gap(after, q, start) == Gap(lines, cursor, i)
      && LeftAt(lines, h.lines, i, after, start, eol)
      && Stands(after, start + NewCount(h.lines), rest)
  {
    var copied, left := Gap(lines, cursor, i), New(lines, h.lines, i, eol);
    assert |left| == NewCount(h.lines) by { NewLength(lines, h.lines, i, eol); }
    assert |copied| == i - cursor by { GapStands(lines, cursor, i); }
    Divide(copied, left, rest, after, q);
  }

  lemma Divide(a: seq<string>, b: seq<string>, c: seq<string>, after: seq<string>, q: nat)
    requires q <= |after| && Stands(after, q, (a + b) + c)
    ensures q + |a| + |b| <= |after|
    ensures Gap(after, q, q + |a|) == a && Gap(after, q + |a|, q + |a| + |b|) == b && Stands(after, q + |a| + |b|, c)
  {
    StandsAppend(after, q, a + b, c);
    StandsAppend(after, q, a, b);
    StandsGap(after, q, a);
    StandsGap(after, q + |a|, b);
  }

  lemma FirstReversedPart(lines: seq<string>, h: Hunk, cursor: nat, i: nat, after: seq<string>, q: nat)
    requires AllWhole(lines) && Plain(h.lines) && MatchesAt(lines, h.lines, i) && cursor <= i
    requires i + |Old(h.lines)| <= |lines| && q + (i - cursor) <= |after|
    requires Gap(after, q, q + (i - cursor)) == Gap(lines, cursor, i)
    requires LeftAt(lines, h.lines, i, after, q + (i - cursor), "\n")
    ensures Part(after, Reversed(h, q + (i - cursor)), q, q + (i - cursor), "\n") == Gap(lines, cursor, After(h, i))
  {
    SwapRestores(lines, h.lines, i, after, q + (i - cursor));
    GapSplits(lines, cursor, i, After(h, i));
  }

  // ---------- all hunks ----------

  /** Every hunk matches at the very line it states. */
  predicate Stated(lines: seq<string>, plan: Plan, cursor: nat) {
    plan.Place? ==>
      cursor <= plan.at && Preferred(plan.hunk) == plan.at && MatchesAt(lines, plan.hunk.lines, plan.at)
      && Stated(lines, plan.rest, After(plan.hunk, plan.at))
  }

  lemma StatedLands(lines: seq<string>, h: Hunk, cursor: nat, i: nat)
    requires cursor <= i && Preferred(h) == i && MatchesAt(lines, h.lines, i)
    ensures Placed(lines, h, cursor, i)
  {
    assert Lands(lines, h, cursor, i);
  }

  lemma {:induction false} StatedPlaced(lines: seq<string>, plan: Plan, cursor: nat)
    requires Stated(lines, plan, cursor)
    ensures AllPlaced(lines, plan, cursor)
  {
    if plan.Place? {
      StatedLands(lines, plan.hunk, cursor, plan.at);
      StatedPlaced(lines, plan.rest, After(plan.hunk, plan.at));
    }
  }

  lemma {:induction false} StatedMatches(lines: seq<string>, plan: Plan, cursor: nat)
    requires Stated(lines, plan, cursor)
    ensures AllMatch(lines, plan, cursor)
  {
    if plan.Place? { StatedMatches(lines, plan.rest, After(plan.hunk, plan.at)); }
  }

  lemma {:induction false} SwapPlain(ls: seq<PatchLine>)
    requires Plain(ls)
    ensures Plain(Swap(ls))
  {
    if ls != [] {
      PlainRest(ls);
      SwapPlain(ls[1..]);
      var rest := Swap(ls[1..]);
      forall i | 0 <= i < |Swap(ls)| ensures PlainLine(Swap(ls)[i]) {
        if i > 0 { assert PlainLine(rest[i - 1]); }
      }
    }
  }

  lemma {:induction false} UndoPlain(plan: Plan, cursor: nat, q: nat)
    requires Ordered(plan, cursor) && AllPlain(plan)
    ensures AllPlain(Undo(plan, cursor, q))
  {
    if plan.Place? {
      SwapCounts(plan.hunk.lines);
      SwapPlain(plan.hunk.lines);
      UndoPlain(plan.rest, After(plan.hunk, plan.at), q + (plan.at - cursor) + NewCount(plan.hunk.lines));
    }
  }

  /** The sequence stands at the position and reaches the end. */
  predicate Ends(lines: seq<string>, i: nat, s: seq<string>) { Stands(lines, i, s) && i + |s| == |lines| }

  lemma EndsAfter(lines: seq<string>, i: nat, a: seq<string>, b: seq<string>)
    ensures Ends(lines, i, a + b) <==> Stands(lines, i, a) && Ends(lines, i + |a|, b)
  {
    StandsAppend(lines, i, a, b);
  }

  lemma {:induction false} EndsIsTail(lines: seq<string>, i: nat, s: seq<string>)
    requires i <= |lines| && Ends(lines, i, s)
    ensures s == Tail(lines, i)
    decreases |s|
  {
    if s != [] { EndsIsTail(lines, i + 1, s[1..]); }
  }

  lemma PartLength(lines: seq<string>, h: Hunk, cursor: nat, i: nat, eol: string)
    requires cursor <= i <= |lines|
    ensures |Part(lines, h, cursor, i, eol)| == i - cursor + NewCount(h.lines)
  {
    NewLength(lines, h.lines, i, eol);
    GapStands(lines, cursor, i);
  }

  /** Every reversed hunk finds its lines. */
  predicate AllFound(plan: Plan, cursor: nat, after: seq<string>, q: nat)
    requires Ordered(plan, cursor)
  {
    plan.Place? ==>
      var start := q + (plan.at - cursor);
      MatchesAt(after, Swap(plan.hunk.lines), start)
      && AllFound(plan.rest, After(plan.hunk, plan.at), after, start + NewCount(plan.hunk.lines))
  }

  /** Every reversed hunk writes the old lines, and behind the last the texts are the same. */
  predicate AllWritten(lines: seq<string>, plan: Plan, cursor: nat, after: seq<string>, q: nat)
    requires Ordered(plan, cursor)
  {
    match plan
    case Done => Tail(after, q) == Tail(lines, cursor)
    case Place(h, i, rest) =>
      var start := q + (i - cursor);
      Part(after, Reversed(h, start), q, start, "\n") == Gap(lines, cursor, After(h, i))
      && AllWritten(lines, rest, After(h, i), after, start + NewCount(h.lines))
  }

  lemma FoundHere(lines: seq<string>, h: Hunk, cursor: nat, i: nat, ahead: seq<string>, after: seq<string>, q: nat, eol: string)
    requires cursor <= i && MatchesAt(lines, h.lines, i) && Eol(eol) && Plain(h.lines)
    requires q <= |after| && Ends(after, q, Part(lines, h, cursor, i, eol) + ahead)
    ensures MatchesAt(after, Swap(h.lines), q + (i - cursor))
    ensures Gap(after, q, q + (i - cursor)) == Gap(lines, cursor, i)
    ensures LeftAt(lines, h.lines, i, after, q + (i - cursor), eol)
    ensures var p := q + (i - cursor) + NewCount(h.lines); p <= |after| && Ends(after, p, ahead)
  {
    EndsAfter(after, q, Part(lines, h, cursor, i, eol), ahead);
    FirstHunk(lines, h, cursor, i, ahead, after, q, eol);
    PartLength(lines, h, cursor, i, eol);
    SwapFinds(lines, h.lines, i, after, q + (i - cursor), eol);
  }

  lemma {:induction false} FoundEverywhere(lines: seq<string>, plan: Plan, cursor: nat, after: seq<string>, q: nat, eol: string)
    requires AllMatch(lines, plan, cursor) && Eol(eol) && AllPlain(plan)
    requires q <= |after| && Ends(after, q, Splice(lines, plan, cursor, eol))
    ensures AllFound(plan, cursor, after, q)
  {
    if plan.Place? {
      var next, p := After(plan.hunk, plan.at), q + (plan.at - cursor) + NewCount(plan.hunk.lines);
      FoundHere(lines, plan.hunk, cursor, plan.at, Splice(lines, plan.rest, next, eol), after, q, eol);
      FoundEverywhere(lines, plan.rest, next, after, p, eol);
    }
  }

  lemma WrittenFirst(lines: seq<string>, h: Hunk, i: nat, rest: Plan, cursor: nat, after: seq<string>, q: nat, start: nat)
    requires Ordered(Place(h, i, rest), cursor) && start == q + (i - cursor)
    requires Part(after, Reversed(h, start), q, start, "\n") == Gap(lines, cursor, After(h, i))
    requires AllWritten(lines, rest, After(h, i), after, start + NewCount(h.lines))
    ensures AllWritten(lines, Place(h, i, rest), cursor, after, q)
  {
  }

  lemma WrittenHere(lines: seq<string>, h: Hunk, cursor: nat, i: nat, ahead: seq<string>, after: seq<string>, q: nat)
    requires cursor <= i && MatchesAt(lines, h.lines, i) && AllWhole(lines) && Plain(h.lines)
    requires q <= |after| && Ends(after, q, Part(lines, h, cursor, i, "\n") + ahead)
    ensures Part(after, Reversed(h, q + (i - cursor)), q, q + (i - cursor), "\n") == Gap(lines, cursor, After(h, i))
    ensures var p := q + (i - cursor) + NewCount(h.lines); p <= |after| && Ends(after, p, ahead)
  {
    FoundHere(lines, h, cursor, i, ahead, after, q, "\n");
    MatchMeans(lines, h.lines, i);
    FirstReversedPart(lines, h, cursor, i, after, q);
  }

  lemma {:induction false} WrittenEverywhere(lines: seq<string>, plan: Plan, cursor: nat, after: seq<string>, q: nat)
    requires AllMatch(lines, plan, cursor) && AllWhole(lines) && AllPlain(plan)
    requires q <= |after| && Ends(after, q, Splice(lines, plan, cursor, "\n"))
    ensures AllWritten(lines, plan, cursor, after, q)
  {
    if plan.Place? {
      var next, p := After(plan.hunk, plan.at), q + (plan.at - cursor) + NewCount(plan.hunk.lines);
      var ahead := Splice(lines, plan.rest, next, "\n");
      WrittenHere(lines, plan.hunk, cursor, plan.at, ahead, after, q);
      WrittenEverywhere(lines, plan.rest, next, after, p);
      WrittenFirst(lines, plan.hunk, plan.at, plan.rest, cursor, after, q, q + (plan.at - cursor));
    } else {
      EndsIsTail(after, q, Tail(lines, cursor));
    }
  }

  lemma {:induction false} UndoStated(plan: Plan, cursor: nat, after: seq<string>, q: nat)
    requires Ordered(plan, cursor) && AllFound(plan, cursor, after, q)
    ensures Stated(after, Undo(plan, cursor, q), q)
  {
    if plan.Place? {
      SwapCounts(plan.hunk.lines);
      UndoStated(plan.rest, After(plan.hunk, plan.at), after, q + (plan.at - cursor) + NewCount(plan.hunk.lines));
    }
  }

  lemma UndoFirst(h: Hunk, i: nat, rest: Plan, cursor: nat, after: seq<string>, q: nat, back: string)
    requires Ordered(Place(h, i, rest), cursor)
    ensures var start := q + (i - cursor);
      Splice(after, Undo(Place(h, i, rest), cursor, q), q, back)
        == Part(after, Reversed(h, start), q, start, back)
          + Splice(after, Undo(rest, After(h, i), start + NewCount(h.lines)), start + NewCount(h.lines), back)
  {
    SwapCounts(h.lines);
  }

  /** The reverse of a plan writes the old lines. */
  lemma {:induction false} UndoRestores(lines: seq<string>, plan: Plan, cursor: nat, after: seq<string>, q: nat)
    requires Ordered(plan, cursor) && AllWritten(lines, plan, cursor, after, q)
    ensures Splice(after, Undo(plan, cursor, q), q, "\n") == Tail(lines, cursor)
  {
    if plan.Place? {
      UndoFirst(plan.hunk, plan.at, plan.rest, cursor, after, q, "\n");
      UndoRestores(lines, plan.rest, After(plan.hunk, plan.at), after, q + (plan.at - cursor) + NewCount(plan.hunk.lines));
      TailSplits(lines, cursor, After(plan.hunk, plan.at));
    }
  }

  lemma {:induction false} GapWhole(lines: seq<string>, i: nat, j: nat)
    requires AllWhole(lines) && i <= j
    ensures AllWhole(Gap(lines, i, j))
    decreases j - i
  {
    if i < j && i < |lines| {
      GapWhole(lines, i + 1, j);
      assert Whole(lines[i]);
      BothWhole([lines[i]], Gap(lines, i + 1, j));
    }
  }

  lemma {:induction false} TailWhole(lines: seq<string>, i: nat)
    requires AllWhole(lines)
    ensures AllWhole(Tail(lines, i))
    decreases |lines| - i
  {
    if i < |lines| {
      TailWhole(lines, i + 1);
      assert Whole(lines[i]);
      BothWhole([lines[i]], Tail(lines, i + 1));
    }
  }

  lemma {:induction false} SpliceWhole(lines: seq<string>, plan: Plan, cursor: nat)
    requires AllMatch(lines, plan, cursor) && AllWhole(lines) && AllPlain(plan)
    ensures AllWhole(Splice(lines, plan, cursor, "\n"))
  {
    match plan
    case Done => TailWhole(lines, cursor);
    case Place(h, i, rest) =>
      NewWhole(lines, h.lines, i);
      GapWhole(lines, cursor, i);
      BothWhole(Gap(lines, cursor, i), New(lines, h.lines, i, "\n"));
      SpliceWhole(lines, rest, After(h, i));
      BothWhole(Part(lines, h, cursor, i, "\n"), Splice(lines, rest, After(h, i), "\n"));
  }

  /** The reverse of a plan is found where it says it stands. */
  lemma UndoLands(lines: seq<string>, plan: Plan, after: seq<string>, eol: string)
    requires AllMatch(lines, plan, 0) && Eol(eol) && AllPlain(plan) && after == Splice(lines, plan, 0, eol)
    ensures var undo := Undo(plan, 0, 0);
      Landings(after, HunksOf(undo), 0) == Some(undo) && AllMatch(after, undo, 0) && Ends(after, 0, after)
  {
    TailStands(after, 0);
    TailIsDrop(after, 0);
    assert after[0..] == after;
    FoundEverywhere(lines, plan, 0, after, 0, eol);
    UndoStated(plan, 0, after, 0);
    StatedPlaced(after, Undo(plan, 0, 0), 0);
    StatedMatches(after, Undo(plan, 0, 0), 0);
    LandingsMean(after, Undo(plan, 0, 0), 0);
  }

  lemma UndoOfLines(lines: seq<string>, plan: Plan, after: seq<string>)
    requires AllMatch(lines, plan, 0) && AllWhole(lines) && AllPlain(plan) && after == Splice(lines, plan, 0, "\n")
    ensures var undo := Undo(plan, 0, 0);
      && Landings(after, HunksOf(undo), 0) == Some(undo)
      && Splice(after, undo, 0, "\n") == lines
      && AllWritten(lines, plan, 0, after, 0) && AllMatch(after, undo, 0)
  {
    UndoLands(lines, plan, after, "\n");
    WrittenEverywhere(lines, plan, 0, after, 0);
    UndoRestores(lines, plan, 0, after, 0);
    TailIsDrop(lines, 0);
    assert lines[0..] == lines;
  }

  lemma AllWholeOf(lines: seq<string>)
    requires forall i :: 0 <= i < |lines| ==> Whole(lines[i])
    ensures AllWhole(lines)
  {
  }

  /** A whole text is written with plain newlines, and read back as the lines written. */
  lemma WrittenWhole(text: string, hunks: seq<Hunk>, plan: Plan)
    requires WholeText(text) && Landings(SplitLines(text), hunks, 0) == Some(plan) && Ordered(plan, 0)
    requires AllWhole(Splice(SplitLines(text), plan, 0, "\n"))
    ensures var after := Splice(SplitLines(text), plan, 0, "\n");
      Result(text, hunks) == Applied(Join(after)) && WholeText(Join(after)) && SplitLines(Join(after)) == after
  {
    var after := Splice(SplitLines(text), plan, 0, "\n");
    assert !HasCrLf(text);
    JoinWhole(after);
    SplitOfJoin(after);
  }

  /** Applying a patch and then its reverse, with every hunk stated to start
      where it landed, gives the text back: for newline-terminated text without
      carriage returns before newlines and hunks that all match. */
  lemma ReverseRestores(text: string, hunks: seq<Hunk>)
    requires WholeText(text) && Result(text, hunks).Applied?
    requires var plan := Landings(SplitLines(text), hunks, 0).value;
      AllMatch(SplitLines(text), plan, 0) && AllPlain(plan)
    ensures var undo := Undo(Landings(SplitLines(text), hunks, 0).value, 0, 0);
      Result(Result(text, hunks).text, HunksOf(undo)) == Applied(text)
  {
    var lines := SplitLines(text);
    var plan := Landings(lines, hunks, 0).value;
    var after := Splice(lines, plan, 0, "\n");
    SplitWhole(text);
    AllWholeOf(lines);
    SpliceWhole(lines, plan, 0);
    WrittenWhole(text, hunks, plan);
    UndoOfLines(lines, plan, after);
    WrittenWhole(Join(after), HunksOf(Undo(plan, 0, 0)), Undo(plan, 0, 0));
  }
}
