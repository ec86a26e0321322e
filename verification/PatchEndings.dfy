/** Exactly when the reverse of a patch restores a text whose lines end in newlines,
    with carriage returns before them or without. */
module PatchEndings {
  import opened Wrappers
  import opened Lines
  import opened PatchApply
  import opened PatchTheorems

  // ---------- what the reverse writes ----------

  /** What the reverse of a hunk line leaves: a kept line as it was, a removed one
      with the ending that added lines get. */
  function BackLine(lines: seq<string>, p: PatchLine, i: nat, eol: string): seq<string> {
    match p.prefix
    case Context => [if i < |lines| then lines[i] else ""]
    case Removal => [p.content + eol]
    case Addition => []
  }

  function BackHunk(lines: seq<string>, ls: seq<PatchLine>, i: nat, eol: string): seq<string> {
    if ls == [] then [] else BackLine(lines, ls[0], i, eol) + BackHunk(lines, ls[1..], Next(ls[0], i), eol)
  }

  /** The old lines, removed ones with the given ending. */
  function Back(lines: seq<string>, plan: Plan, cursor: nat, eol: string): seq<string>
    requires Ordered(plan, cursor)
  {
    match plan
    case Done => Tail(lines, cursor)
    case Place(h, i, rest) => (Gap(lines, cursor, i) + BackHunk(lines, h.lines, i, eol)) + Back(lines, rest, After(h, i), eol)
  }

  lemma {:induction false} SwapWrites(lines: seq<string>, ls: seq<PatchLine>, i: nat, after: seq<string>, q: nat, eol: string, back: string)
    requires Plain(ls) && FitAll(lines, ls, i, true) && LeftAt(lines, ls, i, after, q, eol)
    ensures New(after, Swap(ls), q, back) == BackHunk(lines, ls, i, back)
  {
    if ls != [] {
      var p := ls[0];
      var r := if p.prefix == Removal then q else q + 1;
      PlainRest(ls);
      SwapUndoesRest(lines, ls, i, after, q, eol);
      SwapWrites(lines, ls[1..], Next(p, i), after, r, eol, back);
      assert Swap(ls)[1..] == Swap(ls[1..]);
      assert p.prefix == Context ==> [after[q]] == [lines[i]];
    }
  }

  /** The lines up to a reversed hunk and the hunk. */
  lemma PartWrites(lines: seq<string>, h: Hunk, cursor: nat, i: nat, after: seq<string>, q: nat, eol: string, back: string)
    requires cursor <= i && MatchesAt(lines, h.lines, i) && Plain(h.lines)
    requires Gap(after, q, q + (i - cursor)) == Gap(lines, cursor, i)
    requires LeftAt(lines, h.lines, i, after, q + (i - cursor), eol)
    ensures Part(after, Reversed(h, q + (i - cursor)), q, q + (i - cursor), back)
      == Gap(lines, cursor, i) + BackHunk(lines, h.lines, i, back)
  {
    SwapWrites(lines, h.lines, i, after, q + (i - cursor), eol, back);
  }

  lemma {:induction false} UndoWrites(lines: seq<string>, plan: Plan, cursor: nat, after: seq<string>, q: nat, eol: string, back: string)
    requires AllMatch(lines, plan, cursor) && Eol(eol) && AllPlain(plan)
    requires q <= |after| && Ends(after, q, Splice(lines, plan, cursor, eol))
    ensures Splice(after, Undo(plan, cursor, q), q, back) == Back(lines, plan, cursor, back)
  {
    if plan.Place? {
      var h, i, rest := plan.hunk, plan.at, plan.rest;
      var start := q + (i - cursor);
      var next := start + NewCount(h.lines);
      FoundHere(lines, h, cursor, i, Splice(lines, rest, After(h, i), eol), after, q, eol);
      PartWrites(lines, h, cursor, i, after, q, eol, back);
      UndoWrites(lines, rest, After(h, i), after, next, eol, back);
      UndoFirst(h, i, rest, cursor, after, q, back);
    } else {
      EndsIsTail(after, q, Tail(lines, cursor));
    }
  }

  // ---------- when that is what there was ----------

  predicate DropEnds(e: Edit, eol: string) { e.Drop? ==> e.line == Strip(e.line) + eol }

  /** Every removed line has the ending. */
  predicate DroppedEnd(edits: seq<Edit>, eol: string) {
    edits == [] || (DropEnds(edits[0], eol) && DroppedEnd(edits[1..], eol))
  }

  lemma {:induction false} DroppedMeans(edits: seq<Edit>, eol: string)
    ensures DroppedEnd(edits, eol) <==> forall e :: e in edits ==> DropEnds(e, eol)
  {
    if edits != [] {
      DroppedMeans(edits[1..], eol);
      assert edits == [edits[0]] + edits[1..];
    }
  }

  lemma {:induction false} DroppedBoth(a: seq<Edit>, b: seq<Edit>, eol: string)
    ensures DroppedEnd(a + b, eol) <==> DroppedEnd(a, eol) && DroppedEnd(b, eol)
  {
    if a == [] {
      assert a + b == b;
    } else {
      assert (a + b)[0] == a[0] && (a + b)[1..] == a[1..] + b;
      DroppedBoth(a[1..], b, eol);
    }
  }

  lemma {:induction false} KeptNotDropped(lines: seq<string>, eol: string)
    ensures DroppedEnd(Keeps(lines), eol)
  {
    if lines != [] {
      KeptNotDropped(lines[1..], eol);
      DroppedBoth([Keep(lines[0])], Keeps(lines[1..]), eol);
    }
  }

  /** Two halves of the same lengths. */
  lemma Halves(a: seq<string>, b: seq<string>, x: seq<string>, y: seq<string>)
    requires |a| == |x|
    ensures a + b == x + y <==> a == x && b == y
  {
    if a + b == x + y {
      assert a == (a + b)[..|a|] && x == (x + y)[..|x|] && b == (a + b)[|a|..] && y == (x + y)[|x|..];
    }
  }

  lemma OldBack(lines: seq<string>, line: seq<string>, rest: seq<string>, first: seq<Edit>, others: seq<Edit>, i: nat, n: nat, back: string)
    requires |line| == 1 && |rest| == n && i + 1 + n <= |lines|
    requires DroppedEnd(first, back) <==> line == [lines[i]]
    requires DroppedEnd(others, back) <==> rest == Gap(lines, i + 1, i + 1 + n)
    ensures |line + rest| == n + 1
    ensures line + rest == Gap(lines, i, i + 1 + n) <==> DroppedEnd(first + others, back)
  {
    Halves(line, rest, [lines[i]], Gap(lines, i + 1, i + 1 + n));
    DroppedBoth(first, others, back);
  }

  lemma AddedBack(rest: seq<string>, first: seq<Edit>, others: seq<Edit>, back: string)
    requires DroppedEnd(first, back)
    ensures [] + rest == rest && (DroppedEnd(first + others, back) <==> DroppedEnd(others, back))
  {
    DroppedBoth(first, others, back);
  }

  lemma {:induction false} HunkBack(lines: seq<string>, ls: seq<PatchLine>, i: nat, eol: string, back: string)
    requires FitAll(lines, ls, i, true) && i + |Old(ls)| <= |lines|
    ensures |BackHunk(lines, ls, i, back)| == |Old(ls)|
    ensures BackHunk(lines, ls, i, back) == Gap(lines, i, i + |Old(ls)|) <==> DroppedEnd(HunkEdits(lines, ls, i, eol), back)
  {
    if ls != [] {
      var p := ls[0];
      var rest, others := BackHunk(lines, ls[1..], Next(p, i), back), HunkEdits(lines, ls[1..], Next(p, i), eol);
      HunkBack(lines, ls[1..], Next(p, i), eol, back);
      LineBack(lines, p, i, eol, back);
      if p.prefix == Addition {
        AddedBack(rest, LineEdits(lines, p, i, eol), others, back);
      } else {
        OldBack(lines, BackLine(lines, p, i, back), rest, LineEdits(lines, p, i, eol), others, i, |Old(ls[1..])|, back);
      }
    }
  }

  lemma LineBack(lines: seq<string>, p: PatchLine, i: nat, eol: string, back: string)
    requires Fits(lines, p, i, true)
    ensures DroppedEnd(LineEdits(lines, p, i, eol), back)
      <==> BackLine(lines, p, i, back) == (if p.prefix == Addition then [] else [lines[i]])
  {
    var e := LineEdits(lines, p, i, eol);
    if p.prefix == Removal {
      assert e == [Drop(lines[i])] && e[0].line == lines[i] && p.content == Strip(lines[i]);
      assert e[1..] == [];
      assert [p.content + back] == [lines[i]] <==> p.content + back == lines[i] by {
        assert [p.content + back][0] == p.content + back && [lines[i]][0] == lines[i];
      }
    }
  }

  lemma {:induction false} PlanBack(lines: seq<string>, plan: Plan, cursor: nat, eol: string, back: string)
    requires AllMatch(lines, plan, cursor)
    ensures Back(lines, plan, cursor, back) == Tail(lines, cursor) <==> DroppedEnd(Edits(lines, plan, cursor, eol), back)
  {
    match plan
    case Done => KeptNotDropped(Tail(lines, cursor), back);
    case Place(h, i, rest) =>
      PlanBack(lines, rest, After(h, i), eol, back);
      PartBack(lines, h, cursor, i, eol, back);
      TailSplits(lines, cursor, After(h, i));
      Halves(Gap(lines, cursor, i) + BackHunk(lines, h.lines, i, back), Back(lines, rest, After(h, i), back),
        Gap(lines, cursor, After(h, i)), Tail(lines, After(h, i)));
      DroppedBoth(PartEdits(lines, h, cursor, i, eol), Edits(lines, rest, After(h, i), eol), back);
  }

  /** The same lines in front. */
  lemma BehindGap(g: seq<string>, a: seq<string>, b: seq<string>)
    requires |a| == |b|
    ensures |g + a| == |g + b|
    ensures g + a == g + b <==> a == b
  {
    Halves(g, a, g, b);
  }

  lemma PartBack(lines: seq<string>, h: Hunk, cursor: nat, i: nat, eol: string, back: string)
    requires cursor <= i && MatchesAt(lines, h.lines, i)
    ensures |Gap(lines, cursor, i) + BackHunk(lines, h.lines, i, back)| == |Gap(lines, cursor, After(h, i))|
    ensures Gap(lines, cursor, i) + BackHunk(lines, h.lines, i, back) == Gap(lines, cursor, After(h, i))
      <==> DroppedEnd(PartEdits(lines, h, cursor, i, eol), back)
  {
    var g, found := Gap(lines, cursor, i), Gap(lines, i, After(h, i));
    assert i + |Old(h.lines)| <= |lines| by { MatchMeans(lines, h.lines, i); }
    assert |found| == |Old(h.lines)| by { GapStands(lines, i, After(h, i)); }
    assert Gap(lines, cursor, After(h, i)) == g + found by { GapSplits(lines, cursor, i, After(h, i)); }
    HunkBack(lines, h.lines, i, eol, back);
    BehindGap(g, BackHunk(lines, h.lines, i, back), found);
    KeptNotDropped(g, back);
    DroppedBoth(Keeps(g), HunkEdits(lines, h.lines, i, eol), back);
  }

  // ---------- texts ----------

  predicate Every(good: string -> bool, lines: seq<string>) {
    forall i {:trigger lines[i]} :: 0 <= i < |lines| ==> good(lines[i])
  }

  lemma {:induction false} SplitEnded(text: string)
    requires text == "" || text[|text| - 1] == '\n'
    ensures Every(Ended, SplitLines(text))
    decreases |text|
  {
    if text != "" {
      var line := FirstLine(text);
      var rest := text[|line|..];
      assert Ended(line);
      SplitEnded(rest);
      EveryBoth(Ended, [line], SplitLines(rest));
    }
  }

  lemma EveryBoth(good: string -> bool, a: seq<string>, b: seq<string>)
    requires Every(good, a) && Every(good, b)
    ensures Every(good, a + b)
  {
  }

  lemma {:induction false} EveryGap(good: string -> bool, lines: seq<string>, i: nat, j: nat)
    requires Every(good, lines) && i <= j
    ensures Every(good, Gap(lines, i, j))
    decreases j - i
  {
    if i < j && i < |lines| {
      EveryGap(good, lines, i + 1, j);
      EveryBoth(good, [lines[i]], Gap(lines, i + 1, j));
    }
  }

  lemma {:induction false} EveryTail(good: string -> bool, lines: seq<string>, i: nat)
    requires Every(good, lines)
    ensures Every(good, Tail(lines, i))
    decreases |lines| - i
  {
    if i < |lines| {
      EveryTail(good, lines, i + 1);
      EveryBoth(good, [lines[i]], Tail(lines, i + 1));
    }
  }

  /** What hunks can add is good. */
  ghost predicate GoodEol(good: string -> bool, eol: string) {
    forall content: string {:trigger good(content + eol)} :: Content(content) ==> good(content + eol)
  }

  lemma {:induction false} EveryNew(good: string -> bool, lines: seq<string>, ls: seq<PatchLine>, i: nat, eol: string)
    requires Every(good, lines) && Plain(ls) && FitAll(lines, ls, i, true) && GoodEol(good, eol)
    ensures Every(good, New(lines, ls, i, eol))
  {
    if ls != [] {
      PlainRest(ls);
      assert good(ls[0].content + eol);
      EveryNew(good, lines, ls[1..], Next(ls[0], i), eol);
      EveryBoth(good, Piece(lines, ls[0], i, eol), New(lines, ls[1..], Next(ls[0], i), eol));
    }
  }

  /** Good lines and good additions make a good text. */
  lemma {:induction false} EverySplice(good: string -> bool, lines: seq<string>, plan: Plan, cursor: nat, eol: string)
    requires AllMatch(lines, plan, cursor) && Every(good, lines) && AllPlain(plan) && GoodEol(good, eol)
    ensures Every(good, Splice(lines, plan, cursor, eol))
  {
    match plan
    case Done => EveryTail(good, lines, cursor);
    case Place(h, i, rest) =>
      EveryNew(good, lines, h.lines, i, eol);
      EveryGap(good, lines, cursor, i);
      EveryBoth(good, Gap(lines, cursor, i), New(lines, h.lines, i, eol));
      EverySplice(good, lines, rest, After(h, i), eol);
      EveryBoth(good, Part(lines, h, cursor, i, eol), Splice(lines, rest, After(h, i), eol));
  }

  lemma EndedEol(eol: string)
    requires Eol(eol)
    ensures GoodEol(Ended, eol)
  {
    forall content: string | Content(content) ensures Ended(content + eol) { EolStripped(content, eol); }
  }

  /** Different lines make different texts. */
  lemma JoinsApart(a: seq<string>, b: seq<string>)
    requires Every(Ended, a) && Every(Ended, b) && Join(a) == Join(b)
    ensures a == b
  {
    assert forall i :: 0 <= i < |a| ==> Ended(a[i]);
    assert forall i :: 0 <= i < |b| ==> Ended(b[i]);
    SplitOfJoin(a);
    SplitOfJoin(b);
  }

  /** For a text whose lines all end in newlines, with or without carriage returns
      before them, and plain hunks that all match: the reverse of the patch restores
      the text if and only if every removed line has the ending that the patched text
      gives to added lines. */
  lemma EndingsExactly(text: string, hunks: seq<Hunk>)
    requires (text == "" || text[|text| - 1] == '\n') && Result(text, hunks).Applied?
    requires var plan := Landings(SplitLines(text), hunks, 0).value;
      AllMatch(SplitLines(text), plan, 0) && AllPlain(plan)
    ensures var lines, after := SplitLines(text), Result(text, hunks).text;
      var plan := Landings(lines, hunks, 0).value;
      Result(after, HunksOf(Undo(plan, 0, 0))) == Applied(text)
      <==> forall e :: e in Edits(lines, plan, 0, Ending(text)) ==> DropEnds(e, Ending(after))
  {
    var lines, eol := SplitLines(text), Ending(text);
    var plan := Landings(lines, hunks, 0).value;
    var made := Splice(lines, plan, 0, eol);
    var back := Ending(Join(made));
    SplitEnded(text);
    EndedEol(eol);
    EndedEol(back);
    EverySplice(Ended, lines, plan, 0, eol);
    assert forall i :: 0 <= i < |made| ==> Ended(made[i]);
    SplitOfJoin(made);
    UndoLands(lines, plan, made, eol);
    UndoWrites(lines, plan, 0, made, 0, eol, back);
    PlanBack(lines, plan, 0, eol, back);
    DroppedMeans(Edits(lines, plan, 0, eol), back);
    UndoPlain(plan, 0, 0);
    EverySplice(Ended, made, Undo(plan, 0, 0), 0, back);
    TailIsDrop(lines, 0);
    assert lines[0..] == lines;
    if Join(Splice(made, Undo(plan, 0, 0), 0, back)) == text {
      JoinsApart(Splice(made, Undo(plan, 0, 0), 0, back), lines);
    }
  }

  // ---------- carriage returns throughout ----------

  predicate CrLfLine(line: string) { |line| >= 2 && line[|line| - 2] == '\r' && line[|line| - 1] == '\n' }

  lemma {:induction false} OldLine(e: seq<Edit>, k: nat)
    requires k < |e| && !e[k].Add?
    ensures e[k].line in Was(e)
  {
    if k > 0 {
      assert e[1..][k - 1] == e[k];
      OldLine(e[1..], k - 1);
    }
  }

  lemma {:induction false} NewLine(e: seq<Edit>, k: nat)
    requires k < |e| && !e[k].Drop?
    ensures e[k].line in Is(e)
  {
    if k > 0 {
      assert e[1..][k - 1] == e[k];
      NewLine(e[1..], k - 1);
    }
  }

  lemma {:induction false} FirstOld(e: seq<Edit>)
    requires Was(e) != []
    ensures exists k :: 0 <= k < |e| && !e[k].Add?
  {
    if e[0].Add? {
      FirstOld(e[1..]);
      var k :| 0 <= k < |e[1..]| && !e[1..][k].Add?;
      assert e[k + 1] == e[1..][k];
    }
  }

  lemma {:induction false} JoinCrLf(lines: seq<string>)
    requires lines != [] && Every(CrLfLine, lines)
    ensures var text := Join(lines); text != "" && text[|text| - 1] == '\n' && HasCrLf(text)
  {
    var first, rest := lines[0], Join(lines[1..]);
    assert CrLfLine(first);
    if |lines| > 1 { JoinCrLf(lines[1..]); }
    assert (first + rest)[|first| - 1] == '\n' && (first + rest)[|first| - 2] == '\r';
  }

  lemma {:induction false} JoinEmpty(lines: seq<string>)
    requires Join(lines) == ""
    ensures forall line :: line in lines ==> line == ""
  {
    if lines != [] {
      JoinEmpty(lines[1..]);
      assert lines == [lines[0]] + lines[1..];
      assert Join(lines) == lines[0] + Join(lines[1..]);
    }
  }

  lemma CrLfEol()
    ensures GoodEol(CrLfLine, "\r\n")
  {
  }

  /** When nothing is left, a line has been removed. */
  lemma EmptiedDrops(e: seq<Edit>)
    requires Was(e) != [] && Every(CrLfLine, Was(e)) && Join(Is(e)) == ""
    ensures !DroppedEnd(e, "\n")
  {
    FirstOld(e);
    var k :| 0 <= k < |e| && !e[k].Add?;
    OldLine(e, k);
    assert CrLfLine(e[k].line);
    JoinEmpty(Is(e));
    if e[k].Keep? { NewLine(e, k); }
    assert !DropEnds(e[k], "\n") && e[k] in e;
    DroppedMeans(e, "\n");
  }

  lemma CrLfDropped(e: seq<Edit>)
    requires Every(CrLfLine, Was(e))
    ensures DroppedEnd(e, "\r\n")
  {
    DroppedMeans(e, "\r\n");
    forall d | d in e && d.Drop? ensures DropEnds(d, "\r\n") {
      var k :| 0 <= k < |e| && e[k] == d;
      OldLine(e, k);
      assert CrLfLine(d.line) && d.line == d.line[..|d.line| - 2] + d.line[|d.line| - 2..];
    }
  }

  /** A text of lines that all end in carriage return and newline can be restored if
      and only if something of the file is left: emptied, it would be refilled with
      plain newlines. */
  lemma CrLfReversal(text: string, hunks: seq<Hunk>)
    requires text != "" && Every(CrLfLine, SplitLines(text)) && Result(text, hunks).Applied?
    requires var plan := Landings(SplitLines(text), hunks, 0).value;
      AllMatch(SplitLines(text), plan, 0) && AllPlain(plan)
    ensures var plan := Landings(SplitLines(text), hunks, 0).value;
      Result(Result(text, hunks).text, HunksOf(Undo(plan, 0, 0))) == Applied(text) <==> Result(text, hunks).text != ""
  {
    var lines, after := SplitLines(text), Result(text, hunks).text;
    var plan := Landings(lines, hunks, 0).value;
    JoinCrLf(lines);
    EveryLineOnce(text, hunks);
    EndingsExactly(text, hunks);
    DroppedMeans(Edits(lines, plan, 0, "\r\n"), Ending(after));
    CrLfEol();
    EverySplice(CrLfLine, lines, plan, 0, "\r\n");
    var made := Splice(lines, plan, 0, "\r\n");
    if after == "" {
      EmptiedDrops(Edits(lines, plan, 0, "\r\n"));
    } else {
      JoinCrLf(made);
      CrLfDropped(Edits(lines, plan, 0, "\r\n"));
    }
  }
}
