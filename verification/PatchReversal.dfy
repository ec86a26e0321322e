/** Exactly when the reverse of a patch restores a text, whether or not the text
    ends in a newline. */
module PatchReversal {
  import opened Wrappers
  import opened Lines
  import opened PatchApply
  import opened PatchTheorems

  predicate Unterminated(text: string) { text != "" && text[|text| - 1] != '\n' }

  function Terminated(text: string): string { if Unterminated(text) then text + "\n" else text }

  // ---------- lines of which the last newline is missing ----------

  /** The same lines, the last one without its newline. */
  predicate Cut(lines: seq<string>, whole: seq<string>) {
    && |lines| == |whole| > 0
    && lines[..|lines| - 1] == whole[..|whole| - 1]
    && whole[|whole| - 1] == lines[|lines| - 1] + "\n"
  }

  predicate CutOpen(lines: seq<string>, whole: seq<string>) { Cut(lines, whole) && Unterminated(lines[|lines| - 1]) }

  lemma {:induction false} SplitCut(text: string)
    requires Unterminated(text)
    ensures CutOpen(SplitLines(text), SplitLines(text + "\n"))
    decreases |text|
  {
    var line := FirstLine(text);
    var rest := text[|line|..];
    if line == text {
      LoneLine(text);
    } else {
      SplitCut(rest);
      FirstTaken(line, rest);
      var lines, whole := SplitLines(rest), SplitLines(rest + "\n");
      assert SplitLines(text) == [line] + lines;
      assert text == line + rest;
      ConsCut(line, lines, whole);
    }
  }

  lemma LoneLine(text: string)
    requires Unterminated(text) && FirstLine(text) == text
    ensures SplitLines(text) == [text] && SplitLines(text + "\n") == [text + "\n"]
  {
    assert '\n' !in text by { assert text == text[..|text| - 1] + [text[|text| - 1]]; }
    FirstOfWhole(text + "\n", "");
    assert (text + "\n")[..|text|] == text && text + "\n" + "" == text + "\n";
    assert text[|text|..] == "" && (text + "\n")[|text| + 1..] == "" && SplitLines("") == [];
  }

  lemma FirstTaken(line: string, rest: string)
    requires line != "" && line[|line| - 1] == '\n' && '\n' !in line[..|line| - 1]
    ensures SplitLines(line + rest + "\n") == [line] + SplitLines(rest + "\n")
  {
    FirstOfWhole(line, rest + "\n");
    assert line + rest + "\n" == line + (rest + "\n");
    assert (line + rest + "\n")[|line|..] == rest + "\n";
  }

  lemma ConsCut(line: string, lines: seq<string>, whole: seq<string>)
    requires CutOpen(lines, whole)
    ensures CutOpen([line] + lines, [line] + whole)
  {
    assert ([line] + lines)[|lines|] == lines[|lines| - 1] && ([line] + whole)[|whole|] == whole[|whole| - 1];
    assert ([line] + lines)[..|lines|] == [line] + lines[..|lines| - 1];
    assert ([line] + whole)[..|whole|] == [line] + whole[..|whole| - 1];
  }

  /** What hunks are compared with. */
  predicate SameContents(a: seq<string>, b: seq<string>) {
    |a| == |b| && forall i {:trigger a[i]} {:trigger b[i]} :: 0 <= i < |a| ==> Strip(a[i]) == Strip(b[i])
  }

  lemma CutContents(lines: seq<string>, whole: seq<string>)
    requires Cut(lines, whole) && AllWhole(whole)
    ensures SameContents(lines, whole)
  {
    var n := |lines| - 1;
    assert Whole(whole[n]);
    WholeStripped(whole[n]);
    assert whole[n][..|lines[n]|] == lines[n];
    forall i | 0 <= i < |lines| ensures Strip(lines[i]) == Strip(whole[i]) {
      if i < n { assert lines[i] == lines[..n][i] == whole[..n][i]; }
    }
  }

  lemma {:induction false} SameFits(a: seq<string>, b: seq<string>, ls: seq<PatchLine>, i: nat, strict: bool)
    requires SameContents(a, b)
    ensures FitAll(a, ls, i, strict) == FitAll(b, ls, i, strict)
  {
    if ls != [] { SameFits(a, b, ls[1..], if ls[0].prefix == Addition then i else i + 1, strict); }
  }

  lemma SameLanding(a: seq<string>, b: seq<string>, h: Hunk, cursor: nat)
    requires SameContents(a, b)
    ensures Landing(a, h, cursor) == Landing(b, h, cursor)
  {
    forall j: nat ensures MatchesAt(a, h.lines, j) == MatchesAt(b, h.lines, j) { SameFits(a, b, h.lines, j, true); }
    SameFits(a, b, h.lines, cursor, false);
    forall i: nat ensures Lands(a, h, cursor, i) == Lands(b, h, cursor, i) { }
    if i: nat :| Lands(a, h, cursor, i) {
      LandingUnique(a, h, cursor, i);
      LandingUnique(b, h, cursor, i);
    }
  }

  lemma {:induction false} SameLandings(a: seq<string>, b: seq<string>, hunks: seq<Hunk>, cursor: nat)
    requires SameContents(a, b)
    ensures Landings(a, hunks, cursor) == Landings(b, hunks, cursor)
  {
    if hunks != [] {
      SameLanding(a, b, hunks[0], cursor);
      var i := Landing(a, hunks[0], cursor);
      if i.Some? { SameLandings(a, b, hunks[1..], After(hunks[0], i.value)); }
    }
  }

  lemma {:induction false} SameMatch(a: seq<string>, b: seq<string>, plan: Plan, cursor: nat)
    requires SameContents(a, b) && AllMatch(a, plan, cursor)
    ensures AllMatch(b, plan, cursor)
  {
    if plan.Place? {
      SameFits(a, b, plan.hunk.lines, plan.at, true);
      SameMatch(a, b, plan.rest, After(plan.hunk, plan.at));
    }
  }

  // ---------- edits ----------

  predicate Same(e: Edit, f: Edit) { e.Keep? == f.Keep? && e.Drop? == f.Drop? && (e.Add? ==> e == f) }

  /** The same kinds of edits; what is added is the same too. */
  predicate SameKinds(e: seq<Edit>, f: seq<Edit>) {
    |e| == |f| && forall k {:trigger Same(e[k], f[k])} :: 0 <= k < |e| ==> Same(e[k], f[k])
  }

  lemma KindsAppend(a: seq<Edit>, b: seq<Edit>, c: seq<Edit>, d: seq<Edit>)
    requires SameKinds(a, c) && SameKinds(b, d)
    ensures SameKinds(a + b, c + d)
  {
    forall k | 0 <= k < |a + b| ensures Same((a + b)[k], (c + d)[k]) {
      if k < |a| { assert Same(a[k], c[k]); } else { assert Same(b[k - |a|], d[k - |a|]); }
    }
  }

  lemma {:induction false} KeepsKinds(a: seq<string>, b: seq<string>)
    requires |a| == |b|
    ensures SameKinds(Keeps(a), Keeps(b))
  {
    if a != [] {
      KeepsKinds(a[1..], b[1..]);
      assert Same(Keep(a[0]), Keep(b[0]));
      KindsAppend([Keep(a[0])], Keeps(a[1..]), [Keep(b[0])], Keeps(b[1..]));
    }
  }

  lemma {:induction false} GapLength(a: seq<string>, b: seq<string>, i: nat, j: nat)
    requires |a| == |b| && i <= j
    ensures |Gap(a, i, j)| == |Gap(b, i, j)|
    decreases j - i
  {
    if i < j { GapLength(a, b, i + 1, j); }
  }

  lemma {:induction false} TailLength(a: seq<string>, b: seq<string>, i: nat)
    requires |a| == |b|
    ensures |Tail(a, i)| == |Tail(b, i)|
    decreases |a| - i
  {
    if i < |a| { TailLength(a, b, i + 1); }
  }

  lemma {:induction false} HunkKinds(a: seq<string>, b: seq<string>, ls: seq<PatchLine>, i: nat)
    requires |a| == |b|
    ensures SameKinds(HunkEdits(a, ls, i, "\n"), HunkEdits(b, ls, i, "\n"))
  {
    if ls != [] {
      HunkKinds(a, b, ls[1..], Next(ls[0], i));
      var e, f := LineEdits(a, ls[0], i, "\n"), LineEdits(b, ls[0], i, "\n");
      assert e != [] ==> Same(e[0], f[0]);
      KindsAppend(e, HunkEdits(a, ls[1..], Next(ls[0], i), "\n"), f, HunkEdits(b, ls[1..], Next(ls[0], i), "\n"));
    }
  }

  lemma {:induction false} EditsKinds(a: seq<string>, b: seq<string>, plan: Plan, cursor: nat)
    requires |a| == |b| && Ordered(plan, cursor)
    ensures SameKinds(Edits(a, plan, cursor, "\n"), Edits(b, plan, cursor, "\n"))
  {
    match plan
    case Done =>
      TailLength(a, b, cursor);
      KeepsKinds(Tail(a, cursor), Tail(b, cursor));
    case Place(h, i, rest) =>
      GapLength(a, b, cursor, i);
      KeepsKinds(Gap(a, cursor, i), Gap(b, cursor, i));
      HunkKinds(a, b, h.lines, i);
      KindsAppend(Keeps(Gap(a, cursor, i)), HunkEdits(a, h.lines, i, "\n"), Keeps(Gap(b, cursor, i)), HunkEdits(b, h.lines, i, "\n"));
      EditsKinds(a, b, rest, After(h, i));
      KindsAppend(PartEdits(a, h, cursor, i, "\n"), Edits(a, rest, After(h, i), "\n"),
        PartEdits(b, h, cursor, i, "\n"), Edits(b, rest, After(h, i), "\n"));
  }

  /** Edits of the same kinds that touch the same lines are the same. */
  lemma {:induction false} KindsEqual(e: seq<Edit>, f: seq<Edit>)
    requires SameKinds(e, f) && Was(e) == Was(f)
    ensures e == f
  {
    if e != [] {
      assert Same(e[0], f[0]);
      if !e[0].Add? { HeadAndTail(e[0].line, Was(e[1..]), f[0].line, Was(f[1..])); }
      forall k | 0 <= k < |e[1..]| ensures Same(e[1..][k], f[1..][k]) { assert Same(e[k + 1], f[k + 1]); }
      KindsEqual(e[1..], f[1..]);
      assert e == [e[0]] + e[1..] && f == [f[0]] + f[1..];
    }
  }

  /** The last edit keeps a line, which is then the last line of the file. */
  predicate KeepsLast(edits: seq<Edit>) { edits != [] && edits[|edits| - 1].Keep? }

  lemma LastEdit(e: seq<Edit>)
    requires e != []
    ensures var front, last := e[..|e| - 1], e[|e| - 1];
      && Was(e) == Was(front) + (if last.Add? then [] else [last.line])
      && Join(Is(e)) == Join(Is(front)) + (if last.Drop? then "" else last.line)
  {
    var front, last := e[..|e| - 1], e[|e| - 1];
    assert e == front + [last];
    assert [last][1..] == [];
    WasAppend(front, [last]);
    IsAppend(front, [last]);
    assert Join([last.line]) == last.line + "" == last.line;
  }

  predicate EditsWhole(e: seq<Edit>) { forall k {:trigger e[k]} :: 0 <= k < |e| ==> Whole(e[k].line) }

  lemma {:induction false} IsWhole(e: seq<Edit>)
    requires EditsWhole(e)
    ensures AllWhole(Is(e))
  {
    if e != [] {
      assert Whole(e[0].line);
      forall k | 0 <= k < |e[1..]| ensures Whole(e[1..][k].line) { assert e[1..][k] == e[k + 1]; }
      IsWhole(e[1..]);
      OneWhole(e[0].line);
      BothWhole([e[0].line], Is(e[1..]));
    }
  }

  lemma WholeEdited(e: seq<Edit>)
    requires EditsWhole(e)
    ensures WholeText(Join(Is(e)))
  {
    IsWhole(e);
    assert forall i :: 0 <= i < |Is(e)| ==> Whole(Is(e)[i]);
    JoinWhole(Is(e));
  }

  lemma NewlineLast(line: string, k: nat)
    requires Whole(line) && k < |line| && line[k] == '\n'
    ensures k == |line| - 1
  {
    assert forall i :: 0 <= i < |line| - 1 ==> line[i] in line[..|line| - 1];
  }

  /** A whole line behind a text, with or without a newline between them. */
  lemma GluedWhole(t: string, line: string)
    requires WholeText(t) || WholeText(t + "\n")
    requires Whole(line)
    ensures WholeText(t + line)
  {
    var both := t + line;
    assert both[|both| - 1] == line[|line| - 1];
    forall i | 0 < i < |both| && both[i] == '\n' ensures both[i - 1] != '\r' {
      if i < |t| {
        assert both[i] == t[i] == (t + "\n")[i] && both[i - 1] == t[i - 1] == (t + "\n")[i - 1];
      } else if i == |t| {
        assert both[i - 1] == t[i - 1];
        assert WholeText(t) ==> t[|t| - 1] == '\n';
        assert WholeText(t + "\n") ==> (t + "\n")[|t|] == '\n' && (t + "\n")[|t| - 1] != '\r';
      } else {
        assert both[i] == line[i - |t|] && both[i - 1] == line[i - |t| - 1];
        NewlineLast(line, i - |t|);
      }
    }
  }

  /** Edits of a text without its last newline, beside the same edits of the text
      with it: the missing newline goes on missing exactly if the last line is kept
      last; otherwise every line of the new text ends in one. */
  lemma {:induction false} CutEdits(e: seq<Edit>, f: seq<Edit>, front: seq<string>, last: string)
    requires SameKinds(e, f) && EditsWhole(f)
    requires Was(e) == front + [last] && Was(f) == front + [last + "\n"]
    ensures if KeepsLast(f) then Join(Is(e)) + "\n" == Join(Is(f)) else WholeText(Join(Is(e)))
    decreases |f|
  {
    var m := |f| - 1;
    LastEdit(e);
    LastEdit(f);
    SameFront(e, f);
    var a, b := e[..m], f[..m];
    if f[m].Add? {
      assert Was(a) + [] == Was(a) && Was(b) + [] == Was(b);
      CutEdits(a, b, front, last);
      AddBehind(Join(Is(a)), b, f[m].line);
    } else {
      LastTwo(Was(a), e[m].line, front, last);
      LastTwo(Was(b), f[m].line, front, last + "\n");
      CutLast(a, last, b);
    }
  }

  lemma CutLines(e: seq<Edit>, f: seq<Edit>, lines: seq<string>, whole: seq<string>)
    requires SameKinds(e, f) && EditsWhole(f) && Was(e) == lines && Was(f) == whole && Cut(lines, whole)
    ensures if KeepsLast(f) then Join(Is(e)) + "\n" == Join(Is(f)) else WholeText(Join(Is(e)))
  {
    var n := |lines| - 1;
    assert lines == lines[..n] + [lines[n]] && whole == whole[..n] + [whole[n]];
    CutEdits(e, f, lines[..n], lines[n]);
  }

  lemma LastTwo(a: seq<string>, x: string, b: seq<string>, y: string)
    requires a + [x] == b + [y]
    ensures a == b && x == y
  {
    assert a == (a + [x])[..|a|] && b == (b + [y])[..|b|];
    assert (a + [x])[|a|] == x && (b + [y])[|b|] == y;
  }

  lemma AddBehind(t: string, f: seq<Edit>, line: string)
    requires EditsWhole(f) && Whole(line)
    requires if KeepsLast(f) then t + "\n" == Join(Is(f)) else WholeText(t)
    ensures WholeText(t + line)
  {
    WholeEdited(f);
    GluedWhole(t, line);
  }

  lemma SameFront(e: seq<Edit>, f: seq<Edit>)
    requires SameKinds(e, f) && f != []
    ensures SameKinds(e[..|f| - 1], f[..|f| - 1]) && Same(e[|f| - 1], f[|f| - 1])
  {
    var m := |f| - 1;
    assert Same(e[m], f[m]);
    forall k | 0 <= k < m ensures Same(e[..m][k], f[..m][k]) { assert Same(e[k], f[k]); }
  }

  lemma CutLast(e: seq<Edit>, line: string, f: seq<Edit>)
    requires SameKinds(e, f) && Was(e) == Was(f) && EditsWhole(f)
    ensures WholeText(Join(Is(e)) + "")
    ensures (Join(Is(e)) + line) + "\n" == Join(Is(f)) + (line + "\n")
  {
    KindsEqual(e, f);
    WholeEdited(f);
    assert Join(Is(e)) + "" == Join(Is(e));
  }

  lemma WholeAppend(a: seq<Edit>, b: seq<Edit>)
    requires EditsWhole(a) && EditsWhole(b)
    ensures EditsWhole(a + b)
  {
    forall k | 0 <= k < |a + b| ensures Whole((a + b)[k].line) {
      if k < |a| { assert Whole(a[k].line); } else { assert Whole(b[k - |a|].line); }
    }
  }

  lemma {:induction false} KeepsWhole(lines: seq<string>)
    requires AllWhole(lines)
    ensures EditsWhole(Keeps(lines))
  {
    if lines != [] {
      assert Whole(lines[0]);
      forall i | 0 <= i < |lines[1..]| ensures Whole(lines[1..][i]) { assert Whole(lines[i + 1]); }
      KeepsWhole(lines[1..]);
      WholeAppend([Keep(lines[0])], Keeps(lines[1..]));
    }
  }

  lemma {:induction false} HunkEditsWhole(lines: seq<string>, ls: seq<PatchLine>, i: nat)
    requires AllWhole(lines) && Plain(ls)
    ensures EditsWhole(HunkEdits(lines, ls, i, "\n"))
  {
    if ls != [] {
      PlainRest(ls);
      HunkEditsWhole(lines, ls[1..], Next(ls[0], i));
      assert i < |lines| ==> Whole(lines[i]);
      ContentStripped(ls[0].content);
      WholeAppend(LineEdits(lines, ls[0], i, "\n"), HunkEdits(lines, ls[1..], Next(ls[0], i), "\n"));
    }
  }

  lemma {:induction false} EditsWholeOf(lines: seq<string>, plan: Plan, cursor: nat)
    requires AllWhole(lines) && AllPlain(plan) && Ordered(plan, cursor)
    ensures EditsWhole(Edits(lines, plan, cursor, "\n"))
  {
    match plan
    case Done =>
      TailWhole(lines, cursor);
      KeepsWhole(Tail(lines, cursor));
    case Place(h, i, rest) =>
      GapWhole(lines, cursor, i);
      KeepsWhole(Gap(lines, cursor, i));
      HunkEditsWhole(lines, h.lines, i);
      WholeAppend(Keeps(Gap(lines, cursor, i)), HunkEdits(lines, h.lines, i, "\n"));
      EditsWholeOf(lines, rest, After(h, i));
      WholeAppend(PartEdits(lines, h, cursor, i, "\n"), Edits(lines, rest, After(h, i), "\n"));
  }

  // ---------- the reverse plan ----------

  lemma {:induction false} SameHunksPlain(a: Plan, b: Plan)
    requires HunksOf(a) == HunksOf(b) && AllPlain(a)
    ensures AllPlain(b)
  {
    if b.Place? {
      assert HunksOf(a)[0] == HunksOf(b)[0] && HunksOf(a)[1..] == HunksOf(b)[1..];
      assert HunksOf(a.rest) == HunksOf(a)[1..] && HunksOf(b.rest) == HunksOf(b)[1..];
      SameHunksPlain(a.rest, b.rest);
    }
  }

  /** Nothing is edited from the cursor on. */
  predicate Silent(plan: Plan, cursor: nat, n: nat) {
    match plan
    case Done => cursor >= n
    case Place(h, i, rest) => i == cursor && h.lines == [] && Silent(rest, cursor, n)
  }

  /** The last of `n` lines is kept last. */
  predicate KeepsEnd(plan: Plan, cursor: nat, n: nat)
    requires Ordered(plan, cursor)
  {
    match plan
    case Done => cursor < n
    case Place(h, i, rest) =>
      if Silent(rest, After(h, i), n) then
        if h.lines == [] then cursor < i else h.lines[|h.lines| - 1].prefix == Context
      else KeepsEnd(rest, After(h, i), n)
  }

  lemma KeepsLastOf(a: seq<Edit>, b: seq<Edit>)
    ensures KeepsLast(a + b) <==> if b == [] then KeepsLast(a) else KeepsLast(b)
  {
    if b == [] { assert a + b == a; }
  }

  lemma {:induction false} KeepsEmpty(lines: seq<string>)
    ensures |Keeps(lines)| == |lines| && (KeepsLast(Keeps(lines)) <==> lines != [])
  {
    if lines != [] {
      KeepsEmpty(lines[1..]);
      KeepsLastOf([Keep(lines[0])], Keeps(lines[1..]));
    }
  }

  lemma {:induction false} HunkLast(lines: seq<string>, ls: seq<PatchLine>, i: nat)
    requires FitAll(lines, ls, i, true)
    ensures var e := HunkEdits(lines, ls, i, "\n");
      |e| == |ls| && (KeepsLast(e) <==> ls != [] && ls[|ls| - 1].prefix == Context)
  {
    if ls != [] {
      HunkLast(lines, ls[1..], Next(ls[0], i));
      KeepsLastOf(LineEdits(lines, ls[0], i, "\n"), HunkEdits(lines, ls[1..], Next(ls[0], i), "\n"));
    }
  }

  lemma {:induction false} EndMeans(lines: seq<string>, plan: Plan, cursor: nat)
    requires AllMatch(lines, plan, cursor) && cursor <= |lines|
    ensures var e := Edits(lines, plan, cursor, "\n");
      (e == [] <==> Silent(plan, cursor, |lines|)) && (KeepsLast(e) <==> KeepsEnd(plan, cursor, |lines|))
  {
    match plan
    case Done =>
      KeepsEmpty(Tail(lines, cursor));
      TailStands(lines, cursor);
    case Place(h, i, rest) =>
      MatchMeans(lines, h.lines, i);
      GapStands(lines, cursor, i);
      KeepsEmpty(Gap(lines, cursor, i));
      HunkLast(lines, h.lines, i);
      KeepsLastOf(Keeps(Gap(lines, cursor, i)), HunkEdits(lines, h.lines, i, "\n"));
      EndMeans(lines, rest, After(h, i));
      KeepsLastOf(PartEdits(lines, h, cursor, i, "\n"), Edits(lines, rest, After(h, i), "\n"));
  }

  lemma {:induction false} SwapLast(ls: seq<PatchLine>)
    ensures |Swap(ls)| == |ls|
    ensures ls != [] ==> (Swap(ls)[|ls| - 1].prefix == Context <==> ls[|ls| - 1].prefix == Context)
  {
    if ls != [] { SwapLast(ls[1..]); }
  }

  /** As many lines are left behind the last hunk on both sides. */
  predicate SameRest(plan: Plan, cursor: nat, n: nat, q: nat, m: nat)
    requires Ordered(plan, cursor)
  {
    match plan
    case Done => cursor < n <==> q < m
    case Place(h, i, rest) => SameRest(rest, After(h, i), n, q + (i - cursor) + NewCount(h.lines), m)
  }

  lemma {:induction false} WrittenRest(lines: seq<string>, plan: Plan, cursor: nat, after: seq<string>, q: nat)
    requires Ordered(plan, cursor) && AllWritten(lines, plan, cursor, after, q)
    ensures SameRest(plan, cursor, |lines|, q, |after|)
  {
    if plan.Place? {
      WrittenRest(lines, plan.rest, After(plan.hunk, plan.at), after, q + (plan.at - cursor) + NewCount(plan.hunk.lines));
    } else {
      assert q < |after| <==> Tail(after, q) != [];
      assert cursor < |lines| <==> Tail(lines, cursor) != [];
    }
  }

  lemma {:induction false} UndoSilent(plan: Plan, cursor: nat, n: nat, q: nat, m: nat)
    requires Ordered(plan, cursor) && SameRest(plan, cursor, n, q, m)
    ensures Silent(Undo(plan, cursor, q), q, m) <==> Silent(plan, cursor, n)
  {
    if plan.Place? {
      SwapCounts(plan.hunk.lines);
      SwapLast(plan.hunk.lines);
      UndoSilent(plan.rest, After(plan.hunk, plan.at), n, q + (plan.at - cursor) + NewCount(plan.hunk.lines), m);
    }
  }

  lemma {:induction false} UndoEnds(plan: Plan, cursor: nat, n: nat, q: nat, m: nat)
    requires Ordered(plan, cursor) && SameRest(plan, cursor, n, q, m)
    ensures KeepsEnd(Undo(plan, cursor, q), q, m) <==> KeepsEnd(plan, cursor, n)
  {
    if plan.Place? {
      var next := q + (plan.at - cursor) + NewCount(plan.hunk.lines);
      SwapCounts(plan.hunk.lines);
      SwapLast(plan.hunk.lines);
      UndoSilent(plan.rest, After(plan.hunk, plan.at), n, next, m);
      UndoEnds(plan.rest, After(plan.hunk, plan.at), n, next, m);
    }
  }

  // ---------- texts ----------

  /** A text of whole lines stays one under hunks without no-newline marks. */
  lemma WholeStays(text: string, hunks: seq<Hunk>, like: Plan)
    requires WholeText(text) && Result(text, hunks).Applied? && HunksOf(like) == hunks && AllPlain(like)
    ensures WholeText(Result(text, hunks).text)
  {
    var lines := SplitLines(text);
    var plan := Landings(lines, hunks, 0).value;
    LandingsOf(lines, hunks, 0);
    SameHunksPlain(like, plan);
    LandingsOrdered(lines, hunks, 0);
    EveryLineOnce(text, hunks);
    assert !HasCrLf(text);
    SplitWhole(text);
    AllWholeOf(lines);
    EditsWholeOf(lines, plan, 0);
    WholeEdited(Edits(lines, plan, 0, "\n"));
  }

  /** What a patch makes of a text without its last newline. */
  lemma CutResult(text: string, hunks: seq<Hunk>, plan: Plan)
    requires Unterminated(text) && WholeText(text + "\n") && AllPlain(plan)
    requires Landings(SplitLines(text + "\n"), hunks, 0) == Some(plan) && AllMatch(SplitLines(text + "\n"), plan, 0)
    ensures Landings(SplitLines(text), hunks, 0) == Some(plan)
    ensures Result(text, hunks).Applied? && Result(text + "\n", hunks).Applied?
    ensures if KeepsEnd(plan, 0, |SplitLines(text + "\n")|)
            then Unterminated(Result(text, hunks).text) && Result(text, hunks).text + "\n" == Result(text + "\n", hunks).text
            else WholeText(Result(text, hunks).text)
  {
    var lines, whole := SplitLines(text), SplitLines(text + "\n");
    SplitWhole(text + "\n");
    AllWholeOf(whole);
    SplitCut(text);
    CutContents(lines, whole);
    SameLandings(lines, whole, hunks, 0);
    assert !HasCrLf(text + "\n");
    assert !HasCrLf(text) by {
      assert forall i :: 0 <= i < |text| ==> (text + "\n")[i] == text[i];
    }
    EveryLineOnce(text, hunks);
    EveryLineOnce(text + "\n", hunks);
    EditsKinds(lines, whole, plan, 0);
    EditsWholeOf(whole, plan, 0);
    CutLines(Edits(lines, plan, 0, "\n"), Edits(whole, plan, 0, "\n"), lines, whole);
    EndMeans(whole, plan, 0);
    if KeepsEnd(plan, 0, |whole|) { KeptLine(Edits(lines, plan, 0, "\n"), Edits(whole, plan, 0, "\n"), lines); }
  }

  lemma KeptLine(e: seq<Edit>, f: seq<Edit>, lines: seq<string>)
    requires SameKinds(e, f) && KeepsLast(f) && Was(e) == lines != [] && Unterminated(lines[|lines| - 1])
    ensures Unterminated(Join(Is(e)))
  {
    var m := |e| - 1;
    assert Same(e[m], f[m]);
    LastEdit(e);
    assert e[m].line == lines[|lines| - 1];
    var front, line := Join(Is(e[..m])), e[m].line;
    assert (front + line)[|front + line| - 1] == line[|line| - 1];
  }

  lemma NotCut(text: string, whole: string)
    requires Unterminated(text) && WholeText(whole)
    ensures text != whole
  {
  }

  /** The last edit keeps a line. */
  ghost predicate LastKept(text: string, plan: Plan)
    requires Ordered(plan, 0)
  {
    KeepsLast(Edits(SplitLines(text), plan, 0, "\n"))
  }

  /** The text has its last newline, or else the last line is kept last: that is
      when the reverse of a patch restores the text, for texts without carriage
      returns before a newline or at the end, and plain hunks that all match.
      Removing an unterminated last line, or adding behind it, cannot be undone. */
  lemma ReversalExactly(text: string, hunks: seq<Hunk>)
    requires WholeText(Terminated(text)) && Result(text, hunks).Applied?
    requires var plan := Landings(SplitLines(text), hunks, 0).value;
      AllMatch(SplitLines(text), plan, 0) && AllPlain(plan)
    ensures var plan := Landings(SplitLines(text), hunks, 0).value;
      Result(Result(text, hunks).text, HunksOf(Undo(plan, 0, 0))) == Applied(text)
      <==> text == "" || text[|text| - 1] == '\n' || LastKept(text, plan)
  {
    if Unterminated(text) {
      CutReversal(text, hunks, Landings(SplitLines(text), hunks, 0).value);
    } else {
      ReverseRestores(text, hunks);
    }
  }

  lemma CutReversal(text: string, hunks: seq<Hunk>, plan: Plan)
    requires Unterminated(text) && WholeText(text + "\n") && Landings(SplitLines(text), hunks, 0) == Some(plan)
    requires AllMatch(SplitLines(text), plan, 0) && AllPlain(plan)
    ensures Result(text, hunks).Applied?
    ensures Result(Result(text, hunks).text, HunksOf(Undo(plan, 0, 0))) == Applied(text) <==> LastKept(text, plan)
  {
    var lines, whole := SplitLines(text), SplitLines(text + "\n");
    SplitWhole(text + "\n");
    AllWholeOf(whole);
    SplitCut(text);
    CutContents(lines, whole);
    SameLandings(lines, whole, hunks, 0);
    SameMatch(lines, whole, plan, 0);
    CutResult(text, hunks, plan);
    EndMeans(lines, plan, 0);
    if LastKept(text, plan) {
      KeptRestores(text, hunks, plan);
    } else {
      var undo := Undo(plan, 0, 0);
      UndoPlain(plan, 0, 0);
      if Result(Result(text, hunks).text, HunksOf(undo)).Applied? {
        WholeStays(Result(text, hunks).text, HunksOf(undo), undo);
        NotCut(text, Result(Result(text, hunks).text, HunksOf(undo)).text);
      }
    }
  }

  lemma KeptRestores(text: string, hunks: seq<Hunk>, plan: Plan)
    requires Unterminated(text) && WholeText(text + "\n") && AllPlain(plan)
    requires var whole := SplitLines(text + "\n");
      Landings(whole, hunks, 0) == Some(plan) && AllMatch(whole, plan, 0) && KeepsEnd(plan, 0, |whole|)
    requires Result(text, hunks).Applied? && Unterminated(Result(text, hunks).text)
    requires Result(text, hunks).text + "\n" == Result(text + "\n", hunks).text
    ensures Result(Result(text, hunks).text, HunksOf(Undo(plan, 0, 0))) == Applied(text)
  {
    var whole, undo := SplitLines(text + "\n"), Undo(plan, 0, 0);
    var after := Splice(whole, plan, 0, "\n");
    var cut := Result(text, hunks).text;
    SplitWhole(text + "\n");
    AllWholeOf(whole);
    SpliceWhole(whole, plan, 0);
    WrittenWhole(text + "\n", hunks, plan);
    UndoOfLines(whole, plan, after);
    WrittenRest(whole, plan, 0, after, 0);
    UndoEnds(plan, 0, |whole|, 0, |after|);
    UndoPlain(plan, 0, 0);
    ReverseRestores(text + "\n", hunks);
    CutResult(cut, HunksOf(undo), undo);
    assert Result(cut, HunksOf(undo)).text + "\n" == text + "\n";
    SameBefore(Result(cut, HunksOf(undo)).text, text);
  }

  lemma SameBefore(a: string, b: string)
    requires a + "\n" == b + "\n"
    ensures a == b
  {
    assert a == (a + "\n")[..|a|] && b == (b + "\n")[..|b|];
  }
}
