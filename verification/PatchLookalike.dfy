/** Exactly which printed patches are read back: those whose hunk lines are not
    taken for anything else. What is read is weighed against what was printed. */
module PatchLookalike {
  import opened Wrappers
  import opened Text
  import opened PatchApply
  import opened PatchParse
  import opened PatchPrint
  import opened PatchRoundTrip
  import opened PatchRoundTripFiles
  import opened PatchRoundTripText

  // ---------- what a parsed patch weighs ----------

  /** The characters of all hunk lines, prefixes included. */
  function LinesWeight(ls: seq<PatchLine>): nat {
    if ls == [] then 0 else 1 + |ls[0].content| + LinesWeight(ls[1..])
  }

  function HunksWeight(hs: seq<Hunk>): nat {
    if hs == [] then 0 else LinesWeight(hs[0].lines) + HunksWeight(hs[1..])
  }

  function FilesWeight(fs: seq<FilePatch>): nat {
    if fs == [] then 0 else HunksWeight(fs[0].hunks) + FilesWeight(fs[1..])
  }

  function Weight(p: Parsing): nat {
    FilesWeight(p.files) + (if p.current.Some? then HunksWeight(p.current.value.hunks) else 0)
      + (if p.hunk.Some? then LinesWeight(p.hunk.value.lines) else 0)
  }

  lemma {:induction false} LinesAppend(ls: seq<PatchLine>, l: PatchLine)
    ensures LinesWeight(ls + [l]) == LinesWeight(ls) + 1 + |l.content|
  {
    if ls == [] {
      assert [] + [l] == [l];
    } else {
      assert (ls + [l])[0] == ls[0] && (ls + [l])[1..] == ls[1..] + [l];
      LinesAppend(ls[1..], l);
    }
  }

  lemma {:induction false} HunksAppend(hs: seq<Hunk>, h: Hunk)
    ensures HunksWeight(hs + [h]) == HunksWeight(hs) + LinesWeight(h.lines)
  {
    if hs == [] {
      assert [] + [h] == [h];
    } else {
      assert (hs + [h])[0] == hs[0] && (hs + [h])[1..] == hs[1..] + [h];
      HunksAppend(hs[1..], h);
    }
  }

  lemma {:induction false} FilesAppend(fs: seq<FilePatch>, f: FilePatch)
    ensures FilesWeight(fs + [f]) == FilesWeight(fs) + HunksWeight(f.hunks)
  {
    if fs == [] {
      assert [] + [f] == [f];
    } else {
      assert (fs + [f])[0] == fs[0] && (fs + [f])[1..] == fs[1..] + [f];
      FilesAppend(fs[1..], f);
    }
  }

  lemma FinishHunkWeighs(p: Parsing)
    ensures Weight(FinishHunk(p)) <= Weight(p) && FinishHunk(p).hunk.None?
  {
    if p.hunk.Some? && p.current.Some? { HunksAppend(p.current.value.hunks, p.hunk.value); }
  }

  lemma FinishFileWeighs(p: Parsing)
    ensures FilesWeight(FinishFile(p).files) == Weight(FinishFile(p)) <= Weight(p)
  {
    FinishHunkWeighs(p);
    var q := FinishHunk(p);
    if q.current.Some? { FilesAppend(q.files, q.current.value); }
  }

  lemma {:induction false} MarkWeighs(ls: seq<PatchLine>)
    ensures LinesWeight(MarkLast(ls)) == LinesWeight(ls)
  {
    if ls != [] {
      var n := |ls| - 1;
      LinesAppend(ls[..n], ls[n]);
      LinesAppend(ls[..n], ls[n].(noNewline := true));
      assert ls == ls[..n] + [ls[n]];
    }
  }

  // ---------- what a turn can add ----------

  /** A header adds nothing, any other line no more than its characters without a
      carriage return at the end. */
  function Cost(line: string): nat {
    if KindOf(WithoutCr(line)) == Other then |WithoutCr(line)| else 0
  }

  function CostOf(line: string, kind: Kind): nat { if kind == Other then |line| else 0 }

  lemma TurnAdds(norm: Paths, p: Parsing, line: string, kind: Kind, last: bool)
    ensures var r := Act(norm, p, line, kind, last);
      r.Good? ==> Weight(r.value) <= Weight(p) + CostOf(line, kind)
  {
    if kind == Git {
      FinishFileWeighs(p);
    } else if p.current.Some? {
      if kind == Range_ {
        FinishHunkWeighs(p);
      } else if p.hunk.Some? {
        HunkTurnAdds(p, p.current.value, p.hunk.value, line, kind, last);
      }
    }
  }

  lemma HunkTurnAdds(p: Parsing, f: FilePatch, h: Hunk, line: string, kind: Kind, last: bool)
    requires p.current == Some(f) && p.hunk == Some(h)
    ensures var r := InHunk(p, f, h, line, kind, last);
      (kind == Marker || kind == Other) && r.Good? ==> Weight(r.value) <= Weight(p) + CostOf(line, kind)
  {
    MarkWeighs(h.lines);
    if line != "" && PrefixOf(line[0]).Some? {
      LinesAppend(h.lines, PatchLine(PrefixOf(line[0]).value, line[1..], false));
    }
  }

  function TotalCost(lines: seq<string>): nat {
    if lines == [] then 0 else Cost(lines[0]) + TotalCost(lines[1..])
  }

  lemma {:induction false} CostAppend(a: seq<string>, b: seq<string>)
    ensures TotalCost(a + b) == TotalCost(a) + TotalCost(b)
  {
    if a == [] {
      assert a + b == b;
    } else {
      assert (a + b)[0] == a[0] && (a + b)[1..] == a[1..] + b;
      CostAppend(a[1..], b);
    }
  }

  lemma {:induction false} LoopAdds(norm: Paths, p: Parsing, lines: seq<string>)
    ensures var r := AllLines(norm, p, lines);
      r.Good? ==> Weight(r.value) <= Weight(p) + TotalCost(lines)
    decreases |lines|
  {
    if lines != [] {
      var q := OneLine(norm, p, lines[0], |lines| == 1);
      TurnAdds(norm, p, WithoutCr(lines[0]), KindOf(WithoutCr(lines[0])), |lines| == 1);
      if q.Good? { LoopAdds(norm, q.value, lines[1..]); }
    }
  }

  // ---------- what was printed costs ----------

  /** A hunk line costs what it weighs, or less if it is not plain. */
  lemma LineCost(line: string)
    requires RoughLine(line) && line != ""
    ensures Cost(line) <= |line| && (!HunkLine(line) ==> Cost(line) < |line|)
  {
    if line[|line| - 1] != '\r' && !HunkLine(line) {
      NoKeyword(line);
    }
  }

  lemma {:induction false} ShownCost(lines: seq<string>)
    requires RoughLines(lines)
    ensures var w := LinesWeight(Readings(Shown(lines)));
      TotalCost(Shown(lines)) <= w && (!PlainLines(lines) ==> TotalCost(Shown(lines)) < w)
  {
    if lines != [] {
      var line := if lines[0] == "" then " " else lines[0];
      ShownCost(lines[1..]);
      LineCost(line);
      assert Shown(lines) == [line] + Shown(lines[1..]);
      assert Readings(Shown(lines))[1..] == Readings(Shown(lines[1..]));
    }
  }

  lemma HeaderCost(r: Hunk)
    ensures Cost(Header(r)) == 0
  {
    RangeKind(RangeText(r));
    RangeTextEnds(r);
  }

  lemma {:induction false} HunksCost(hs: seq<SourceHunk>, create: bool)
    requires RoughHunks(hs)
    ensures var w := HunksWeight(ReadHunks(hs, create));
      TotalCost(PrintHunks(hs, create)) <= w && (!PlainHunks(hs) ==> TotalCost(PrintHunks(hs, create)) < w)
  {
    if hs != [] {
      var header, shown := Header(HunkRange(hs[0], create)), Shown(hs[0].lines);
      HeaderCost(HunkRange(hs[0], create));
      ShownCost(hs[0].lines);
      HunksCost(hs[1..], create);
      CostAppend([header] + shown, PrintHunks(hs[1..], create));
      CostAppend([header], shown);
      OneCost(header);
    }
  }

  lemma OneCost(line: string)
    ensures TotalCost([line]) == Cost(line)
  {
    assert [line][1..] == [];
  }

  lemma GitCost(path: string)
    requires path != "" && forall i :: 0 <= i < |path| ==> PlainChar(path[i])
    ensures Cost("diff --git " + ("a/" + path + " " + ("b/" + path))) == 0
  {
    var git := "diff --git " + ("a/" + path + " " + ("b/" + path));
    GitKind("a/" + path + " " + ("b/" + path));
    PlainEnd(git, path);
  }

  lemma NewNameCost(path: string)
    requires path != "" && forall i :: 0 <= i < |path| ==> PlainChar(path[i])
    ensures Cost("+++ b/" + path) == 0
  {
    var line := "+++ b/" + path;
    assert line == "+++ " + ("b/" + path);
    NewNameKind("b/" + path);
    PlainEnd(line, path);
  }

  lemma OldNameCost(path: string)
    requires path != "" && forall i :: 0 <= i < |path| ==> PlainChar(path[i])
    ensures Cost("--- a/" + path) == 0
  {
    var line := "--- a/" + path;
    assert line == "--- " + ("a/" + path);
    OldNameKind("a/" + path);
    PlainEnd(line, path);
  }

  lemma NullText(tail: string)
    requires tail == "/dev/null"
    ensures "--- " + tail == "--- /dev/null"
  {
  }

  lemma NullCost(tail: string)
    requires tail == "/dev/null"
    ensures Cost("--- /dev/null") == 0
  {
    NullText(tail);
    OldNameKind(tail);
    assert ("--- " + tail)[|"--- " + tail| - 1] == tail[|tail| - 1];
  }

  lemma ModeCost()
    ensures Cost("new file mode 100644") == 0
  {
    NewFileKind();
  }

  lemma {:induction false} NothingCosts(lines: seq<string>)
    requires forall i :: 0 <= i < |lines| ==> Cost(lines[i]) == 0
    ensures TotalCost(lines) == 0
  {
    if lines != [] { NothingCosts(lines[1..]); }
  }

  lemma ThreeFree(a: string, b: string, c: string)
    requires Cost(a) == 0 && Cost(b) == 0 && Cost(c) == 0
    ensures TotalCost([a, b, c]) == 0
  {
    NothingCosts([a, b, c]);
  }

  lemma FourFree(a: string, b: string, c: string, d: string)
    requires Cost(a) == 0 && Cost(b) == 0 && Cost(c) == 0 && Cost(d) == 0
    ensures TotalCost([a, b, c, d]) == 0
  {
    NothingCosts([a, b, c, d]);
  }

  lemma CreateHeadCost(path: string)
    requires PlainPath(path)
    ensures TotalCost(PrintHead(path, true)) == 0
  {
    GitCost(path);
    ModeCost();
    NullCost("/dev/null");
    NewNameCost(path);
    FourFree("diff --git " + ("a/" + path + " " + ("b/" + path)), "new file mode 100644", "--- /dev/null", "+++ b/" + path);
  }

  lemma UpdateHeadCost(path: string)
    requires PlainPath(path)
    ensures TotalCost(PrintHead(path, false)) == 0
  {
    GitCost(path);
    OldNameCost(path);
    NewNameCost(path);
    ThreeFree("diff --git " + ("a/" + path + " " + ("b/" + path)), "--- a/" + path, "+++ b/" + path);
  }

  lemma HeadCost(path: string, create: bool)
    requires PlainPath(path)
    ensures TotalCost(PrintHead(path, create)) == 0
  {
    if create { CreateHeadCost(path); } else { UpdateHeadCost(path); }
  }

  lemma {:induction false} FilesCost(files: seq<Source>)
    requires RoughFiles(files)
    ensures PrintFiles(files).Good?
    ensures var cost, w := TotalCost(PrintFiles(files).value), FilesWeight(ReadFiles(files));
      cost <= w && (!PlainFiles(files) ==> cost < w)
  {
    if files != [] {
      var f, create := files[0], files[0].operation == Create;
      assert RoughFile(f);
      FilesCost(files[1..]);
      HeadCost(f.relPath, create);
      HunksCost(f.hunks, create);
      CostAppend(PrintHead(f.relPath, create), PrintHunks(f.hunks, create));
      CostAppend(PrintFile(f), PrintFiles(files[1..]).value);
      PlainSplit(files);
    }
  }

  lemma PlainSplit(files: seq<Source>)
    requires files != []
    ensures PlainFile(files[0]) && PlainFiles(files[1..]) ==> PlainFiles(files)
  {
    if PlainFile(files[0]) && PlainFiles(files[1..]) {
      forall i | 0 <= i < |files| ensures PlainFile(files[i]) { assert i > 0 ==> PlainFile(files[1..][i - 1]); }
    }
  }

  // ---------- what is answered ----------

  function FilesIn(answers: seq<Parsed>): seq<FilePatch> {
    if answers == [] then [] else [answers[0].file] + FilesIn(answers[1..])
  }

  lemma {:induction false} AllowKeeps(files: seq<FilePatch>, denied: string -> bool)
    ensures Allow(files, denied).Good? ==> FilesIn(Allow(files, denied).value) == files
  {
    if files != [] {
      AllowKeeps(files[1..], denied);
      if Allow(files, denied).Good? {
        assert Allow(files, denied).value[1..] == Allow(files[1..], denied).value;
      }
    }
  }

  lemma {:induction false} AnswersIn(files: seq<Source>)
    ensures FilesIn(Answers(files)) == ReadFiles(files)
  {
    if files != [] {
      AnswersIn(files[1..]);
      assert Answers(files)[1..] == Answers(files[1..]);
    }
  }

  lemma AnswerWeighs(patch: string, denied: string -> bool, answers: seq<Parsed>)
    requires ParseText(patch, denied) == Good(answers)
    ensures FilesWeight(FilesIn(answers)) <= TotalCost(SplitNewlines(patch))
  {
    var p := AllLines(NormalizePath, Start, SplitNewlines(patch)).value;
    LoopAdds(NormalizePath, Start, SplitNewlines(patch));
    FinishFileWeighs(p);
    AllowKeeps(FinishFile(p).files, denied);
  }

  /** Of the structured patches with plain allowed paths, no deletions and within
      the caps, whatever their hunk lines, those are read back as they were printed
      of which every hunk line is plain. A lookalike of a file header or of a bare
      range header is no hunk line when it is read, and a line that ends in a
      carriage return loses it. */
  lemma PlainExactly(files: seq<Source>, denied: string -> bool)
    requires files != [] && RoughFiles(files) && forall f :: f in files ==> !denied(f.relPath)
    requires |files| <= MAX_FILES && TotalHunks(ReadFiles(files)) <= MAX_HUNKS
    requires TotalChanged(ReadFiles(files)) <= MAX_LINES_CHANGED
    requires Print(files).Good? ==> |Print(files).value| <= MAX_TEXT_CHARS && !BinaryMarked(Print(files).value)
    ensures Print(files).Good?
    ensures ParseText(Print(files).value, denied) == Good(Answers(files)) <==> PlainFiles(files)
  {
    FilesOneLiners(files);
    if PlainFiles(files) {
      PrintThenParse(files, denied);
    } else if ParseText(Print(files).value, denied) == Good(Answers(files)) {
      Lighter(files, denied);
    }
  }

  lemma Lighter(files: seq<Source>, denied: string -> bool)
    requires files != [] && RoughFiles(files) && Print(files).Good?
    requires ParseText(Print(files).value, denied) == Good(Answers(files))
    ensures PlainFiles(files)
  {
    var lines := PrintFiles(files).value;
    FilesOneLiners(files);
    PrintedStart(files);
    SplitJoined(lines);
    AnswerWeighs(Print(files).value, denied, Answers(files));
    AnswersIn(files);
    CostAppend(lines, [""]);
    OneCost("");
    FilesCost(files);
  }

  // ---------- a patch that is read as another ----------

  /** The patch for `path` whose one hunk adds the line `++ b/target`. */
  function Adding(path: string, target: string): Source {
    Source(Update, path, [SourceHunk(1, 1, ["+++ b/" + target])])
  }

  /** The hunk line looks like a header, but a hunk line it is. */
  lemma TargetRough(target: string, line: string)
    requires PlainPath(target) && line == "+++ b/" + target
    ensures RoughLine(line) && line != ""
  {
    PathOneLine(target);
    NoNewlineIn("+++ b/", target);
    assert line[0] == '+';
  }

  lemma OneRoughFile(f: Source, line: string)
    requires f.operation == Update && PlainPath(f.relPath) && f.hunks == [SourceHunk(1, 1, [line])] && RoughLine(line)
    ensures RoughFiles([f])
  {
    OneRough(line);
    assert RoughFile(f);
  }

  lemma OneRough(line: string)
    requires RoughLine(line)
    ensures RoughHunks([SourceHunk(1, 1, [line])])
  {
    var none: seq<string> := [];
    assert [line][1..] == none;
    assert [SourceHunk(1, 1, [line])][1..] == [];
    assert RoughLines([line]);
  }

  lemma OneLinePrinted(f: Source, line: string)
    requires f.operation == Update && f.hunks == [SourceHunk(1, 1, [line])] && line != ""
    ensures PrintFiles([f]) == Good(PrintHead(f.relPath, false) + [Header(HunkRange(f.hunks[0], false)), line])
  {
    var header := Header(HunkRange(f.hunks[0], false));
    assert Shown([line]) == [line];
    assert f.hunks[1..] == [] && PrintHunks(f.hunks, false) == [header, line];
    assert [f][1..] == [];
    assert PrintFile(f) + [] == PrintFile(f);
  }

  /** Such a line is taken for a file header and turns the whole patch to the other
      path: that is the one which is checked and then written. */
  lemma Retargeted(path: string, target: string, denied: string -> bool)
    requires PlainPath(path) && PlainPath(target) && !denied(target)
    requires var text := Print([Adding(path, target)]);
      text.Good? ==> |text.value| <= MAX_TEXT_CHARS && !BinaryMarked(text.value)
    ensures var f := Adding(path, target);
      && Print([f]).Good?
      && ParseText(Print([f]).value, denied)
        == Good([Parsed(target, FilePatch(path, target, false, [HunkRange(f.hunks[0], false)], 0, 0))])
  {
    var f, line := Adding(path, target), "+++ b/" + target;
    TargetRough(target, line);
    OneRoughFile(f, line);
    OneLinePrinted(f, line);
    NormalizeReads(path);
    NormalizeReads(target);
    var q := AddingRead(NormalizePath, path, target, HunkRange(f.hunks[0], false), line);
    OneFileParsed(f, denied, q, FilePatch(path, target, false, [HunkRange(f.hunks[0], false)], 0, 0));
  }

  lemma OneFileParsed(f: Source, denied: string -> bool, q: Parsing, g: FilePatch)
    requires RoughFiles([f]) && !denied(g.newPath) && NormalizeRel(g.newPath) == Some(g.newPath) && g.newPath != ""
    requires PrintFiles([f]).Good? && Loop(TurnOf(NormalizePath), Start, PrintFiles([f]).value) == Good(q) && FinishFile(q).files == [g]
    requires |g.hunks| == 1 && g.added == g.removed == 0
    requires Print([f]).Good? ==> |Print([f]).value| <= MAX_TEXT_CHARS && !BinaryMarked(Print([f]).value)
    ensures Print([f]).Good? && ParseText(Print([f]).value, denied) == Good([Parsed(g.newPath, g)])
  {
    FilesOneLiners([f]);
    PrintedStart([f]);
    StartKept(Print([f]).value);
    SplitJoined(PrintFiles([f]).value);
    LastLine(NormalizePath, Start, PrintFiles([f]).value, q);
    AllowedAlone(g, denied);
    CountedAlone(g);
    ParsedSo(Print([f]).value, denied, q, [g], [Parsed(g.newPath, g)]);
  }

  lemma AllowedAlone(g: FilePatch, denied: string -> bool)
    requires !denied(g.newPath) && NormalizeRel(g.newPath) == Some(g.newPath) && g.newPath != ""
    ensures Allow([g], denied) == Good([Parsed(g.newPath, g)])
  {
    assert [g][1..] == [];
    assert Allow([g][1..], denied) == Good([]);
    assert [Parsed(g.newPath, g)] + [] == [Parsed(g.newPath, g)];
  }

  lemma CountedAlone(g: FilePatch)
    ensures TotalHunks([g]) == |g.hunks| && TotalChanged([g]) == g.added + g.removed
  {
    assert [g][1..] == [];
  }

  lemma AddingRead(norm: Paths, path: string, target: string, r: Hunk, line: string) returns (q: Parsing)
    requires Reads(norm, path) && Reads(norm, target) && r.lines == [] && line == "+++ b/" + target
    ensures Loop(TurnOf(norm), Start, PrintHead(path, false) + [Header(r), line]) == Good(q)
    ensures FinishFile(q).files == [FilePatch(path, target, false, [r], 0, 0)]
  {
    var f := FilePatch(path, path, false, [], 0, 0);
    var s := Parsing([], Some(f), None, "");
    assert Loop(TurnOf(norm), Start, PrintHead(path, false)) == Good(s) by { HeadRead(norm, Start, path, false); }
    q := HeaderThenTarget(norm, s, f, target, r, line);
    LoopAppend(TurnOf(norm), Start, PrintHead(path, false), [Header(r), line], s);
    FinishedAlone(f.(newPath := target), r);
  }

  lemma FinishedAlone(f: FilePatch, r: Hunk)
    requires f.hunks == []
    ensures FinishFile(Parsing([], Some(f), Some(r), "")).files == [f.(hunks := [r])]
  {
    assert [] + [r] == [r];
  }

  lemma HeaderThenTarget(norm: Paths, s: Parsing, f: FilePatch, target: string, r: Hunk, line: string) returns (q: Parsing)
    requires Reads(norm, target) && s.current == Some(f) && s.hunk.None? && r.lines == [] && line == "+++ b/" + target
    ensures q == s.(current := Some(f.(newPath := target)), hunk := Some(r))
    ensures Loop(TurnOf(norm), s, [Header(r), line]) == Good(q)
  {
    RangeLine(norm, s, f, r);
    var t := s.(hunk := Some(r));
    NewLine(norm, t, f, target);
    q := t.(current := Some(f.(newPath := target)));
    TwoTurns(TurnOf(norm), s, Header(r), line, t, q);
  }
}
