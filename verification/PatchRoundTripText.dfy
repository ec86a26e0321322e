/** Printing and then parsing is the identity. */
module PatchRoundTripText {
  import opened Wrappers
  import opened Text
  import opened PatchApply
  import opened PatchParse
  import opened PatchPrint
  import opened PatchRoundTrip
  import opened PatchRoundTripFiles

  // ---------- lines and text ----------

  lemma {:induction false} LastLine(norm: Paths, p: Parsing, lines: seq<string>, q: Parsing)
    requires Loop(TurnOf(norm), p, lines) == Good(q)
    ensures AllLines(norm, p, lines + [""]) == Good(q)
    decreases |lines|
  {
    if lines == [] {
      assert lines + [""] == [""];
      EndLine(norm, p);
    } else {
      var r := TurnOf(norm)(p, lines[0]).value;
      LastLine(norm, r, lines[1..], q);
      assert (lines + [""])[0] == lines[0] && (lines + [""])[1..] == lines[1..] + [""];
    }
  }

  lemma {:induction false} SplitLine(line: string, rest: string)
    requires '\n' !in line
    ensures SplitNewlines(line + ("\n" + rest)) == [line] + SplitNewlines(rest)
  {
    var s := line + ("\n" + rest);
    if line == "" {
      assert s == "\n" + rest;
      assert s[1..] == rest;
    } else {
      SplitLine(line[1..], rest);
      assert s[0] == line[0] && s[1..] == line[1..] + ("\n" + rest);
      assert [line[0]] + line[1..] == line;
    }
  }

  predicate OneLiners(lines: seq<string>) { lines == [] || ('\n' !in lines[0] && OneLiners(lines[1..])) }

  lemma {:induction false} OneLinersAppend(a: seq<string>, b: seq<string>)
    requires OneLiners(a) && OneLiners(b)
    ensures OneLiners(a + b)
  {
    if a == [] {
      assert a + b == b;
    } else {
      assert (a + b)[0] == a[0] && (a + b)[1..] == a[1..] + b;
      OneLinersAppend(a[1..], b);
    }
  }

  /** Splitting undoes joining. */
  lemma {:induction false} SplitJoined(lines: seq<string>)
    requires lines != [] && OneLiners(lines)
    ensures SplitNewlines(JoinLines(lines) + "\n") == lines + [""]
  {
    if |lines| == 1 {
      SplitLine(lines[0], "");
      assert JoinLines(lines) + "\n" == lines[0] + ("\n" + "");
      assert lines == [lines[0]];
    } else {
      var rest := JoinLines(lines[1..]);
      SplitJoined(lines[1..]);
      SplitLine(lines[0], rest + "\n");
      assert JoinLines(lines) + "\n" == lines[0] + ("\n" + (rest + "\n"));
      assert lines + [""] == [lines[0]] + (lines[1..] + [""]);
    }
  }

  // ---------- printed lines are single lines ----------

  predicate NoNewline(s: string) { '\n' !in s }

  lemma NoNewlineIn(a: string, b: string)
    requires NoNewline(a) && NoNewline(b)
    ensures NoNewline(a + b)
  {
  }

  lemma DigitsOneLine(n: nat)
    ensures NoNewline(Digits(n))
  {
    DigitsRead(n);
  }

  lemma PathOneLine(path: string)
    requires PlainPath(path)
    ensures NoNewline(path)
  {
    forall i | 0 <= i < |path| ensures path[i] != '\n' { assert PlainChar(path[i]); }
  }

  lemma HeaderOneLine(r: Hunk)
    ensures NoNewline(Header(r))
  {
    DigitsOneLine(r.oldStart);
    DigitsOneLine(r.oldCount);
    DigitsOneLine(r.newStart);
    DigitsOneLine(r.newCount);
    var s3 := Digits(r.newCount) + " @@";
    NoNewlineIn(Digits(r.newCount), " @@");
    NoNewlineIn(",", s3);
    var s2 := Digits(r.newStart) + ("," + s3);
    NoNewlineIn(Digits(r.newStart), "," + s3);
    NoNewlineIn(" +", s2);
    var s1 := Digits(r.oldCount) + (" +" + s2);
    NoNewlineIn(Digits(r.oldCount), " +" + s2);
    NoNewlineIn(",", s1);
    NoNewlineIn(Digits(r.oldStart), "," + s1);
    NoNewlineIn("-", Digits(r.oldStart) + ("," + s1));
    NoNewlineIn("@@ ", "-" + (Digits(r.oldStart) + ("," + s1)));
  }

  lemma GitOneLine(path: string)
    requires NoNewline(path)
    ensures NoNewline("diff --git " + ("a/" + path + " " + ("b/" + path)))
  {
    NoNewlineIn("a/", path);
    NoNewlineIn("a/" + path, " ");
    NoNewlineIn("b/", path);
    NoNewlineIn("a/" + path + " ", "b/" + path);
    NoNewlineIn("diff --git ", "a/" + path + " " + ("b/" + path));
  }

  lemma Two(a: string, b: string)
    requires NoNewline(a) && NoNewline(b)
    ensures OneLiners([a, b])
  {
    Single(b);
    Cons(a, [b]);
    assert [a] + [b] == [a, b];
  }

  lemma Three(a: string, b: string, c: string)
    requires NoNewline(a) && NoNewline(b) && NoNewline(c)
    ensures OneLiners([a, b, c])
  {
    Two(b, c);
    Cons(a, [b, c]);
    assert [a] + [b, c] == [a, b, c];
  }

  lemma Four(a: string, b: string, c: string, d: string)
    requires NoNewline(a) && NoNewline(b) && NoNewline(c) && NoNewline(d)
    ensures OneLiners([a, b, c, d])
  {
    Three(b, c, d);
    Cons(a, [b, c, d]);
    assert [a] + [b, c, d] == [a, b, c, d];
  }

  lemma CreatedOneLiners(path: string, git: string)
    requires NoNewline(path) && NoNewline(git)
    ensures OneLiners([git, "new file mode 100644", "--- /dev/null", "+++ b/" + path])
  {
    NoNewlineIn("+++ b/", path);
    Four(git, "new file mode 100644", "--- /dev/null", "+++ b/" + path);
  }

  lemma ChangedOneLiners(path: string, git: string)
    requires NoNewline(path) && NoNewline(git)
    ensures OneLiners([git, "--- a/" + path, "+++ b/" + path])
  {
    NoNewlineIn("--- a/", path);
    NoNewlineIn("+++ b/", path);
    Three(git, "--- a/" + path, "+++ b/" + path);
  }

  lemma HeadOneLiners(path: string, create: bool)
    requires PlainPath(path)
    ensures OneLiners(PrintHead(path, create))
  {
    PathOneLine(path);
    GitOneLine(path);
    var git := "diff --git " + ("a/" + path + " " + ("b/" + path));
    if create { CreatedOneLiners(path, git); } else { ChangedOneLiners(path, git); }
  }

  lemma Single(line: string)
    requires NoNewline(line)
    ensures OneLiners([line])
  {
  }

  lemma Cons(line: string, lines: seq<string>)
    requires NoNewline(line) && OneLiners(lines)
    ensures OneLiners([line] + lines)
  {
    Single(line);
    OneLinersAppend([line], lines);
  }

  lemma {:induction false} ShownOneLiners(lines: seq<string>)
    requires RoughLines(lines)
    ensures OneLiners(Shown(lines))
  {
    if lines != [] {
      ShownOneLiners(lines[1..]);
      Cons(if lines[0] == "" then " " else lines[0], Shown(lines[1..]));
    }
  }

  lemma {:induction false} HunksOneLiners(hs: seq<SourceHunk>, create: bool)
    requires RoughHunks(hs)
    ensures OneLiners(PrintHunks(hs, create))
  {
    if hs != [] {
      HeaderOneLine(HunkRange(hs[0], create));
      ShownOneLiners(hs[0].lines);
      Cons(Header(HunkRange(hs[0], create)), Shown(hs[0].lines));
      HunksOneLiners(hs[1..], create);
      OneLinersAppend(PrintHunk(hs[0], create), PrintHunks(hs[1..], create));
    }
  }

  lemma {:induction false} FilesOneLiners(files: seq<Source>)
    requires RoughFiles(files)
    ensures PrintFiles(files).Good? && OneLiners(PrintFiles(files).value)
  {
    if files != [] {
      var f, create := files[0], files[0].operation == Create;
      assert RoughFile(f);
      HeadOneLiners(f.relPath, create);
      HunksOneLiners(f.hunks, create);
      OneLinersAppend(PrintHead(f.relPath, create), PrintHunks(f.hunks, create));
      FilesOneLiners(files[1..]);
      OneLinersAppend(PrintFile(f), PrintFiles(files[1..]).value);
    }
  }

  lemma {:induction false} PlainLinesRough(lines: seq<string>)
    requires PlainLines(lines)
    ensures RoughLines(lines)
  {
    if lines != [] { PlainLinesRough(lines[1..]); }
  }

  lemma {:induction false} PlainHunksRough(hs: seq<SourceHunk>)
    requires PlainHunks(hs)
    ensures RoughHunks(hs)
  {
    if hs != [] {
      PlainLinesRough(hs[0].lines);
      PlainHunksRough(hs[1..]);
    }
  }

  lemma PlainIsRough(files: seq<Source>)
    requires PlainFiles(files)
    ensures RoughFiles(files)
  {
    forall i | 0 <= i < |files| ensures RoughFile(files[i]) {
      assert PlainFile(files[i]);
      PlainHunksRough(files[i].hunks);
    }
  }

  // ---------- the theorem ----------

  /** What parsing should answer. */
  function Answers(files: seq<Source>): seq<Parsed> {
    if files == [] then [] else [Parsed(files[0].relPath, ReadFile(files[0]))] + Answers(files[1..])
  }

  lemma {:induction false} AllAllowed(files: seq<Source>, denied: string -> bool)
    requires PlainFiles(files) && forall f :: f in files ==> !denied(f.relPath)
    ensures Allow(ReadFiles(files), denied) == Good(Answers(files))
  {
    if files != [] {
      assert PlainFile(files[0]) && files[0] in files;
      forall f | f in files[1..] ensures !denied(f.relPath) { assert f in files; }
      AllAllowed(files[1..], denied);
      assert ReadFiles(files)[1..] == ReadFiles(files[1..]);
    }
  }

  lemma {:induction false} StartKept(s: string)
    requires s != "" && !IsSpace(s[0])
    ensures Trim(s) != ""
  {
    EndKept(s);
  }

  lemma {:induction false} EndKept(s: string)
    requires s != "" && !IsSpace(s[0])
    ensures TrimEnd(s) != ""
  {
    if |s| > 1 && IsSpace(s[|s| - 1]) { EndKept(s[..|s| - 1]); }
  }

  lemma PrintedStart(files: seq<Source>)
    requires files != [] && RoughFiles(files) && PrintFiles(files).Good?
    ensures Print(files).Good? && Print(files).value != "" && Print(files).value[0] == 'd'
    ensures PrintFiles(files).value != []
  {
    assert RoughFile(files[0]);
    var lines := PrintFiles(files).value;
    var head := PrintHead(files[0].relPath, files[0].operation == Create);
    assert lines[0] == head[0] && head[0][0] == 'd';
  }

  /** The lines of the printed text, read by the loop. */
  lemma PrintedLinesRead(files: seq<Source>)
    requires PlainFiles(files) && files != []
    ensures Print(files).Good?
    ensures var r := AllLines(NormalizePath, Start, SplitNewlines(Print(files).value));
      r.Good? && FinishFile(r.value).files == ReadFiles(files)
  {
    var sheets := SheetsOf(files);
    var lines := AllLinesOf(Header, sheets);
    SheetsPrinted(files);
    SheetsPlain(files);
    LinesObeyed(NormalizePath);
    RangesObeyed(NormalizePath);
    PatchRoundTripFiles.FilesRead(TurnOf(NormalizePath), HunkLine, Reading, Header, Start, sheets);
    var q := Loop(TurnOf(NormalizePath), Start, lines).value;
    LastLine(NormalizePath, Start, lines, q);
    PlainIsRough(files);
    FilesOneLiners(files);
    PrintedStart(files);
    SplitJoined(lines);
    assert [] + ReadFiles(files) == ReadFiles(files);
  }

  /** For structured patches within the caps, with normalized allowed paths free of
      whitespace and quotes and no hunk line that looks like a header or ends in a
      carriage return, parsing what was printed gives the same files: paths,
      operations, ranges, hunk lines in order and counts. */
  lemma PrintThenParse(files: seq<Source>, denied: string -> bool)
    requires files != [] && PlainFiles(files) && forall f :: f in files ==> !denied(f.relPath)
    requires |files| <= MAX_FILES && TotalHunks(ReadFiles(files)) <= MAX_HUNKS
    requires TotalChanged(ReadFiles(files)) <= MAX_LINES_CHANGED
    requires Print(files).Good? ==> |Print(files).value| <= MAX_TEXT_CHARS && !BinaryMarked(Print(files).value)
    ensures Print(files).Good? && ParseText(Print(files).value, denied) == Good(Answers(files))
  {
    PlainIsRough(files);
    FilesOneLiners(files);
    PrintedStart(files);
    StartKept(Print(files).value);
    PrintedLinesRead(files);
    AllAllowed(files, denied);
    var p := AllLines(NormalizePath, Start, SplitNewlines(Print(files).value)).value;
    ParsedSo(Print(files).value, denied, p, ReadFiles(files), Answers(files));
  }

  lemma ParsedSo(text: string, denied: string -> bool, p: Parsing, files: seq<FilePatch>, answers: seq<Parsed>)
    requires Trim(text) != "" && |text| <= MAX_TEXT_CHARS && !BinaryMarked(text)
    requires AllLines(NormalizePath, Start, SplitNewlines(text)) == Good(p) && FinishFile(p).files == files
    requires files != [] && |files| <= MAX_FILES && TotalHunks(files) <= MAX_HUNKS && TotalChanged(files) <= MAX_LINES_CHANGED
    requires Allow(files, denied) == Good(answers)
    ensures ParseText(text, denied) == Good(answers)
  {
  }

  /** Deletions are never printed. */
  lemma {:induction false} DeletionsRefused(files: seq<Source>)
    ensures Print(files) == Bad(DeleteDeferred) <==> exists f :: f in files && f.operation == Delete
    ensures Print(files).Bad? ==> Print(files) == Bad(DeleteDeferred)
  {
    if files != [] {
      DeletionsRefused(files[1..]);
      assert forall f :: f in files <==> f == files[0] || f in files[1..];
    }
  }

  /** The known edge: inside a hunk a removed line `-- ...` or an added line
      `++ ...` is taken for a file header, so it never becomes a hunk line. */
  lemma LookalikeLost(norm: Paths, p: Parsing, f: FilePatch, h: Hunk, content: string)
    requires p.current == Some(f) && p.hunk == Some(h)
    ensures var r := OneLine(norm, p, "--- " + content, false);
      r.Good? ==> r.value.hunk == Some(h) && r.value.current.Some? && r.value.current.value.removed == f.removed
    ensures var r := OneLine(norm, p, "+++ " + content, false);
      r.Good? ==> r.value.hunk == Some(h) && r.value.current.Some? && r.value.current.value.added == f.added
  {
    LookalikeKinds("--- " + content, "+++ " + content);
  }

  lemma LookalikeKinds(a: string, b: string)
    requires StartsWith(a, "--- ") && StartsWith(b, "+++ ")
    ensures KindOf(WithoutCr(a)) == OldName && KindOf(WithoutCr(b)) == NewName
  {
    assert a[3] == ' ' && b[3] == ' ';
    assert StartsWith(WithoutCr(a), "--- ") && StartsWith(WithoutCr(b), "+++ ");
    NoKeyword(WithoutCr(a));
    NoKeyword(WithoutCr(b));
  }
}
