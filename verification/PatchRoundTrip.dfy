/** Parsing what was printed gives the same files back. */
module PatchRoundTrip {
  import opened Wrappers
  import opened Text
  import opened PatchApply
  import opened PatchParse
  import opened PatchPrint

  // ---------- numbers ----------

  lemma {:induction false} DigitsRead(n: nat)
    ensures forall i :: 0 <= i < |Digits(n)| ==> IsDigit(Digits(n)[i])
    ensures Value(Digits(n)) == n
  {
    if n >= 10 {
      DigitsRead(n / 10);
      var s := Digits(n);
      assert s[..|s| - 1] == Digits(n / 10) && s[|s| - 1] == Digit(n % 10);
    } else {
      assert Digits(n)[..0] == "";
    }
  }

  lemma {:induction false} DigitsCounted(s: string, rest: string)
    requires forall i :: 0 <= i < |s| ==> IsDigit(s[i])
    requires rest == "" || !IsDigit(rest[0])
    ensures DigitCount(s + rest) == |s|
  {
    if s == "" {
      assert s + rest == rest;
    } else {
      assert (s + rest)[1..] == s[1..] + rest;
      DigitsCounted(s[1..], rest);
    }
  }

  lemma RangeRead(start: nat, count: nat, rest: string)
    requires rest == "" || !IsDigit(rest[0])
    ensures ParseRange(Digits(start) + ("," + (Digits(count) + rest))) == Some(Range(start, count, rest))
  {
    var a, b := Digits(start), Digits(count);
    var tail := "," + (b + rest);
    DigitsRead(start);
    DigitsRead(count);
    DigitsCounted(a, tail);
    DigitsCounted(b, rest);
    assert (a + tail)[..|a|] == a && (a + tail)[|a|..] == tail;
    assert tail[1..] == b + rest;
    assert tail[1..1 + |b|] == b && tail[1 + |b|..] == rest;
  }

  lemma HeaderOfRanges(first: string, second: string, before: Range, after: Range)
    requires ParseRange(first) == Some(before) && before.rest == " +" + second
    requires ParseRange(second) == Some(after) && after.rest == " @@"
    ensures ParseHeader("-" + first) == Some(Hunk(before.start, before.count, after.start, after.count, []))
  {
    assert ("-" + first)[1..] == first;
    assert before.rest[2..] == second;
  }

  /** A printed hunk header is read as the range it was printed from. */
  lemma HeaderRead(r: Hunk)
    ensures ParseHeader(RangeText(r)) == Some(r.(lines := []))
  {
    var tail := " @@";
    var second := Digits(r.newStart) + ("," + (Digits(r.newCount) + tail));
    var first := Digits(r.oldStart) + ("," + (Digits(r.oldCount) + (" +" + second)));
    RangeRead(r.newStart, r.newCount, tail);
    RangeRead(r.oldStart, r.oldCount, " +" + second);
    HeaderOfRanges(first, second, Range(r.oldStart, r.oldCount, " +" + second), Range(r.newStart, r.newCount, tail));
    assert RangeText(r) == "-" + first;
  }

  // ---------- paths ----------

  lemma PlainTrimmed(s: string)
    requires s != "" && !IsSpace(s[0]) && !IsSpace(s[|s| - 1])
    ensures Trim(s) == s
  {
    TrimOfTrimmed(s);
  }

  lemma {:induction false} NoTab(s: string)
    requires forall i :: 0 <= i < |s| ==> s[i] != '\t'
    ensures BeforeTab(s) == s
  {
    if s != "" { NoTab(s[1..]); }
  }

  lemma UnquotePlain(s: string)
    requires s != "" && !IsSpace(s[0]) && !IsSpace(s[|s| - 1]) && s[0] != '"'
    ensures Unquote(s) == s
  {
    PlainTrimmed(s);
  }

  lemma SideDropped(s: string, path: string)
    requires |s| >= 2 && s[0] in {'a', 'b'} && s[1] == '/' && s[2..] == path
    ensures WithoutSide(s) == path && s != NULL_PATH
  {
    assert s[0] != NULL_PATH[0];
    assert StartsWith(s, "a/") || StartsWith(s, "b/");
  }

  lemma PrefixedChars(prefix: string, path: string)
    requires |prefix| == 2 && prefix[0] in {'a', 'b'} && prefix[1] == '/'
    requires forall i :: 0 <= i < |path| ==> PlainChar(path[i])
    ensures forall i :: 0 <= i < |prefix + path| ==> PlainChar((prefix + path)[i])
  {
  }

  /** A path with its `a/` or `b/` prefix is read back. */
  lemma PrefixedPath(prefix: string, path: string)
    requires |prefix| == 2 && prefix[0] in {'a', 'b'} && prefix[1] == '/'
    requires PlainPath(path)
    ensures NormalizePath(prefix + path) == Some(path)
    ensures BeforeTab(prefix + path) == prefix + path
  {
    var s := prefix + path;
    PrefixedChars(prefix, path);
    assert PlainChar(s[0]) && PlainChar(s[|s| - 1]);
    UnquotePlain(s);
    SideDropped(s, path);
    forall i | 0 <= i < |s| ensures s[i] != '\t' { assert PlainChar(s[i]); }
    NoTab(s);
  }

  lemma NullPathRead(s: string)
    requires s == NULL_PATH
    ensures NormalizePath(s) == Some(s)
  {
    NullPathEnds(s);
    UnquotePlain(s);
  }

  lemma NullPathEnds(s: string)
    requires s == NULL_PATH
    ensures s != "" && s[0] == '/' && s[|s| - 1] == 'l' && forall i :: 0 <= i < |s| ==> s[i] != '\t'
  {
  }

  /** An absolute path is refused. */
  lemma AbsoluteRefused(s: string)
    requires |s| > 1 && s[0] == '/' && forall i :: 0 <= i < |s| ==> PlainChar(s[i])
    ensures NormalizeRel(s) == None
  {
    SameWithout(s);
    PlainTrimmed(s);
  }

  lemma {:induction false} SameWithout(s: string)
    requires forall i :: 0 <= i < |s| ==> s[i] != '\\'
    ensures ReplaceBackslashes(s) == s
  {
    if s != "" { SameWithout(s[1..]); }
  }

  lemma NotNull(path: string)
    requires PlainPath(path)
    ensures path != NULL_PATH
  {
    if path == NULL_PATH {
      assert path[0] == '/';
      AbsoluteRefused(path);
    }
  }

  lemma {:induction false} SplitPlain(t: Split, s: string)
    requires !t.inQuote && !t.escaping && forall i :: 0 <= i < |s| ==> PlainChar(s[i])
    ensures SplitChars(t, s) == t.(current := t.current + s)
    decreases |s|
  {
    if s == "" {
      assert t.current + s == t.current;
    } else {
      var u := SplitChar(t, s[0]);
      assert u.current == t.current + [s[0]];
      SplitPlain(u, s[1..]);
      assert (t.current + [s[0]]) + s[1..] == t.current + s;
    }
  }

  lemma {:induction false} SplitAppend(t: Split, a: string, b: string)
    ensures SplitChars(t, a + b) == SplitChars(SplitChars(t, a), b)
    decreases |a|
  {
    if a == "" {
      assert a + b == b;
    } else {
      assert (a + b)[0] == a[0] && (a + b)[1..] == a[1..] + b;
      SplitAppend(SplitChar(t, a[0]), a[1..], b);
    }
  }

  lemma SplitTwo(a: string, b: string)
    requires a != ""
    requires forall i :: 0 <= i < |a| ==> PlainChar(a[i])
    requires forall i :: 0 <= i < |b| ==> PlainChar(b[i])
    ensures SplitChars(Split([], "", false, false), a + " " + b) == Split([a], b, false, false)
  {
    var t := Split([], "", false, false);
    SplitAppend(t, a + " ", b);
    SplitAppend(t, a, " ");
    SplitPlain(t, a);
    assert t.current + a == a;
    OneSpace(t.(current := a));
    assert t.parts + [a] == [a];
    SplitPlain(Split([a], "", false, false), b);
    assert "" + b == b;
  }

  lemma SplitTrimmed(s: string)
    requires s != "" && !IsSpace(s[0]) && !IsSpace(s[|s| - 1])
    ensures SplitPaths(s) == SplitEnd(SplitChars(Split([], "", false, false), s))
  {
    PlainTrimmed(s);
  }

  lemma TwoPaths(a: string, b: string)
    requires a != "" && b != ""
    requires forall i :: 0 <= i < |a| ==> PlainChar(a[i])
    requires forall i :: 0 <= i < |b| ==> PlainChar(b[i])
    ensures SplitPaths(a + " " + b) == [a, b]
  {
    var s := a + " " + b;
    assert s[0] == a[0] && s[|s| - 1] == b[|b| - 1];
    SplitTrimmed(s);
    SplitTwo(a, b);
    assert [a] + [b] == [a, b];
  }

  lemma OneSpace(t: Split)
    requires !t.inQuote && !t.escaping && t.current != ""
    ensures SplitChars(t, " ") == t.(parts := t.parts + [t.current], current := "")
  {
    assert " "[1..] == "";
  }

  // ---------- single lines ----------

  lemma NotThere(line: string, prefix: string)
    requires prefix != "" && (line == "" || line[0] != prefix[0])
    ensures !StartsWith(line, prefix)
  {
  }

  // ---------- kinds of lines ----------

  /** A line that starts like none of the keyword lines. */
  lemma NoKeyword(line: string)
    requires line != "" && line[0] !in {'d', 'r', 'c', 'o', 'n'}
    ensures KindOf(line) in {OldName, NewName, Range_, Marker, Other}
    ensures KindOf(line) == OldName <==> StartsWith(line, "--- ")
    ensures KindOf(line) == NewName <==> StartsWith(line, "+++ ")
    ensures KindOf(line) == Range_ <==>
      !StartsWith(line, "--- ") && !StartsWith(line, "+++ ") && (StartsWith(line, "@@ ") || ParseHeader(line).Some?)
  {
    NotThere(line, "diff --git ");
    NotThere(line, "rename from ");
    NotThere(line, "rename to ");
    NotThere(line, "copy from ");
    NotThere(line, "copy to ");
    NotThere(line, "deleted file mode ");
    NotThere(line, "old mode ");
    NotThere(line, "new mode ");
    NotThere(line, "new file mode ");
    assert StartsWith(line, "--- ") ==> !StartsWith(line, "+++ ");
  }

  lemma GitKind(tail: string)
    ensures KindOf("diff --git " + tail) == Git && ("diff --git " + tail)[11..] == tail
  {
    assert StartsWith("diff --git " + tail, "diff --git ");
  }

  lemma NewFileKind()
    ensures KindOf("new file mode 100644") == Creation
  {
    var line := "new file mode 100644";
    NotThere(line, "diff --git ");
    NotThere(line, "rename from ");
    NotThere(line, "rename to ");
    NotThere(line, "copy from ");
    NotThere(line, "copy to ");
    NotThere(line, "deleted file mode ");
    NotThere(line, "old mode ");
    assert line[4] != "new mode "[4];
    assert StartsWith(line, "new file mode ");
  }

  lemma OldNameKind(tail: string)
    ensures KindOf("--- " + tail) == OldName && ("--- " + tail)[4..] == tail
  {
    NoKeyword("--- " + tail);
    assert StartsWith("--- " + tail, "--- ");
  }

  lemma NewNameKind(tail: string)
    ensures KindOf("+++ " + tail) == NewName && ("+++ " + tail)[4..] == tail
  {
    NoKeyword("+++ " + tail);
    assert StartsWith("+++ " + tail, "+++ ");
  }

  lemma RangeKind(tail: string)
    ensures KindOf("@@ " + tail) == Range_ && ("@@ " + tail)[3..] == tail && StartsWith("@@ " + tail, "@@ ")
  {
    NoKeyword("@@ " + tail);
    NotThere("@@ " + tail, "--- ");
    NotThere("@@ " + tail, "+++ ");
    assert StartsWith("@@ " + tail, "@@ ");
  }

  lemma HunkLineKind(line: string)
    requires HunkLine(line)
    ensures KindOf(line) == Other
  {
    NoKeyword(line);
    NotThere(line, "@@ ");
    NotThere(line, "\\ No newline at end of file");
  }

  // ---------- turns of the loop ----------

  /** The paths of one printed file are read back as its path. */
  ghost predicate Reads(norm: Paths, path: string) {
    && norm("a/" + path) == Some(path) && norm("b/" + path) == Some(path) && norm(NULL_PATH) == Some(NULL_PATH)
    && BeforeTab("a/" + path) == "a/" + path && BeforeTab("b/" + path) == "b/" + path && BeforeTab(NULL_PATH) == NULL_PATH
    && path != "" && path != NULL_PATH && forall i :: 0 <= i < |path| ==> PlainChar(path[i])
  }

  lemma NormalizeReads(path: string)
    requires PlainPath(path)
    ensures Reads(NormalizePath, path)
  {
    PrefixedPath("a/", path);
    PrefixedPath("b/", path);
    NullPathRead(NULL_PATH);
    NullPathEnds(NULL_PATH);
    NoTab(NULL_PATH);
    NotNull(path);
  }

  lemma GitLine(norm: Paths, p: Parsing, path: string)
    requires Reads(norm, path)
    ensures OneLine(norm, p, "diff --git " + ("a/" + path + " " + ("b/" + path)), false)
      == Good(FinishFile(p).(pending := "", current := Some(FilePatch(path, path, false, [], 0, 0))))
  {
    var tail := "a/" + path + " " + ("b/" + path);
    var line := "diff --git " + tail;
    GitKind(tail);
    PlainEnd(line, path);
    PathsOf(norm, FinishFile(p).(pending := ""), line, path);
  }

  lemma PathsOf(norm: Paths, p: Parsing, line: string, path: string)
    requires Reads(norm, path) && |line| >= 11 && line[11..] == "a/" + path + " " + ("b/" + path)
    ensures OpenGitFile(norm, p, line) == Good(p.(current := Some(FilePatch(path, path, false, [], 0, 0))))
  {
    PrefixedChars("a/", path);
    PrefixedChars("b/", path);
    TwoPaths("a/" + path, "b/" + path);
  }

  lemma PlainEnd(line: string, path: string)
    requires path != "" && forall i :: 0 <= i < |path| ==> PlainChar(path[i])
    requires |line| >= |path| && line[|line| - |path|..] == path
    ensures WithoutCr(line) == line
  {
    assert PlainChar(path[|path| - 1]);
    assert line[|line| - 1] == line[|line| - |path|..][|path| - 1];
  }

  lemma NewFileLine(norm: Paths, p: Parsing, f: FilePatch)
    requires p.current == Some(f)
    ensures OneLine(norm, p, "new file mode 100644", false) == Good(p.(current := Some(f.(create := true))))
  {
    NewFileKind();
  }

  lemma NullLine(norm: Paths, p: Parsing, f: FilePatch, path: string)
    requires p.current == Some(f) && Reads(norm, path)
    ensures OneLine(norm, p, "--- /dev/null", false) == Good(p.(current := Some(f.(create := true))))
  {
    var line := "--- " + NULL_PATH;
    assert "--- /dev/null" == line;
    OldNameKind(NULL_PATH);
    OldNameTaken(norm, p, f, line, NULL_PATH);
  }

  lemma OldNameTaken(norm: Paths, p: Parsing, f: FilePatch, line: string, tail: string)
    requires p.current == Some(f) && |line| >= 4 && line[4..] == tail && BeforeTab(tail) == tail
    ensures Act(norm, p, line, OldName, false) == TakeOldName(p, f, norm(tail))
  {
  }

  lemma NewNameTaken(norm: Paths, p: Parsing, f: FilePatch, line: string, tail: string)
    requires p.current == Some(f) && |line| >= 4 && line[4..] == tail && BeforeTab(tail) == tail
    ensures Act(norm, p, line, NewName, false) == TakeNewName(p, f, norm(tail))
  {
  }

  lemma OldLine(norm: Paths, p: Parsing, f: FilePatch, path: string)
    requires p.current == Some(f) && Reads(norm, path)
    ensures OneLine(norm, p, "--- a/" + path, false) == Good(p.(current := Some(f.(oldPath := path))))
  {
    var line := "--- a/" + path;
    assert line == "--- " + ("a/" + path);
    PlainEnd(line, path);
    OldNameKind("a/" + path);
    OldNameTaken(norm, p, f, line, "a/" + path);
  }

  lemma NewLine(norm: Paths, p: Parsing, f: FilePatch, path: string)
    requires p.current == Some(f) && Reads(norm, path)
    ensures OneLine(norm, p, "+++ b/" + path, false) == Good(p.(current := Some(f.(newPath := path))))
  {
    var line := "+++ b/" + path;
    assert line == "+++ " + ("b/" + path);
    PlainEnd(line, path);
    NewNameKind("b/" + path);
    NewNameTaken(norm, p, f, line, "b/" + path);
  }

  lemma RangeLine(norm: Paths, p: Parsing, f: FilePatch, r: Hunk)
    requires p.current == Some(f) && r.lines == []
    ensures OneLine(norm, p, Header(r), false) == Good(FinishHunk(p).(hunk := Some(r)))
  {
    var text := RangeText(r);
    HeaderRead(r);
    RangeTextEnds(r);
    RangeKind(text);
  }

  lemma RangeTextEnds(r: Hunk)
    ensures WithoutCr("@@ " + RangeText(r)) == "@@ " + RangeText(r)
  {
    assert " @@"[2] == '@';
  }

  /** A hunk line is taken over as it is and counted. */
  lemma BodyLine(norm: Paths, p: Parsing, f: FilePatch, h: Hunk, line: string)
    requires p.current == Some(f) && p.hunk == Some(h) && HunkLine(line)
    ensures var l := Reading(line);
      OneLine(norm, p, line, false) == Good(p.(
        hunk := Some(h.(lines := h.lines + [l])),
        current := Some(f.(
          added := f.added + if l.prefix == Addition then 1 else 0,
          removed := f.removed + if l.prefix == Removal then 1 else 0))))
  {
    HunkLineKind(line);
  }

  /** Nothing happens on the empty piece behind the last newline. */
  lemma EndLine(norm: Paths, p: Parsing)
    ensures OneLine(norm, p, "", true) == Good(p)
  {
    assert KindOf("") == Other;
  }
}
