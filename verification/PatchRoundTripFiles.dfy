/** The round trip of whole files and of the whole text. The loop is followed for
    any `turn` that obeys a few laws; the laws are those of single lines. */
module PatchRoundTripFiles {
  import opened Wrappers
  import opened Text
  import opened PatchApply
  import opened PatchParse
  import opened PatchPrint
  import opened PatchRoundTrip

  type Turn = (Parsing, string) -> Step<Parsing>

  /** The loop over lines none of which is the last. */
  function Loop(turn: Turn, p: Parsing, lines: seq<string>): Step<Parsing>
    decreases |lines|
  {
    if lines == [] then Good(p)
    else
      match turn(p, lines[0])
      case Bad(fault) => Bad(fault)
      case Good(q) => Loop(turn, q, lines[1..])
  }

  lemma LoopCons(turn: Turn, p: Parsing, line: string, lines: seq<string>, q: Parsing)
    requires turn(p, line) == Good(q)
    ensures Loop(turn, p, [line] + lines) == Loop(turn, q, lines)
  {
    assert ([line] + lines)[1..] == lines;
  }

  lemma {:induction false} LoopAppend(turn: Turn, p: Parsing, a: seq<string>, b: seq<string>, q: Parsing)
    requires Loop(turn, p, a) == Good(q)
    ensures Loop(turn, p, a + b) == Loop(turn, q, b)
    decreases |a|
  {
    if a == [] {
      assert a + b == b;
    } else {
      var r := turn(p, a[0]).value;
      LoopAppend(turn, r, a[1..], b, q);
      LoopCons(turn, p, a[0], a[1..] + b, r);
      assert a + b == [a[0]] + (a[1..] + b);
    }
  }

  lemma TwoTurns(turn: Turn, p: Parsing, a: string, b: string, q: Parsing, r: Parsing)
    requires turn(p, a) == Good(q) && turn(q, b) == Good(r)
    ensures Loop(turn, p, [a, b]) == Good(r)
  {
    LoopCons(turn, q, b, [], r);
    LoopCons(turn, p, a, [b], q);
    assert [a] + [b] == [a, b];
  }

  // ---------- the laws ----------

  /** The state after a hunk line. */
  function AfterLine(p: Parsing, l: PatchLine): Parsing
    requires p.current.Some? && p.hunk.Some?
  {
    p.(hunk := Some(p.hunk.value.(lines := p.hunk.value.lines + [l])), current := Some(Counted(p.current.value, [l])))
  }

  /** Hunk lines are those `readable` accepts; each is taken over by its reading. */
  ghost predicate LineLaw(turn: Turn, readable: string -> bool, reading: string -> PatchLine) {
    forall p: Parsing, line: string {:trigger turn(p, line)} ::
      p.current.Some? && p.hunk.Some? && readable(line) ==> turn(p, line) == Good(AfterLine(p, reading(line)))
  }

  /** A header opens the next hunk. */
  ghost predicate RangeLaw(turn: Turn, header: Hunk -> string) {
    forall p: Parsing, r: Hunk {:trigger turn(p, header(r))} ::
      p.current.Some? && r.lines == [] ==> turn(p, header(r)) == Good(FinishHunk(p).(hunk := Some(r)))
  }

  // ---------- hunks ----------

  predicate All(readable: string -> bool, lines: seq<string>) {
    lines == [] || (readable(lines[0]) && All(readable, lines[1..]))
  }

  function Each(reading: string -> PatchLine, lines: seq<string>): seq<PatchLine> {
    if lines == [] then [] else [reading(lines[0])] + Each(reading, lines[1..])
  }

  /** What reading some hunk lines does to the file's counts. */
  function Counted(f: FilePatch, ls: seq<PatchLine>): FilePatch {
    f.(added := f.added + Count(ls, Addition), removed := f.removed + Count(ls, Removal))
  }

  function AfterLines(p: Parsing, ls: seq<PatchLine>): Parsing
    requires p.current.Some? && p.hunk.Some?
  {
    p.(hunk := Some(p.hunk.value.(lines := p.hunk.value.lines + ls)), current := Some(Counted(p.current.value, ls)))
  }

  lemma CountCons(l: PatchLine, ls: seq<PatchLine>, prefix: Prefix)
    ensures Count([l] + ls, prefix) == Count([l], prefix) + Count(ls, prefix)
  {
    assert ([l] + ls)[1..] == ls;
  }

  lemma AfterBoth(p: Parsing, l: PatchLine, ls: seq<PatchLine>)
    requires p.current.Some? && p.hunk.Some?
    ensures AfterLines(AfterLine(p, l), ls) == AfterLines(p, [l] + ls)
  {
    CountCons(l, ls, Addition);
    CountCons(l, ls, Removal);
    assert p.hunk.value.lines + [l] + ls == p.hunk.value.lines + ([l] + ls);
  }

  lemma {:induction false} LinesRead(turn: Turn, readable: string -> bool, reading: string -> PatchLine, p: Parsing, lines: seq<string>)
    requires LineLaw(turn, readable, reading) && p.current.Some? && p.hunk.Some? && All(readable, lines)
    ensures Loop(turn, p, lines) == Good(AfterLines(p, Each(reading, lines)))
    decreases |lines|
  {
    if lines == [] {
      assert p.hunk.value.lines + [] == p.hunk.value.lines;
    } else {
      var q := AfterLine(p, reading(lines[0]));
      assert turn(p, lines[0]) == Good(q);
      LinesRead(turn, readable, reading, q, lines[1..]);
      AfterBoth(p, reading(lines[0]), Each(reading, lines[1..]));
    }
  }

  /** The state with more hunks read into its file. */
  function Grown(p: Parsing, hunks: seq<Hunk>): Parsing
    requires p.current.Some?
  {
    var f := p.current.value;
    p.(current := Some(f.(hunks := f.hunks + hunks,
      added := f.added + CountAll(hunks, Addition), removed := f.removed + CountAll(hunks, Removal))))
  }

  lemma HunkRead(turn: Turn, readable: string -> bool, reading: string -> PatchLine, header: Hunk -> string,
      p: Parsing, range: Hunk, lines: seq<string>)
    requires LineLaw(turn, readable, reading) && RangeLaw(turn, header)
    requires p.current.Some? && range.lines == [] && All(readable, lines)
    ensures var r := Loop(turn, p, [header(range)] + lines);
      r.Good? && r.value.current.Some?
      && FinishHunk(r.value) == Grown(FinishHunk(p), [range.(lines := Each(reading, lines))])
  {
    var q := FinishHunk(p).(hunk := Some(range));
    assert turn(p, header(range)) == Good(q);
    LinesRead(turn, readable, reading, q, lines);
    LoopCons(turn, p, header(range), lines, q);
    assert [] + Each(reading, lines) == Each(reading, lines);
    CountOne(range.(lines := Each(reading, lines)), [], Addition);
    CountOne(range.(lines := Each(reading, lines)), [], Removal);
  }

  lemma CountOne(h: Hunk, hs: seq<Hunk>, prefix: Prefix)
    ensures CountAll([h], prefix) == Count(h.lines, prefix)
    ensures CountAll([h] + hs, prefix) == Count(h.lines, prefix) + CountAll(hs, prefix)
  {
    assert [h][1..] == [] && ([h] + hs)[1..] == hs && ([h] + hs)[0] == h;
  }

  lemma GrownTwice(p: Parsing, a: Hunk, b: seq<Hunk>)
    requires p.current.Some?
    ensures Grown(Grown(p, [a]), b) == Grown(p, [a] + b)
  {
    CountOne(a, b, Addition);
    CountOne(a, b, Removal);
    assert p.current.value.hunks + [a] + b == p.current.value.hunks + ([a] + b);
  }

  /** A printed hunk: its range, the lines that follow, and what it reads as. */
  datatype Printed = Printed(range: Hunk, lines: seq<string>)

  predicate AllPrinted(readable: string -> bool, hs: seq<Printed>) {
    hs == [] || (hs[0].range.lines == [] && All(readable, hs[0].lines) && AllPrinted(readable, hs[1..]))
  }

  function Lines(header: Hunk -> string, hs: seq<Printed>): seq<string> {
    if hs == [] then [] else ([header(hs[0].range)] + hs[0].lines) + Lines(header, hs[1..])
  }

  function Hunks(reading: string -> PatchLine, hs: seq<Printed>): seq<Hunk> {
    if hs == [] then []
    else [hs[0].range.(lines := Each(reading, hs[0].lines))] + Hunks(reading, hs[1..])
  }

  lemma {:induction false} HunksRead(turn: Turn, readable: string -> bool, reading: string -> PatchLine, header: Hunk -> string,
      p: Parsing, hs: seq<Printed>)
    requires LineLaw(turn, readable, reading) && RangeLaw(turn, header) && p.current.Some? && AllPrinted(readable, hs)
    ensures var r := Loop(turn, p, Lines(header, hs));
      r.Good? && r.value.current.Some? && FinishHunk(r.value) == Grown(FinishHunk(p), Hunks(reading, hs))
    decreases |hs|
  {
    if hs == [] {
      assert FinishHunk(p).current.value.hunks + [] == FinishHunk(p).current.value.hunks;
    } else {
      HunkRead(turn, readable, reading, header, p, hs[0].range, hs[0].lines);
      var first := [header(hs[0].range)] + hs[0].lines;
      var q := Loop(turn, p, first).value;
      HunksRead(turn, readable, reading, header, q, hs[1..]);
      LoopAppend(turn, p, first, Lines(header, hs[1..]), q);
      GrownTwice(FinishHunk(p), Hunks(reading, hs)[0], Hunks(reading, hs[1..]));
    }
  }

  // ---------- files ----------

  /** A printed file: its head lines and its hunks. */
  datatype Sheet = Sheet(path: string, create: bool, head: seq<string>, hunks: seq<Printed>)

  /** The head of a file closes the file before and opens this one. */
  ghost predicate HeadLaw(turn: Turn, f: Sheet) {
    forall p: Parsing {:trigger Loop(turn, p, f.head)} ::
      Loop(turn, p, f.head)
      == Good(FinishFile(p).(pending := "", current := Some(FilePatch(f.path, f.path, f.create, [], 0, 0))))
  }

  function SheetLines(header: Hunk -> string, f: Sheet): seq<string> { f.head + Lines(header, f.hunks) }

  function SheetRead(reading: string -> PatchLine, f: Sheet): FilePatch {
    var hunks := Hunks(reading, f.hunks);
    FilePatch(f.path, f.path, f.create, hunks, CountAll(hunks, Addition), CountAll(hunks, Removal))
  }

  lemma FileRead(turn: Turn, readable: string -> bool, reading: string -> PatchLine, header: Hunk -> string,
      p: Parsing, f: Sheet)
    requires LineLaw(turn, readable, reading) && RangeLaw(turn, header) && HeadLaw(turn, f) && AllPrinted(readable, f.hunks)
    ensures var r := Loop(turn, p, SheetLines(header, f));
      r.Good? && FinishFile(r.value).files == FinishFile(p).files + [SheetRead(reading, f)]
  {
    var q := Loop(turn, p, f.head).value;
    HunksRead(turn, readable, reading, header, q, f.hunks);
    LoopAppend(turn, p, f.head, Lines(header, f.hunks), q);
    assert [] + Hunks(reading, f.hunks) == Hunks(reading, f.hunks);
  }

  ghost predicate AllSheets(turn: Turn, readable: string -> bool, fs: seq<Sheet>) {
    fs == [] || (HeadLaw(turn, fs[0]) && AllPrinted(readable, fs[0].hunks) && AllSheets(turn, readable, fs[1..]))
  }

  function AllLinesOf(header: Hunk -> string, fs: seq<Sheet>): seq<string> {
    if fs == [] then [] else SheetLines(header, fs[0]) + AllLinesOf(header, fs[1..])
  }

  function AllRead(reading: string -> PatchLine, fs: seq<Sheet>): seq<FilePatch> {
    if fs == [] then [] else [SheetRead(reading, fs[0])] + AllRead(reading, fs[1..])
  }

  lemma {:induction false} FilesRead(turn: Turn, readable: string -> bool, reading: string -> PatchLine, header: Hunk -> string,
      p: Parsing, fs: seq<Sheet>)
    requires LineLaw(turn, readable, reading) && RangeLaw(turn, header) && AllSheets(turn, readable, fs)
    ensures var r := Loop(turn, p, AllLinesOf(header, fs));
      r.Good? && FinishFile(r.value).files == FinishFile(p).files + AllRead(reading, fs)
    decreases |fs|
  {
    if fs == [] {
      assert FinishFile(p).files + [] == FinishFile(p).files;
    } else {
      FileRead(turn, readable, reading, header, p, fs[0]);
      var q := Loop(turn, p, SheetLines(header, fs[0])).value;
      FilesRead(turn, readable, reading, header, q, fs[1..]);
      LoopAppend(turn, p, SheetLines(header, fs[0]), AllLinesOf(header, fs[1..]), q);
      var one, rest := SheetRead(reading, fs[0]), AllRead(reading, fs[1..]);
      assert FinishFile(p).files + [one] + rest == FinishFile(p).files + ([one] + rest);
    }
  }

  // ---------- the laws hold ----------

  function TurnOf(norm: Paths): Turn { (p, line) => OneLine(norm, p, line, false) }

  lemma LinesObeyed(norm: Paths)
    ensures LineLaw(TurnOf(norm), HunkLine, Reading)
  {
    forall p: Parsing, line: string | p.current.Some? && p.hunk.Some? && HunkLine(line)
      ensures TurnOf(norm)(p, line) == Good(AfterLine(p, Reading(line)))
    {
      BodyLine(norm, p, p.current.value, p.hunk.value, line);
      CountSingle(Reading(line));
    }
  }

  lemma CountSingle(l: PatchLine)
    ensures forall prefix :: Count([l], prefix) == if l.prefix == prefix then 1 else 0
  {
    assert [l][1..] == [];
  }

  lemma RangesObeyed(norm: Paths)
    ensures RangeLaw(TurnOf(norm), Header)
  {
    forall p: Parsing, r: Hunk | p.current.Some? && r.lines == []
      ensures TurnOf(norm)(p, Header(r)) == Good(FinishHunk(p).(hunk := Some(r)))
    {
      RangeLine(norm, p, p.current.value, r);
    }
  }

  lemma HeadObeyed(norm: Paths, f: Sheet)
    requires Reads(norm, f.path) && f.head == PrintHead(f.path, f.create)
    ensures HeadLaw(TurnOf(norm), f)
  {
    forall p: Parsing
      ensures Loop(TurnOf(norm), p, f.head)
        == Good(FinishFile(p).(pending := "", current := Some(FilePatch(f.path, f.path, f.create, [], 0, 0))))
    {
      HeadRead(norm, p, f.path, f.create);
    }
  }

  lemma ThreeTurns(turn: Turn, p: Parsing, a: string, b: string, c: string, q: Parsing, r: Parsing, s: Parsing)
    requires turn(p, a) == Good(q) && turn(q, b) == Good(r) && turn(r, c) == Good(s)
    ensures Loop(turn, p, [a, b, c]) == Good(s)
  {
    TwoTurns(turn, q, b, c, r, s);
    LoopCons(turn, p, a, [b, c], q);
    assert [a] + [b, c] == [a, b, c];
  }

  lemma FourTurns(turn: Turn, p: Parsing, a: string, b: string, c: string, d: string,
      q: Parsing, r: Parsing, s: Parsing, t: Parsing)
    requires turn(p, a) == Good(q) && turn(q, b) == Good(r) && turn(r, c) == Good(s) && turn(s, d) == Good(t)
    ensures Loop(turn, p, [a, b, c, d]) == Good(t)
  {
    ThreeTurns(turn, q, b, c, d, r, s, t);
    LoopCons(turn, p, a, [b, c, d], q);
    assert [a] + [b, c, d] == [a, b, c, d];
  }

  lemma HeadRead(norm: Paths, p: Parsing, path: string, create: bool)
    requires Reads(norm, path)
    ensures Loop(TurnOf(norm), p, PrintHead(path, create))
      == Good(FinishFile(p).(pending := "", current := Some(FilePatch(path, path, create, [], 0, 0))))
  {
    var git := "diff --git " + ("a/" + path + " " + ("b/" + path));
    var f, g := FilePatch(path, path, false, [], 0, 0), FilePatch(path, path, true, [], 0, 0);
    var q := FinishFile(p).(pending := "", current := Some(f));
    var r := q.(current := Some(g));
    GitLine(norm, p, path);
    if create {
      NewFileLine(norm, q, f);
      NullLine(norm, r, g, path);
      NewLine(norm, r, g, path);
      FourTurns(TurnOf(norm), p, git, "new file mode 100644", "--- /dev/null", "+++ b/" + path, q, r, r, r);
    } else {
      OldLine(norm, q, f, path);
      NewLine(norm, q, f, path);
      ThreeTurns(TurnOf(norm), p, git, "--- a/" + path, "+++ b/" + path, q, q, q);
    }
  }

  // ---------- what was printed ----------

  function PrintedOf(hs: seq<SourceHunk>, create: bool): seq<Printed> {
    if hs == [] then [] else [Printed(HunkRange(hs[0], create), Shown(hs[0].lines))] + PrintedOf(hs[1..], create)
  }

  function SheetOf(f: Source): Sheet {
    var create := f.operation == Create;
    Sheet(f.relPath, create, PrintHead(f.relPath, create), PrintedOf(f.hunks, create))
  }

  function SheetsOf(files: seq<Source>): seq<Sheet> {
    if files == [] then [] else [SheetOf(files[0])] + SheetsOf(files[1..])
  }

  lemma {:induction false} PrintedLines(hs: seq<SourceHunk>, create: bool)
    ensures Lines(Header, PrintedOf(hs, create)) == PrintHunks(hs, create)
  {
    if hs != [] { PrintedLines(hs[1..], create); }
  }

  lemma {:induction false} EachReading(lines: seq<string>)
    ensures Each(Reading, lines) == Readings(lines)
  {
    if lines != [] { EachReading(lines[1..]); }
  }

  lemma {:induction false} PrintedHunks(hs: seq<SourceHunk>, create: bool)
    ensures Hunks(Reading, PrintedOf(hs, create)) == ReadHunks(hs, create)
  {
    if hs != [] {
      EachReading(Shown(hs[0].lines));
      PrintedHunks(hs[1..], create);
    }
  }

  lemma {:induction false} SheetsPrinted(files: seq<Source>)
    requires PlainFiles(files)
    ensures PrintFiles(files) == Good(AllLinesOf(Header, SheetsOf(files)))
    ensures AllRead(Reading, SheetsOf(files)) == ReadFiles(files)
  {
    if files != [] {
      assert PlainFile(files[0]);
      PrintedLines(files[0].hunks, files[0].operation == Create);
      PrintedHunks(files[0].hunks, files[0].operation == Create);
      SheetsPrinted(files[1..]);
    }
  }

  lemma {:induction false} ShownPlain(lines: seq<string>)
    requires PlainLines(lines)
    ensures All(HunkLine, Shown(lines))
  {
    if lines != [] { ShownPlain(lines[1..]); }
  }

  lemma {:induction false} PrintedPlain(hs: seq<SourceHunk>, create: bool)
    requires PlainHunks(hs)
    ensures AllPrinted(HunkLine, PrintedOf(hs, create))
  {
    if hs != [] {
      ShownPlain(hs[0].lines);
      PrintedPlain(hs[1..], create);
    }
  }

  lemma {:induction false} SheetsPlain(files: seq<Source>)
    requires PlainFiles(files)
    ensures AllSheets(TurnOf(NormalizePath), HunkLine, SheetsOf(files))
  {
    if files != [] {
      assert PlainFile(files[0]);
      NormalizeReads(files[0].relPath);
      HeadObeyed(NormalizePath, SheetOf(files[0]));
      PrintedPlain(files[0].hunks, files[0].operation == Create);
      SheetsPlain(files[1..]);
    }
  }
}
