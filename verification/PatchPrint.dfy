/** Printing structured patches as a unified diff, and reading them back. */
module PatchPrint {
  import opened Wrappers
  import opened Text
  import opened PatchApply
  import opened PatchParse

  datatype Operation = Create | Update | Delete

  /** A hunk as it comes in: stated lines (0 when it has none) and raw lines. */
  datatype SourceHunk = SourceHunk(oldStart: nat, newStart: nat, lines: seq<string>)

  datatype Source = Source(operation: Operation, relPath: string, hunks: seq<SourceHunk>)

  // ---------- printing ----------

  function Shown(lines: seq<string>): (r: seq<string>)
    ensures |r| == |lines|
    ensures forall i :: 0 <= i < |lines| ==> r[i] == if lines[i] == "" then " " else lines[i]
    ensures forall i :: 0 <= i < |r| ==> r[i] != ""
  {
    if lines == [] then [] else [if lines[0] == "" then " " else lines[0]] + Shown(lines[1..])
  }

  /** How many lines do not start with `c`. */
  function CountOthers(lines: seq<string>, c: char): nat
    requires forall i :: 0 <= i < |lines| ==> lines[i] != ""
  {
    if lines == [] then 0 else (if lines[0][0] != c then 1 else 0) + CountOthers(lines[1..], c)
  }

  function OrOne(n: nat): nat { if n == 0 then 1 else n }

  function HunkRange(h: SourceHunk, create: bool): Hunk {
    Hunk(if create then 0 else OrOne(h.oldStart), CountOthers(Shown(h.lines), '+'),
      OrOne(h.newStart), CountOthers(Shown(h.lines), '-'), [])
  }

  function RangeText(r: Hunk): string {
    "-" + (Digits(r.oldStart) + ("," + (Digits(r.oldCount) + (" +" + (Digits(r.newStart) + ("," + (Digits(r.newCount) + " @@")))))))
  }

  function Header(r: Hunk): string { "@@ " + RangeText(r) }

  function PrintHunk(h: SourceHunk, create: bool): seq<string> {
    [Header(HunkRange(h, create))] + Shown(h.lines)
  }

  function PrintHunks(hs: seq<SourceHunk>, create: bool): seq<string> {
    if hs == [] then [] else PrintHunk(hs[0], create) + PrintHunks(hs[1..], create)
  }

  function PrintHead(path: string, create: bool): seq<string> {
    var git := "diff --git " + ("a/" + path + " " + ("b/" + path));
    if create
    then [git, "new file mode 100644", "--- /dev/null", "+++ b/" + path]
    else [git, "--- a/" + path, "+++ b/" + path]
  }

  function PrintFile(f: Source): seq<string> {
    PrintHead(f.relPath, f.operation == Create) + PrintHunks(f.hunks, f.operation == Create)
  }

  /** The lines of all files; deletions are refused. */
  function PrintFiles(files: seq<Source>): Step<seq<string>> {
    if files == [] then Good([])
    else if files[0].operation == Delete then Bad(DeleteDeferred)
    else
      match PrintFiles(files[1..])
      case Bad(fault) => Bad(fault)
      case Good(rest) => Good(PrintFile(files[0]) + rest)
  }

  /** `out.join("\n")`. */
  function JoinLines(lines: seq<string>): string {
    if lines == [] then "" else if |lines| == 1 then lines[0] else lines[0] + ("\n" + JoinLines(lines[1..]))
  }

  /** `codexPatchAsUnifiedDiff` on the structured files it starts from. */
  function Print(files: seq<Source>): Step<string> {
    match PrintFiles(files)
    case Bad(fault) => Bad(fault)
    case Good(lines) => Good(JoinLines(lines) + "\n")
  }

  // ---------- what the parser should return ----------

  /** A hunk line split into its prefix and its content. */
  function Reading(line: string): PatchLine {
    if line != "" && PrefixOf(line[0]).Some? then PatchLine(PrefixOf(line[0]).value, line[1..], false)
    else PatchLine(Context, "", false)
  }

  function Readings(lines: seq<string>): seq<PatchLine> {
    if lines == [] then [] else [Reading(lines[0])] + Readings(lines[1..])
  }

  function ReadHunks(hs: seq<SourceHunk>, create: bool): seq<Hunk> {
    if hs == [] then []
    else [HunkRange(hs[0], create).(lines := Readings(Shown(hs[0].lines)))] + ReadHunks(hs[1..], create)
  }

  function Count(ls: seq<PatchLine>, prefix: Prefix): nat {
    if ls == [] then 0 else (if ls[0].prefix == prefix then 1 else 0) + Count(ls[1..], prefix)
  }

  function CountAll(hunks: seq<Hunk>, prefix: Prefix): nat {
    if hunks == [] then 0 else Count(hunks[0].lines, prefix) + CountAll(hunks[1..], prefix)
  }

  /** The file as it should be read: same path, same operation, same hunk lines in
      order under the printed ranges, and the number of added and removed lines. */
  function ReadFile(f: Source): FilePatch {
    var hunks := ReadHunks(f.hunks, f.operation == Create);
    FilePatch(f.relPath, f.relPath, f.operation == Create, hunks, CountAll(hunks, Addition), CountAll(hunks, Removal))
  }

  function ReadFiles(files: seq<Source>): (r: seq<FilePatch>)
    ensures |r| == |files|
  {
    if files == [] then [] else [ReadFile(files[0])] + ReadFiles(files[1..])
  }

  // ---------- which patches are read back ----------

  /** A hunk line that is taken for one: it starts like one, and neither looks
      like a file header or a bare hunk header nor ends in a carriage return. */
  predicate HunkLine(line: string) {
    && line != "" && PrefixOf(line[0]).Some? && line[|line| - 1] != '\r' && '\n' !in line
    && !StartsWith(line, "--- ") && !StartsWith(line, "+++ ") && ParseHeader(line).None?
  }

  /** What a hunk line of any patch is: empty, or one line that starts like one. */
  predicate RoughLine(line: string) { line == "" || (PrefixOf(line[0]).Some? && '\n' !in line) }

  predicate RoughLines(lines: seq<string>) { lines == [] || (RoughLine(lines[0]) && RoughLines(lines[1..])) }

  predicate RoughHunks(hs: seq<SourceHunk>) { hs == [] || (RoughLines(hs[0].lines) && RoughHunks(hs[1..])) }

  predicate RoughFile(f: Source) { f.operation != Delete && PlainPath(f.relPath) && RoughHunks(f.hunks) }

  /** Plain paths and no deletions; of the hunk lines nothing but that they are hunk lines. */
  predicate RoughFiles(files: seq<Source>) {
    forall i {:trigger RoughFile(files[i])} :: 0 <= i < |files| ==> RoughFile(files[i])
  }

  predicate PlainChar(c: char) { !IsSpace(c) && c != '"' && c != '\\' }

  /** A path already in normal form, without whitespace and quotes. */
  predicate PlainPath(path: string) {
    path != "" && NormalizeRel(path) == Some(path) && forall i :: 0 <= i < |path| ==> PlainChar(path[i])
  }

  predicate PlainLines(lines: seq<string>) {
    lines == [] || ((lines[0] == "" || HunkLine(lines[0])) && PlainLines(lines[1..]))
  }

  predicate PlainHunks(hs: seq<SourceHunk>) { hs == [] || (PlainLines(hs[0].lines) && PlainHunks(hs[1..])) }

  predicate PlainFile(f: Source) { f.operation != Delete && PlainPath(f.relPath) && PlainHunks(f.hunks) }

  predicate PlainFiles(files: seq<Source>) {
    forall i {:trigger PlainFile(files[i])} :: 0 <= i < |files| ==> PlainFile(files[i])
  }
}
