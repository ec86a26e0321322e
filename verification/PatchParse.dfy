/** Parsing a unified diff line by line. */
module PatchParse {
  import opened Wrappers
  import opened Text
  import opened PatchApply

  const MAX_TEXT_CHARS := 256 * 1024
  const MAX_FILES := 16
  const MAX_HUNKS := 128
  const MAX_LINES_CHANGED := 4000

  // ---------- paths ----------

  function ReplaceBackslashes(s: string): string {
    if s == "" then "" else [if s[0] == '\\' then '/' else s[0]] + ReplaceBackslashes(s[1..])
  }

  /** A control character somewhere. */
  predicate HasControl(s: string) {
    s != "" && (s[0] < ' ' || s[0] == '\U{007F}' || HasControl(s[1..]))
  }

  /** `split("/").filter(Boolean)`. */
  function Segments(s: string, current: string): seq<string> {
    if s == "" then (if current == "" then [] else [current])
    else if s[0] == '/' then (if current == "" then [] else [current]) + Segments(s[1..], "")
    else Segments(s[1..], current + [s[0]])
  }

  function JoinSegments(parts: seq<string>): string {
    if parts == [] then ""
    else if |parts| == 1 then parts[0]
    else parts[0] + "/" + JoinSegments(parts[1..])
  }

  predicate Drive(s: string) { |s| >= 3 && IsLetter(s[0]) && s[1] == ':' && s[2] == '/' }

  /** `normalizeRelPath` with "/" as the separator; none when it throws. */
  function NormalizeRel(path: string): Option<string> {
    var text := Trim(ReplaceBackslashes(path));
    if text == "" || text == "." then Some("")
    else if HasControl(text) || text[0] == '/' || Drive(text) || Contains(text, "://") then None
    else
      var parts := Segments(text, "");
      if ".." in parts then None else Some(JoinSegments(parts))
  }

  function Unescape(s: string): string {
    if |s| >= 2 && s[0] == '\\' && s[1] in {'"', '\\'} then [s[1]] + Unescape(s[2..])
    else if s == "" then ""
    else [s[0]] + Unescape(s[1..])
  }

  function ReplaceEscape(s: string, letter: char, sub: char): string {
    if |s| >= 2 && s[0] == '\\' && s[1] == letter then [sub] + ReplaceEscape(s[2..], letter, sub)
    else if s == "" then ""
    else [s[0]] + ReplaceEscape(s[1..], letter, sub)
  }

  /** `unquotePatchPath`. */
  function Unquote(value: string): string {
    var text := Trim(value);
    if |text| >= 2 && text[0] == '"' && text[|text| - 1] == '"' then
      ReplaceEscape(ReplaceEscape(ReplaceEscape(Unescape(text[1..|text| - 1]), 't', '\t'), 'n', '\n'), 'r', '\r')
    else text
  }

  const NULL_PATH := "/dev/null"

  /** `normalizePatchPath`. */
  function NormalizePath(value: string): Option<string> {
    var text := Unquote(value);
    if text == "" || text == NULL_PATH then Some(text)
    else NormalizeRel(WithoutSide(text))
  }

  function WithoutSide(text: string): string {
    if StartsWith(text, "a/") || StartsWith(text, "b/") then text[2..] else text
  }

  /** What `splitGitDiffPaths` is in the middle of. */
  datatype Split = Split(parts: seq<string>, current: string, inQuote: bool, escaping: bool)

  function SplitChar(t: Split, c: char): Split {
    if t.escaping then t.(current := t.current + ['\\', c], escaping := false)
    else if c == '\\' && t.inQuote then t.(escaping := true)
    else if c == '"' then t.(inQuote := !t.inQuote, current := t.current + [c])
    else if IsSpace(c) && !t.inQuote then
      if t.current != "" then t.(parts := t.parts + [t.current], current := "") else t
    else t.(current := t.current + [c])
  }

  function SplitChars(t: Split, s: string): Split
    decreases |s|
  {
    if s == "" then t else SplitChars(SplitChar(t, s[0]), s[1..])
  }

  function SplitEnd(t: Split): seq<string> {
    var current := if t.escaping then t.current + "\\" else t.current;
    if current != "" then t.parts + [current] else t.parts
  }

  /** `splitGitDiffPaths`. */
  function SplitPaths(header: string): seq<string> {
    SplitEnd(SplitChars(Split([], "", false, false), Trim(header)))
  }

  method SplitGitDiffPaths(header: string) returns (parts: seq<string>)
    ensures parts == SplitPaths(header)
  {
    var text := Trim(header);
    var current, inQuote, escaping := "", false, false;
    parts := [];
    for i := 0 to |text|
      invariant SplitEnd(SplitChars(Split(parts, current, inQuote, escaping), text[i..])) == SplitPaths(header)
    {
      var c := text[i];
      assert text[i..][0] == c && text[i..][1..] == text[i + 1..];
      if escaping {
        current := current + ['\\', c];
        escaping := false;
      } else if c == '\\' && inQuote {
        escaping := true;
      } else if c == '"' {
        inQuote := !inQuote;
        current := current + [c];
      } else if IsSpace(c) && !inQuote {
        if current != "" {
          parts := parts + [current];
          current := "";
        }
      } else {
        current := current + [c];
      }
    }
    if escaping { current := current + "\\"; }
    if current != "" { parts := parts + [current]; }
  }

  // ---------- hunk headers ----------

  /** How many digits the text starts with. */
  function DigitCount(s: string): (n: nat)
    ensures n <= |s|
    ensures forall i :: 0 <= i < n ==> IsDigit(s[i])
    ensures n < |s| ==> !IsDigit(s[n])
  {
    if s == "" || !IsDigit(s[0]) then 0 else 1 + DigitCount(s[1..])
  }

  function Value(s: string): nat
    requires forall i :: 0 <= i < |s| ==> IsDigit(s[i])
  {
    if s == "" then 0 else Value(s[..|s| - 1]) * 10 + DigitValue(s[|s| - 1])
  }

  datatype Range = Range(start: nat, count: nat, rest: string)

  /** `(\d+)(?:,(\d+))?`; a missing count is 1. */
  function ParseRange(s: string): Option<Range> {
    var n := DigitCount(s);
    if n == 0 then None
    else
      var rest := s[n..];
      var m := if rest != "" && rest[0] == ',' then DigitCount(rest[1..]) else 0;
      if m == 0 then Some(Range(Value(s[..n]), 1, rest))
      else Some(Range(Value(s[..n]), Value(rest[1..1 + m]), rest[1 + m..]))
  }

  /** A hunk header without its leading `@@ `: the model of `parseHunkHeader` and
      of the loose header. */
  function ParseHeader(s: string): Option<Hunk> {
    if s == "" || s[0] != '-' then None
    else
      match ParseRange(s[1..])
      case None => None
      case Some(before) =>
        if !StartsWith(before.rest, " +") then None
        else
          match ParseRange(before.rest[2..])
          case None => None
          case Some(after) =>
            if StartsWith(after.rest, " @@") then Some(Hunk(before.start, before.count, after.start, after.count, []))
            else None
  }

  // ---------- the line loop ----------

  datatype FilePatch = FilePatch(
    oldPath: string, newPath: string, create: bool, hunks: seq<Hunk>, added: nat, removed: nat)

  datatype Fault =
    | Empty | TooLarge | BinaryPatch | MalformedHeader | BadPath | DeleteDeferred | NotGitStyle
    | RenameOrCopy | ModeChange | MalformedRange | MalformedLine | NoFiles | Denied

  datatype Parsing = Parsing(
    files: seq<FilePatch>, current: Option<FilePatch>, hunk: Option<Hunk>, pending: string)

  datatype Step<T> = Good(value: T) | Bad(fault: Fault)

  const Start := Parsing([], None, None, "")

  function WithoutCr(raw: string): string {
    if raw != "" && raw[|raw| - 1] == '\r' then raw[..|raw| - 1] else raw
  }

  /** How paths are brought into normal form: `NormalizePath`, none when it throws. */
  type Paths = string -> Option<string>

  function BeforeTab(s: string): string {
    if s == "" || s[0] == '\t' then "" else [s[0]] + BeforeTab(s[1..])
  }

  /** The path a `---` or `+++` line names. */
  function HeaderPath(norm: Paths, line: string): Option<string> {
    if |line| < 4 then None else norm(BeforeTab(line[4..]))
  }

  function FinishHunk(p: Parsing): Parsing {
    if p.hunk.Some? && p.current.Some?
    then p.(current := Some(p.current.value.(hunks := p.current.value.hunks + [p.hunk.value])), hunk := None)
    else p.(hunk := None)
  }

  function FinishFile(p: Parsing): Parsing {
    var q := FinishHunk(p);
    if q.current.Some? then q.(files := q.files + [q.current.value], current := None) else q
  }

  /** What a line is by its first characters. */
  datatype Kind = Git | Rename | Deletion | Mode | Creation | OldName | NewName | Range_ | Marker | Other

  function KindOf(line: string): Kind {
    if StartsWith(line, "diff --git ") then Git
    else if
      || StartsWith(line, "rename from ") || StartsWith(line, "rename to ")
      || StartsWith(line, "copy from ") || StartsWith(line, "copy to ")
    then Rename
    else if StartsWith(line, "deleted file mode ") then Deletion
    else if StartsWith(line, "old mode ") || StartsWith(line, "new mode ") then Mode
    else if StartsWith(line, "new file mode ") then Creation
    else if StartsWith(line, "--- ") then OldName
    else if StartsWith(line, "+++ ") then NewName
    else if StartsWith(line, "@@ ") || ParseHeader(line).Some? then Range_
    else if StartsWith(line, "\\ No newline at end of file") then Marker
    else Other
  }

  /** One turn of the loop; `last` is set for the last line of the text. */
  function OneLine(norm: Paths, p: Parsing, raw: string, last: bool): Step<Parsing> {
    Act(norm, p, WithoutCr(raw), KindOf(WithoutCr(raw)), last)
  }

  function Act(norm: Paths, p: Parsing, line: string, kind: Kind, last: bool): Step<Parsing> {
    if kind == Git then OpenGitFile(norm, FinishFile(p).(pending := ""), line)
    else if p.current.None? then Outside(norm, p, line, kind)
    else InFile(norm, p, p.current.value, line, kind, last)
  }

  function OpenGitFile(norm: Paths, p: Parsing, line: string): Step<Parsing> {
    var parts := if |line| < 11 then [] else SplitPaths(line[11..]);
    if |parts| != 2 then Bad(MalformedHeader)
    else
      var before, after := norm(parts[0]), norm(parts[1]);
      if before.None? || after.None? then Bad(BadPath)
      else Good(p.(current := Some(FilePatch(before.value, after.value, false, [], 0, 0))))
  }

  /** Before the first file: only a plain pair of headers or blank lines. */
  function Outside(norm: Paths, p: Parsing, line: string, kind: Kind): Step<Parsing> {
    if kind == OldName then
      var path := HeaderPath(norm, line);
      if path.None? then Bad(BadPath) else Good(p.(pending := path.value))
    else if p.pending != "" && kind == NewName then
      var path := HeaderPath(norm, line);
      if path.None? then Bad(BadPath)
      else if path.value == NULL_PATH then Bad(DeleteDeferred)
      else Good(p.(current := Some(FilePatch(p.pending, path.value, p.pending == NULL_PATH, [], 0, 0)), pending := ""))
    else if Trim(line) != "" then Bad(NotGitStyle)
    else Good(p)
  }

  function InFile(norm: Paths, p: Parsing, f: FilePatch, line: string, kind: Kind, last: bool): Step<Parsing> {
    match kind
    case Rename => Bad(RenameOrCopy)
    case Deletion => Bad(DeleteDeferred)
    case Mode => Bad(ModeChange)
    case Creation => Good(p.(current := Some(f.(create := true))))
    case OldName => TakeOldName(p, f, HeaderPath(norm, line))
    case NewName => TakeNewName(p, f, HeaderPath(norm, line))
    case Range_ =>
      var header := ParseHeader(if StartsWith(line, "@@ ") then line[3..] else line);
      if header.None? then Bad(MalformedRange) else Good(FinishHunk(p).(hunk := header))
    case _ => if p.hunk.Some? then InHunk(p, f, p.hunk.value, line, kind, last) else Good(p)
  }

  function TakeOldName(p: Parsing, f: FilePatch, path: Option<string>): Step<Parsing> {
    if path.None? then Bad(BadPath)
    else Good(p.(current := Some(if path.value == NULL_PATH then f.(create := true) else f.(oldPath := path.value))))
  }

  function TakeNewName(p: Parsing, f: FilePatch, path: Option<string>): Step<Parsing> {
    if path.None? then Bad(BadPath)
    else if path.value == NULL_PATH then Bad(DeleteDeferred)
    else Good(p.(current := Some(f.(newPath := path.value))))
  }

  function InHunk(p: Parsing, f: FilePatch, h: Hunk, line: string, kind: Kind, last: bool): Step<Parsing> {
    if line == "" && last then Good(p)
    else if kind == Marker then
      Good(p.(hunk := Some(h.(lines := MarkLast(h.lines)))))
    else if line == "" || PrefixOf(line[0]).None? then Bad(MalformedLine)
    else
      var prefix := PrefixOf(line[0]).value;
      Good(p.(
        hunk := Some(h.(lines := h.lines + [PatchLine(prefix, line[1..], false)])),
        current := Some(f.(
          added := if prefix == Addition then f.added + 1 else f.added,
          removed := if prefix == Removal then f.removed + 1 else f.removed))))
  }

  function PrefixOf(c: char): Option<Prefix> {
    if c == ' ' then Some(Context) else if c == '+' then Some(Addition) else if c == '-' then Some(Removal) else None
  }

  function MarkLast(ls: seq<PatchLine>): seq<PatchLine> {
    if ls == [] then [] else ls[..|ls| - 1] + [ls[|ls| - 1].(noNewline := true)]
  }

  /** The loop over the lines. */
  function AllLines(norm: Paths, p: Parsing, lines: seq<string>): Step<Parsing>
    decreases |lines|
  {
    if lines == [] then Good(p)
    else
      match OneLine(norm, p, lines[0], |lines| == 1)
      case Bad(fault) => Bad(fault)
      case Good(q) => AllLines(norm, q, lines[1..])
  }

  // ---------- the whole text ----------

  /** `split(/\n/)`. */
  function SplitNewlines(s: string): (r: seq<string>)
    ensures r != []
  {
    if s == "" then [""]
    else if s[0] == '\n' then [""] + SplitNewlines(s[1..])
    else
      var rest := SplitNewlines(s[1..]);
      [[s[0]] + rest[0]] + rest[1..]
  }

  function Lower(c: char): char { if 'A' <= c <= 'Z' then c - 'A' + 'a' else c }

  predicate SameIgnoringCase(s: string, lower: string)
  {
    |lower| <= |s| && forall i :: 0 <= i < |lower| ==> Lower(s[i]) == lower[i]
  }

  /** Found anywhere, whatever the case of its letters. */
  predicate HasIgnoringCase(s: string, lower: string)
    decreases |s|
  {
    SameIgnoringCase(s, lower) || (s != "" && HasIgnoringCase(s[1..], lower))
  }

  predicate BinaryMarked(s: string) {
    HasIgnoringCase(s, "git binary patch") || HasIgnoringCase(s, "binary files ")
  }

  function TotalHunks(files: seq<FilePatch>): nat {
    if files == [] then 0 else |files[0].hunks| + TotalHunks(files[1..])
  }

  function TotalChanged(files: seq<FilePatch>): nat {
    if files == [] then 0 else files[0].added + files[0].removed + TotalChanged(files[1..])
  }

  /** A parsed file with the path it is about. */
  datatype Parsed = Parsed(relPath: string, file: FilePatch)

  /** The last map of `parseUnifiedPatch`; `denied` stands for the deny patterns. */
  function Allow(files: seq<FilePatch>, denied: string -> bool): Step<seq<Parsed>> {
    if files == [] then Good([])
    else
      var f := files[0];
      var path := NormalizeRel(if f.newPath != "" then f.newPath else f.oldPath);
      if path.None? then Bad(BadPath)
      else if denied(path.value) then Bad(Denied)
      else
        match Allow(files[1..], denied)
        case Bad(fault) => Bad(fault)
        case Good(rest) => Good([Parsed(path.value, f)] + rest)
  }

  function Finish(files: seq<FilePatch>, denied: string -> bool): Step<seq<Parsed>> {
    if files == [] then Bad(NoFiles)
    else if |files| > MAX_FILES || TotalHunks(files) > MAX_HUNKS || TotalChanged(files) > MAX_LINES_CHANGED then Bad(TooLarge)
    else Allow(files, denied)
  }

  /** `parseUnifiedPatch` on a text that is a unified diff. */
  function ParseText(patch: string, denied: string -> bool): Step<seq<Parsed>> {
    if Trim(patch) == "" then Bad(Empty)
    else if |patch| > MAX_TEXT_CHARS then Bad(TooLarge)
    else if BinaryMarked(patch) then Bad(BinaryPatch)
    else
      match AllLines(NormalizePath, Start, SplitNewlines(patch))
      case Bad(fault) => Bad(fault)
      case Good(p) => Finish(FinishFile(p).files, denied)
  }

  // ---------- the loop as written ----------

  /** `parseUnifiedPatch`, with the variables its loop changes. */
  method ParseUnifiedPatch(patch: string, denied: string -> bool) returns (r: Step<seq<Parsed>>)
    ensures r == ParseText(patch, denied)
  {
    if Trim(patch) == "" { return Bad(Empty); }
    if |patch| > MAX_TEXT_CHARS { return Bad(TooLarge); }
    if BinaryMarked(patch) { return Bad(BinaryPatch); }
    var parsed := ParseLines(NormalizePath, SplitNewlines(patch));
    match parsed
    case Bad(fault) => return Bad(fault);
    case Good(p) =>
      var closed := CloseFile(p);
      r := Finish(closed.files, denied);
  }

  method ParseLines(norm: Paths, lines: seq<string>) returns (r: Step<Parsing>)
    ensures r == AllLines(norm, Start, lines)
  {
    var files: seq<FilePatch> := [];
    var current: Option<FilePatch> := None;
    var currentHunk: Option<Hunk> := None;
    var pendingOldPath := "";
    for lineIndex := 0 to |lines|
      invariant AllLines(norm, Start, lines)
        == AllLines(norm, Parsing(files, current, currentHunk, pendingOldPath), lines[lineIndex..])
    {
      assert lines[lineIndex..][1..] == lines[lineIndex + 1..];
      var turn := ParseLine(norm, files, current, currentHunk, pendingOldPath, lines[lineIndex], lineIndex == |lines| - 1);
      if turn.Bad? { return turn; }
      var q := turn.value;
      files, current, currentHunk, pendingOldPath := q.files, q.current, q.hunk, q.pending;
    }
    r := Good(Parsing(files, current, currentHunk, pendingOldPath));
  }

  /** The body of the loop. */
  method ParseLine(norm: Paths, files: seq<FilePatch>, current: Option<FilePatch>, currentHunk: Option<Hunk>,
      pendingOldPath: string, rawLine: string, last: bool) returns (r: Step<Parsing>)
    ensures r == OneLine(norm, Parsing(files, current, currentHunk, pendingOldPath), rawLine, last)
  {
    var line := if rawLine != "" && rawLine[|rawLine| - 1] == '\r' then rawLine[..|rawLine| - 1] else rawLine;
    r := ParseKind(norm, Parsing(files, current, currentHunk, pendingOldPath), line, KindOf(line), last);
  }

  method ParseKind(norm: Paths, here: Parsing, line: string, kind: Kind, last: bool) returns (r: Step<Parsing>)
    ensures r == Act(norm, here, line, kind, last)
  {
    if kind == Git {
      var closed := CloseFile(here);
      r := ParseGitHeader(norm, closed.(pending := ""), line);
    } else if here.current.None? {
      r := ParseOutside(norm, here, line, kind);
    } else if kind == Range_ {
      r := ParseRangeLine(norm, here, here.current.value, line);
    } else {
      r := ParseInFile(norm, here, here.current.value, line, kind, last);
    }
  }

  /** `finishFile` with `finishHunk` inside. */
  method CloseFile(here: Parsing) returns (r: Parsing)
    ensures r == FinishFile(here)
  {
    r := here;
    if r.hunk.Some? && r.current.Some? {
      var f := r.current.value;
      r := r.(current := Some(f.(hunks := f.hunks + [r.hunk.value])));
    }
    r := r.(hunk := None);
    if r.current.Some? { r := r.(files := r.files + [r.current.value], current := None); }
  }

  method ParseGitHeader(norm: Paths, here: Parsing, line: string) returns (r: Step<Parsing>)
    ensures r == OpenGitFile(norm, here, line)
  {
    var parts: seq<string> := [];
    if |line| >= 11 { parts := SplitGitDiffPaths(line[11..]); }
    if |parts| != 2 { return Bad(MalformedHeader); }
    var before, after := norm(parts[0]), norm(parts[1]);
    if before.None? || after.None? { return Bad(BadPath); }
    r := Good(here.(current := Some(FilePatch(before.value, after.value, false, [], 0, 0))));
  }

  method ParseOutside(norm: Paths, here: Parsing, line: string, kind: Kind) returns (r: Step<Parsing>)
    ensures r == Outside(norm, here, line, kind)
  {
    if kind == OldName {
      var path := HeaderPath(norm, line);
      return if path.None? then Bad(BadPath) else Good(here.(pending := path.value));
    }
    if here.pending != "" && kind == NewName {
      var path := HeaderPath(norm, line);
      if path.None? { return Bad(BadPath); }
      if path.value == NULL_PATH { return Bad(DeleteDeferred); }
      return Good(here.(
        current := Some(FilePatch(here.pending, path.value, here.pending == NULL_PATH, [], 0, 0)), pending := ""));
    }
    if Trim(line) != "" { return Bad(NotGitStyle); }
    r := Good(here);
  }

  method ParseInFile(norm: Paths, here: Parsing, f: FilePatch, line: string, kind: Kind, last: bool) returns (r: Step<Parsing>)
    requires here.current == Some(f) && kind != Range_
    ensures r == InFile(norm, here, f, line, kind, last)
  {
    if kind == Rename { return Bad(RenameOrCopy); }
    if kind == Deletion { return Bad(DeleteDeferred); }
    if kind == Mode { return Bad(ModeChange); }
    if kind == Creation { return Good(here.(current := Some(f.(create := true)))); }
    if kind == OldName {
      var path := HeaderPath(norm, line);
      if path.None? { return Bad(BadPath); }
      var g := if path.value == NULL_PATH then f.(create := true) else f.(oldPath := path.value);
      return Good(here.(current := Some(g)));
    }
    if kind == NewName {
      var path := HeaderPath(norm, line);
      if path.None? { return Bad(BadPath); }
      if path.value == NULL_PATH { return Bad(DeleteDeferred); }
      return Good(here.(current := Some(f.(newPath := path.value))));
    }
    if here.hunk.None? { return Good(here); }
    r := ParseHunkLine(here, f, here.hunk.value, line, kind, last);
  }

  method ParseRangeLine(norm: Paths, here: Parsing, f: FilePatch, line: string) returns (r: Step<Parsing>)
    requires here.current == Some(f)
    ensures r == InFile(norm, here, f, line, Range_, false) == InFile(norm, here, f, line, Range_, true)
  {
    var header := if StartsWith(line, "@@ ") then ParseHeader(line[3..]) else ParseHeader(line);
    if header.None? { return Bad(MalformedRange); }
    var g := if here.hunk.Some? then f.(hunks := f.hunks + [here.hunk.value]) else f;
    r := Good(here.(current := Some(g), hunk := header));
  }

  method ParseHunkLine(here: Parsing, f: FilePatch, h: Hunk, line: string, kind: Kind, last: bool)
    returns (r: Step<Parsing>)
    ensures r == InHunk(here, f, h, line, kind, last)
  {
    if line == "" && last { return Good(here); }
    if kind == Marker {
      var ls := if h.lines == [] then [] else h.lines[..|h.lines| - 1] + [h.lines[|h.lines| - 1].(noNewline := true)];
      return Good(here.(hunk := Some(h.(lines := ls))));
    }
    if line == "" || line[0] !in {' ', '+', '-'} { return Bad(MalformedLine); }
    var prefix := if line[0] == ' ' then Context else if line[0] == '+' then Addition else Removal;
    var g := f;
    if prefix == Addition { g := g.(added := g.added + 1); }
    if prefix == Removal { g := g.(removed := g.removed + 1); }
    r := Good(here.(hunk := Some(h.(lines := h.lines + [PatchLine(prefix, line[1..], false)])), current := Some(g)));
  }
}
