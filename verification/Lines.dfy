/** Texts as lines that keep their endings. */
module Lines {
  import opened Text

  /** The first line with its newline, or all of a text that has none. */
  function FirstLine(text: string): (line: string)
    requires text != ""
    ensures line != "" && line <= text
    ensures '\n' !in line[..|line| - 1]
    ensures line[|line| - 1] == '\n' || line == text
  {
    if text[0] == '\n' || |text| == 1 then text[..1] else [text[0]] + FirstLine(text[1..])
  }

  /** `splitLinesWithEndings`. */
  function SplitLines(text: string): (lines: seq<string>)
    ensures Join(lines) == text
    decreases |text|
  {
    if text == "" then []
    else
      var line := FirstLine(text);
      assert text == line + text[|line|..];
      [line] + SplitLines(text[|line|..])
  }

  function Join(lines: seq<string>): string {
    if lines == [] then "" else lines[0] + Join(lines[1..])
  }

  lemma {:induction false} JoinAppend(a: seq<string>, b: seq<string>)
    ensures Join(a + b) == Join(a) + Join(b)
  {
    if a == [] {
      assert a + b == b;
    } else {
      assert (a + b)[1..] == a[1..] + b;
      JoinAppend(a[1..], b);
    }
  }

  /** `stripLineEnding`: a newline at the end goes, and a carriage return before it. */
  function Strip(line: string): string {
    var n := |line|;
    if n == 0 || line[n - 1] != '\n' then line
    else if n > 1 && line[n - 2] == '\r' then line[..n - 2]
    else line[..n - 1]
  }

  /** A whole line: one newline, at its end, and no carriage return before it. */
  predicate Whole(line: string) {
    line != "" && line[|line| - 1] == '\n' && '\n' !in line[..|line| - 1]
    && (|line| > 1 ==> line[|line| - 2] != '\r')
  }

  lemma WholeStripped(line: string)
    requires Whole(line)
    ensures line == Strip(line) + "\n"
  {
    assert line == line[..|line| - 1] + [line[|line| - 1]];
  }

  /** The content of a line: no newline, and no carriage return where one would be stripped. */
  predicate Content(s: string) {
    '\n' !in s && (s != "" ==> s[|s| - 1] != '\r')
  }

  lemma ContentStripped(s: string)
    requires Content(s)
    ensures Whole(s + "\n") && Strip(s + "\n") == s
  {
    assert (s + "\n")[..|s|] == s;
  }

  lemma {:induction false} FirstOfWhole(line: string, rest: string)
    requires line != "" && line[|line| - 1] == '\n' && '\n' !in line[..|line| - 1]
    ensures FirstLine(line + rest) == line
  {
    if |line| > 1 {
      var tail := line[1..];
      assert (line + rest)[1..] == tail + rest;
      assert line[..|line| - 1][1..] == tail[..|tail| - 1];
      assert line[0] == line[..|line| - 1][0];
      FirstOfWhole(tail, rest);
    }
  }

  /** One newline, at its end. */
  predicate Ended(line: string) { line != "" && line[|line| - 1] == '\n' && '\n' !in line[..|line| - 1] }

  /** Splitting undoes joining when every line has its one newline at its end. */
  lemma {:induction false} SplitOfJoin(lines: seq<string>)
    requires forall i :: 0 <= i < |lines| ==> Ended(lines[i])
    ensures SplitLines(Join(lines)) == lines
  {
    if lines != [] {
      var line, rest := lines[0], Join(lines[1..]);
      assert Ended(line);
      FirstOfWhole(line, rest);
      assert (line + rest)[|line|..] == rest;
      SplitOfJoin(lines[1..]);
    }
  }

  /** A text made of whole lines: it is empty or ends in a newline, and no
      newline follows a carriage return. */
  predicate WholeText(text: string) {
    (text != "" ==> text[|text| - 1] == '\n')
    && forall i :: 0 < i < |text| && text[i] == '\n' ==> text[i - 1] != '\r'
  }

  lemma {:induction false} SplitWhole(text: string)
    requires WholeText(text)
    ensures forall i :: 0 <= i < |SplitLines(text)| ==> Whole(SplitLines(text)[i])
    decreases |text|
  {
    if text != "" {
      var line := FirstLine(text);
      assert line[|line| - 1] == '\n';
      assert Whole(line);
      var rest := text[|line|..];
      assert forall i :: 0 <= i < |rest| ==> rest[i] == text[|line| + i];
      SplitWhole(rest);
    }
  }

  /** `text.includes("\r\n")`, which chooses the line ending of added lines. */
  predicate HasCrLf(text: string) {
    exists i :: 0 < i < |text| && text[i] == '\n' && text[i - 1] == '\r'
  }

  lemma {:induction false} JoinWhole(lines: seq<string>)
    requires forall i :: 0 <= i < |lines| ==> Whole(lines[i])
    ensures WholeText(Join(lines))
  {
    if lines != [] {
      var line, rest := lines[0], Join(lines[1..]);
      JoinWhole(lines[1..]);
      forall i | 0 < i < |line + rest| && (line + rest)[i] == '\n' ensures (line + rest)[i - 1] != '\r' {
        if i < |line| {
          assert (line + rest)[i] == line[i] && forall j :: 0 <= j < |line| - 1 ==> line[j] in line[..|line| - 1];
        } else {
          assert (line + rest)[i] == rest[i - |line|];
          if i == |line| { assert (line + rest)[i - 1] == line[|line| - 1]; }
          else { assert (line + rest)[i - 1] == rest[i - |line| - 1]; }
        }
      }
    }
  }
}
