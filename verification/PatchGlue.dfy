/** What happens behind a last line without a newline. */
module PatchGlue {
  import opened Wrappers
  import opened Lines
  import opened PatchApply
  import opened PatchTheorems

  lemma {:induction false} OneLine(text: string)
    requires text != "" && '\n' !in text
    ensures FirstLine(text) == text && Strip(text) == text
    decreases |text|
  {
    if |text| > 1 { OneLine(text[1..]); }
  }

  /** The hunk that adds a line behind `last`. */
  function AddBehind(last: string, added: string, start: nat): Hunk {
    Hunk(start, 1, start, 2, [PatchLine(Context, last, false), PatchLine(Addition, added, false)])
  }

  lemma MatchesFirst(lines: seq<string>, h: Hunk, last: string, added: string, start: nat)
    requires h == AddBehind(last, added, start) && lines == [last] && Strip(last) == last
    ensures Lands(lines, h, 0, 0)
  {
    assert h.lines[1..] == [h.lines[1]] && h.lines[1..][1..] == [];
    assert MatchesAt(lines, h.lines, 0);
    forall j: nat | j > 0 ensures !MatchesAt(lines, h.lines, j) {
      assert !Fits(lines, h.lines[0], j, true);
    }
  }

  /** What the hunk asks for and what it leaves. */
  lemma LeavesBoth(last: string, added: string, start: nat)
    ensures var ls := AddBehind(last, added, start).lines;
      Old(ls) == [last] && New([last], ls, 0, "\n") == [last, added + "\n"] && NewCount(ls) == 2
  {
    var ls := AddBehind(last, added, start).lines;
    assert ls[1..] == [ls[1]] && ls[1..][1..] == [];
    assert Old(ls[1..][1..]) == [] && New([last], ls[1..][1..], 1, "\n") == [] && NewCount(ls[1..][1..]) == 0;
    assert Old(ls[1..]) == [] && New([last], ls[1..], 1, "\n") == [added + "\n"] && NewCount(ls[1..]) == 1;
  }

  lemma PlacedFirst(last: string, added: string, start: nat)
    requires last != "" && '\n' !in last
    ensures SplitLines(last) == [last]
    ensures Landings([last], [AddBehind(last, added, start)], 0) == Some(Place(AddBehind(last, added, start), 0, Done))
  {
    var h := AddBehind(last, added, start);
    OneLine(last);
    MatchesFirst([last], h, last, added, start);
    LandingUnique([last], h, 0, 0);
    assert Landings([last], [h][1..], After(h, 0)) == Some(Done);
  }

  /** A text that is one line without a newline: a line added behind it is glued to
      it. Two lines have become one, and the reverse of the patch is refused. */
  lemma Glued(last: string, added: string, start: nat)
    requires last != "" && '\n' !in last && added != "" && '\n' !in added
    ensures var hunk := AddBehind(last, added, start);
      && Landings(SplitLines(last), [hunk], 0) == Some(Place(hunk, 0, Done))
      && Result(last, [hunk]) == Applied(last + added + "\n")
      && SplitLines(last + added + "\n") == [last + added + "\n"]
      && Result(last + added + "\n", HunksOf(Undo(Place(hunk, 0, Done), 0, 0))) == Refused
  {
    var h := AddBehind(last, added, start);
    PlacedFirst(last, added, start);
    LeavesBoth(last, added, start);
    assert Splice([last], Place(h, 0, Done), 0, "\n") == [last, added + "\n"];
    assert Join([last, added + "\n"]) == last + added + "\n";
    assert !HasCrLf(last);
    GluedLine(last + added);
    UndoRefused(last, added, start);
  }

  lemma {:induction false} GluedLine(text: string)
    requires '\n' !in text
    ensures FirstLine(text + "\n") == text + "\n" && SplitLines(text + "\n") == [text + "\n"]
    decreases |text|
  {
    if text != "" {
      GluedLine(text[1..]);
      assert (text + "\n")[1..] == text[1..] + "\n";
    }
  }

  lemma UndoRefused(last: string, added: string, start: nat)
    requires last != "" && added != ""
    ensures Landings([last + added + "\n"], HunksOf(Undo(Place(AddBehind(last, added, start), 0, Done), 0, 0)), 0) == None
  {
    var h, lines := AddBehind(last, added, start), [last + added + "\n"];
    var back := Reversed(h, 0);
    LeavesBoth(last, added, start);
    assert HunksOf(Undo(Place(h, 0, Done), 0, 0)) == [back];
    assert h.lines[1..] == [h.lines[1]] && h.lines[1..][1..] == [];
    assert Swap(h.lines[1..]) == [SwapLine(h.lines[1])];
    assert back.lines == [PatchLine(Context, last, false), PatchLine(Removal, added, false)];
    assert back.lines[1..] == [back.lines[1]];
    assert back.lines[0].prefix == Context && back.lines[1].prefix == Removal;
    forall j: nat ensures !FitAll(lines, back.lines, j, true) {
      assert !Fits(lines, back.lines[1], j + 1, true);
    }
    assert !Fits(lines, back.lines[1], 1, false);
    assert !FitAll(lines, back.lines[1..], 1, false);
    assert Landing(lines, back, 0).None?;
  }
}
