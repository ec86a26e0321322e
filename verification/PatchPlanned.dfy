/** From the printed text of a patch to the plan that is made of it. */
module PatchPlanned {
  import opened Wrappers
  import opened PatchApply
  import opened PatchParse
  import opened PatchPrint
  import opened PatchRoundTripText
  import opened PatchPlan

  /** What a parsed file asks for. */
  function ChangeOf(p: Parsed): Change { Change(p.relPath, p.file.create, p.file.hunks) }

  function Changes(parsed: seq<Parsed>): (r: seq<Change>)
    ensures |r| == |parsed| && forall i :: 0 <= i < |r| ==> r[i] == ChangeOf(parsed[i])
  {
    if parsed == [] then [] else [ChangeOf(parsed[0])] + Changes(parsed[1..])
  }

  lemma {:induction false} AnswerAt(files: seq<Source>, i: nat)
    requires i < |files|
    ensures |Answers(files)| == |files| && Answers(files)[i] == Parsed(files[i].relPath, ReadFile(files[i]))
  {
    if i > 0 { AnswerAt(files[1..], i - 1); } else if |files| > 1 { AnswerAt(files[1..], 0); }
  }

  /** The plan for one of the patch's files: its own path, created exactly if it is
      not there, and the text that the hunk lines, as they were before printing,
      make of what is there. */
  ghost predicate PlanFor(texts: map<string, string>, f: Source, plan: FilePlan) {
    && plan.path == f.relPath && (f.operation == Create <==> f.relPath !in texts)
    && Result(if f.relPath in texts then texts[f.relPath] else "", ReadHunks(f.hunks, f.operation == Create))
      == Applied(plan.text)
  }

  /** Printing a plain patch, parsing the text and planning: every file of the patch
      gets its plan, in order, every target once. */
  lemma PrintedThenPlanned(files: seq<Source>, denied: string -> bool,
      texts: map<string, string>, unreadable: set<string>, key: string -> string)
    requires files != [] && PlainFiles(files) && forall f :: f in files ==> !denied(f.relPath)
    requires |files| <= MAX_FILES && TotalHunks(ReadFiles(files)) <= MAX_HUNKS
    requires TotalChanged(ReadFiles(files)) <= MAX_LINES_CHANGED
    requires Print(files).Good? ==> |Print(files).value| <= MAX_TEXT_CHARS && !BinaryMarked(Print(files).value)
    ensures Print(files).Good? && ParseText(Print(files).value, denied).Good?
    ensures var plans := Planned(texts, unreadable, key, Changes(ParseText(Print(files).value, denied).value), {});
      plans.Some? ==>
        (|plans.value| == |files| && Distinct(plans.value)
         && forall i :: 0 <= i < |files| ==> PlanFor(texts, files[i], plans.value[i]))
  {
    PrintThenParse(files, denied);
    AnswersPlanned(files, texts, unreadable, key);
  }

  lemma AnswersPlanned(files: seq<Source>, texts: map<string, string>, unreadable: set<string>, key: string -> string)
    requires files != []
    ensures var plans := Planned(texts, unreadable, key, Changes(Answers(files)), {});
      plans.Some? ==>
        (|plans.value| == |files| && Distinct(plans.value)
         && forall i :: 0 <= i < |files| ==> PlanFor(texts, files[i], plans.value[i]))
  {
    var changes := Changes(Answers(files));
    var plans := Planned(texts, unreadable, key, changes, {});
    AnswerAt(files, 0);
    if plans.Some? {
      PlannedDistinct(texts, unreadable, key, changes, {});
      forall i | 0 <= i < |files| ensures PlanFor(texts, files[i], plans.value[i]) {
        AnswerAt(files, i);
        assert PlanOf(texts, changes[i], plans.value[i]);
      }
    }
  }
}
