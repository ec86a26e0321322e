/** Planning and applying a patch of several files inside a two-phase request. */
module PatchPlan {
  import opened Json
  import opened Outcome
  import opened Wrappers
  import opened Wire
  import opened AgentState
  import opened AgentServer
  import opened Lines
  import opened PatchApply

  /** What is asked of one file. */
  datatype Change = Change(path: string, create: bool, hunks: seq<Hunk>)

  /** The target and the whole text it will get. */
  datatype FilePlan = FilePlan(path: string, text: string)

  /** The file system as this request sees it. Temporary files are kept apart: no
      target has the name of one. */
  class Files {
    var texts: map<string, string>
    var unreadable: set<string>       // symbolic links, binaries, oversized files
    var temps: map<string, string>
    var replaced: seq<FilePlan>       // every rename onto a target, in order

    constructor (texts: map<string, string>, unreadable: set<string>)
      ensures this.texts == texts && this.unreadable == unreadable && temps == map[] && replaced == []
    {
      this.texts, this.unreadable, temps, replaced := texts, unreadable, map[], [];
    }

    method WriteTemp(path: string, text: string)
      modifies this`temps
      ensures temps == old(temps)[path := text]
    {
      temps := temps[path := text];
    }

    method Rename(path: string)
      requires path in temps
      modifies this`temps, this`texts, this`replaced
      ensures texts == old(texts)[path := old(temps)[path]]
      ensures replaced == old(replaced) + [FilePlan(path, old(temps)[path])]
    {
      texts := texts[path := temps[path]];
      replaced := replaced + [FilePlan(path, temps[path])];
      temps := temps - {path};
    }
  }

  /** Where the writing of one file breaks off, if it does. */
  datatype Trouble = Fine | MkdirFails | WriteFails | RenameFails

  // ---------- planning ----------

  /** What planning answers; none when it throws. `key` is the collision key of a path. */
  ghost function Planned(texts: map<string, string>, unreadable: set<string>, key: string -> string,
      patches: seq<Change>, seen: set<string>): Option<seq<FilePlan>>
  {
    if patches == [] then Some([])
    else
      var p := patches[0];
      if key(p.path) in seen || p.path in unreadable || (p.create <==> p.path in texts) then None
      else
        match Result(if p.path in texts then texts[p.path] else "", p.hunks)
        case Refused => None
        case Applied(text) =>
          match Planned(texts, unreadable, key, patches[1..], seen + {key(p.path)})
          case None => None
          case Some(rest) => Some([FilePlan(p.path, text)] + rest)
  }

  /** The planning loop of `applyPatchPlan`: it only reads. */
  method PlanFiles(fs: Files, key: string -> string, patches: seq<Change>) returns (plans: Option<seq<FilePlan>>)
    ensures plans == Planned(fs.texts, fs.unreadable, key, patches, {})
  {
    var seen: set<string> := {};
    var done: seq<FilePlan> := [];
    BehindNothing(Planned(fs.texts, fs.unreadable, key, patches, {}));
    assert patches[0..] == patches;
    for i := 0 to |patches|
      invariant Planned(fs.texts, fs.unreadable, key, patches, {})
        == Behind(done, Planned(fs.texts, fs.unreadable, key, patches[i..], seen))
    {
      var p := patches[i];
      assert patches[i..][0] == p && patches[i..][1..] == patches[i + 1..];
      if key(p.path) in seen { return None; }
      seen := seen + {key(p.path)};
      if p.path in fs.unreadable { return None; }
      var exists_ := p.path in fs.texts;
      if p.create && exists_ { return None; }
      if !p.create && !exists_ { return None; }
      var after := ApplyParsedHunks(if exists_ then fs.texts[p.path] else "", p.hunks);
      if after.Refused? { return None; }
      BehindOne(done, FilePlan(p.path, after.text), Planned(fs.texts, fs.unreadable, key, patches[i + 1..], seen));
      done := done + [FilePlan(p.path, after.text)];
    }
    assert done + [] == done;
    plans := Some(done);
  }

  lemma BehindNothing(rest: Option<seq<FilePlan>>)
    ensures Behind([], rest) == rest
  {
    if rest.Some? { assert [] + rest.value == rest.value; }
  }

  ghost function Behind(done: seq<FilePlan>, rest: Option<seq<FilePlan>>): Option<seq<FilePlan>> {
    if rest.None? then None else Some(done + rest.value)
  }

  lemma BehindOne(done: seq<FilePlan>, plan: FilePlan, rest: Option<seq<FilePlan>>)
    ensures rest.Some? ==> Behind(done, Some([plan] + rest.value)) == Behind(done + [plan], rest)
  {
    if rest.Some? { assert done + ([plan] + rest.value) == (done + [plan]) + rest.value; }
  }

  /** Every target once. */
  predicate Distinct(plans: seq<FilePlan>) {
    forall i, j :: 0 <= i < j < |plans| ==> plans[i].path != plans[j].path
  }

  /** The plan for a file: the text its hunks make of what is there now. */
  ghost predicate PlanOf(texts: map<string, string>, p: Change, plan: FilePlan) {
    && plan.path == p.path && (p.create <==> p.path !in texts)
    && Result(if p.path in texts then texts[p.path] else "", p.hunks) == Applied(plan.text)
  }

  lemma {:induction false} PlannedDistinct(texts: map<string, string>, unreadable: set<string>, key: string -> string,
      patches: seq<Change>, seen: set<string>)
    requires Planned(texts, unreadable, key, patches, seen).Some?
    ensures var plans := Planned(texts, unreadable, key, patches, seen).value;
      && |plans| == |patches| && Distinct(plans)
      && (forall i :: 0 <= i < |plans| ==> key(plans[i].path) !in seen)
      && (forall i :: 0 <= i < |plans| ==> PlanOf(texts, patches[i], plans[i]))
    decreases |patches|
  {
    if patches != [] {
      PlannedDistinct(texts, unreadable, key, patches[1..], seen + {key(patches[0].path)});
    }
  }

  // ---------- applying ----------

  function Written(texts: map<string, string>, plans: seq<FilePlan>): map<string, string> {
    if plans == [] then texts
    else Written(texts, plans[..|plans| - 1])[plans[|plans| - 1].path := plans[|plans| - 1].text]
  }

  /** The files after a prefix of the plan: its targets have their planned text,
      every other file is as it was. */
  lemma {:induction false} WrittenMeans(texts: map<string, string>, plans: seq<FilePlan>)
    requires Distinct(plans)
    ensures var after := Written(texts, plans);
      && (forall i :: 0 <= i < |plans| ==> plans[i].path in after && after[plans[i].path] == plans[i].text)
      && (forall path :: (forall i :: 0 <= i < |plans| ==> plans[i].path != path) ==>
          (path in after <==> path in texts) && (path in texts ==> after[path] == texts[path]))
  {
    if plans != [] {
      var rest := plans[..|plans| - 1];
      WrittenMeans(texts, rest);
      assert forall i :: 0 <= i < |rest| ==> rest[i] == plans[i];
      forall path | forall i :: 0 <= i < |plans| ==> plans[i].path != path
        ensures var after := Written(texts, plans);
          (path in after <==> path in texts) && (path in texts ==> after[path] == texts[path])
      {
        assert forall i :: 0 <= i < |rest| ==> rest[i].path != path;
      }
    }
  }

  datatype Applying =
    | NotPlanned                                     // planning threw
    | DryRun(plans: seq<FilePlan>)
    | CommitRefused(code: string)                    // the commit point was not entered
    | BrokenOff                                      // the file system failed
    | Applied_(plans: seq<FilePlan>, result: ResultObject)

  /** The writing loop: how many files were replaced before trouble. */
  method WriteFiles(fs: Files, plans: seq<FilePlan>, trouble: nat -> Trouble) returns (count: nat)
    modifies fs`texts, fs`temps, fs`replaced
    ensures count <= |plans|
    ensures fs.replaced == old(fs.replaced) + plans[..count]
    ensures fs.texts == Written(old(fs.texts), plans[..count])
    ensures count < |plans| <==> exists i: nat :: i < |plans| && trouble(i) != Fine
    ensures forall i: nat :: i < count ==> trouble(i) == Fine
  {
    count := 0;
    while count < |plans|
      invariant count <= |plans|
      invariant fs.replaced == old(fs.replaced) + plans[..count]
      invariant fs.texts == Written(old(fs.texts), plans[..count])
      invariant forall i: nat :: i < count ==> trouble(i) == Fine
    {
      if trouble(count) == MkdirFails || trouble(count) == WriteFails { return; }
      fs.WriteTemp(plans[count].path, plans[count].text);
      if trouble(count) == RenameFails { return; }
      fs.Rename(plans[count].path);
      assert plans[..count + 1][..count] == plans[..count];
      assert plans[..count + 1] == plans[..count] + [plans[count]];
      count := count + 1;
    }
  }

  /** `applyPatchPlan`, in the scope of its request; `count` is how many files
      were replaced. Without a plan, in a dry run and without the commit point
      nothing is written. Otherwise a prefix of the plan is written, every target
      once, and the request is committed exactly when that is the whole plan. */
  method ApplyPatchPlan(fs: Files, scope: RequestScope, apply: bool, key: string -> string, patches: seq<Change>,
      render: seq<FilePlan> -> Json, trouble: nat -> Trouble, code: string) returns (r: Applying, count: nat)
    requires scope.Valid() && scope.outcome.None?
    requires if apply then scope.policy == TwoPhaseMutation && scope.phase == Precommit else scope.phase == Execution || scope.phase == Precommit
    requires CommitKind(scope.verb) == Some("apply_patch_files")
    modifies fs`texts, fs`temps, fs`replaced, scope
    ensures scope.Valid()
    ensures r.NotPlanned? <==> old(Planned(fs.texts, fs.unreadable, key, patches, {})).None?
    ensures r.NotPlanned? || r.DryRun? || r.CommitRefused? ==> count == 0 && scope.phase == old(scope.phase)
    ensures r.NotPlanned? ==> fs.texts == old(fs.texts) && fs.replaced == old(fs.replaced)
    ensures r.DryRun? || r.Applied_? ==> Some(r.plans) == old(Planned(fs.texts, fs.unreadable, key, patches, {}))
    ensures r.CommitRefused? ==> old(scope.cancelled)
    ensures !r.NotPlanned? ==>
      var plans := old(Planned(fs.texts, fs.unreadable, key, patches, {})).value;
      && Distinct(plans) && count <= |plans|
      && fs.replaced == old(fs.replaced) + plans[..count] && fs.texts == Written(old(fs.texts), plans[..count])
      && (r.Applied_? ==> count == |plans|) && (r.BrokenOff? ==> count < |plans|)
    ensures apply && !r.NotPlanned? ==> !r.DryRun?
    ensures scope.phase == Committed <==> r.Applied_?
    ensures scope.phase == CommitFailed <==> r.BrokenOff?
    ensures r.Applied_? ==>
      scope.outcome == Some(CommittedReceipt(scope.requestId, scope.verb, "apply_patch_files", true, render(r.plans)))
    ensures r.BrokenOff? ==>
      scope.outcome == Some(FailedReceipt(scope.requestId, scope.verb, "apply_patch_files", code))
  {
    count := 0;
    var planned := PlanFiles(fs, key, patches);
    if planned.None? { return NotPlanned, 0; }
    var plans := planned.value;
    PlannedDistinct(fs.texts, fs.unreadable, key, patches, {});
    assert fs.replaced + plans[..0] == fs.replaced;
    if !apply { return DryRun(plans), 0; }
    var refused := scope.BeginCommit("apply_patch_files");
    if refused.Some? { return CommitRefused(refused.value), 0; }
    count := WriteFiles(fs, plans, trouble);
    if count < |plans| {
      scope.Throws(code);
      return BrokenOff, count;
    }
    assert plans[..count] == plans;
    var result := scope.CompleteCommit(render(plans), true);
    r := Applied_(plans, result.value);
  }
}
