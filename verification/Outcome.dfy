/** Mutation receipts (a method name is called a verb here, `method` being a keyword): what the agent writes when a two-phase request commits or
    fails after its commit point, and how the host reads them back. */
module Outcome {
  import opened Json
  import opened Text
  import opened Wrappers

  const SCHEMA := "workspace_backend_mutation_outcome@1"
  const DEFAULT_FAILURE := "workspace_backend_mutation_commit_failed"

  /** `MUTATION_COMMIT_KINDS_BY_METHOD`: every two-phase method has one commit kind. */
  function CommitKind(verb: string): Option<string> {
    if verb == "applyPatch" || verb == "applyWorkspaceWorkerPatch" then Some("apply_patch_files")
    else if verb == "provisionGitWorktree" then Some("git_worktree_add")
    else if verb == "removeGitWorktree" then Some("git_worktree_remove_non_force")
    else if verb == "ensureCodexSandboxArtifactIgnored" then Some("git_exclude_append")
    else if verb == "stageAttachment" then Some("stage_attachment")
    else if verb == "removeAttachmentDraft" then Some("remove_attachment_draft")
    else if verb == "importFile" then Some("import_file")
    else None
  }

  // ---------- failure codes ----------

  /** The characters both sides allow in a failure code. */
  predicate CodeChar(c: char) {
    IsLetter(c) || IsDigit(c) || c == '_' || c == '.' || c == ':' || c == '-'
  }

  function ReplaceOthers(s: string): (r: string)
    ensures |r| == |s|
    ensures forall i :: 0 <= i < |s| ==> r[i] == if CodeChar(s[i]) then s[i] else '_'
  {
    if s == "" then ""
    else [if CodeChar(s[0]) then s[0] else '_'] + ReplaceOthers(s[1..])
  }

  function Cut(code: string): string {
    var clean := ReplaceOthers(code);
    if |clean| > 160 then clean[..160] else clean
  }

  function CutOr(code: string, fallback: string): string {
    if Cut(code) == "" then fallback else Cut(code)
  }

  /** An error's own code, trimmed; the default when it has none. */
  function RawCode(raw: string): string { Trim(if raw == "" then DEFAULT_FAILURE else raw) }

  /** The agent's failure code for an error whose own code is `raw`. */
  function FailureCode(raw: string): string { CutOr(RawCode(raw), DEFAULT_FAILURE) }

  /** The host's grammar for a public error code. */
  predicate PublicCode(s: string) {
    1 <= |s| <= 128 && IsLetter(s[0]) && forall i :: 0 <= i < |s| ==> CodeChar(s[i])
  }

  function PublicErrorCode(code: string, fallback: string): string {
    if PublicCode(Trim(code)) then Trim(code) else fallback
  }

  // ---------- receipts ----------

  datatype Hash = NoHash | Sha(preimage: seq<Tok>)

  /** A receipt on the wire; an absent string is "", an absent flag is false. */
  datatype Receipt = Receipt(
    schema: string,
    requestId: string,
    verb: string,
    commitKind: string,
    committed: bool,
    indeterminate: bool,
    partialPossible: bool,
    retained: bool,
    resultDigest: Hash,
    failureCode: string,
    rawPathIncluded: bool,
    outcomeDigest: Hash)

  /** The object the outcome digest is taken over. */
  function Fields(r: Receipt): map<string, Json> {
    if r.committed then
      map[
        "schema" := Str(r.schema),
        "requestId" := Str(r.requestId),
        "method" := Str(r.verb),
        "commitKind" := Str(r.commitKind),
        "committed" := Bool(true),
        "retainedForInspection" := Bool(r.retained),
        "resultDigest" := if r.resultDigest.Sha? then Digest(r.resultDigest.preimage) else Str(""),
        "rawPathIncluded" := Bool(r.rawPathIncluded)]
    else
      map[
        "schema" := Str(r.schema),
        "requestId" := Str(r.requestId),
        "method" := Str(r.verb),
        "commitKind" := Str(r.commitKind),
        "committed" := Bool(false),
        "indeterminate" := Bool(r.indeterminate),
        "partialMutationPossible" := Bool(r.partialPossible),
        "retainedForInspection" := Bool(r.retained),
        "failureCode" := Str(r.failureCode),
        "rawPathIncluded" := Bool(r.rawPathIncluded)]
  }

  function Sealed(r: Receipt): Receipt {
    r.(outcomeDigest := Sha(AgentCanon(Obj(Fields(r)))))
  }

  /** The receipt `completeCurrentRequestCommit` builds for `result`. */
  function CommittedReceipt(requestId: string, verb: string, kind: string, retained: bool, result: Json): Receipt {
    Sealed(Receipt(SCHEMA, requestId, verb, kind, true, false, false, retained,
      Sha(AgentCanon(result)), "", false, NoHash))
  }

  /** The receipt `failedMutationOutcome` builds for an error with code `raw`. */
  function FailedReceipt(requestId: string, verb: string, kind: string, raw: string): Receipt {
    Sealed(Receipt(SCHEMA, requestId, verb, kind, false, true, true, true,
      NoHash, FailureCode(raw), false, NoHash))
  }

  /** The outcome the host makes up when a request could not be written. */
  function UnwrittenOutcome(requestId: string, verb: string, failure: string): Option<Receipt> {
    match CommitKind(verb)
    case None => None
    case Some(kind) =>
      var r := Receipt(SCHEMA, Trim(requestId), Trim(verb), kind, false, true, true, false,
        NoHash, PublicErrorCode(failure, "workspace_backend_request_write_failed"), false, NoHash);
      Some(r.(outcomeDigest := Sha(HostCanon(Obj(Fields(r))))))
  }

  /** `normalizeBackendMutationOutcome`. An empty pending id or method is an
      absent one; `body` is the result the receipt arrived in, without the receipt. */
  function Normalize(value: Receipt, pendingId: string, pendingVerb: string, body: Option<Json>): Option<Receipt> {
    var requestId := Trim(value.requestId);
    var verb := Trim(value.verb);
    var kind := Trim(value.commitKind);
    var failure := if value.committed then "" else PublicErrorCode(value.failureCode, "");
    if value.schema != SCHEMA || value.outcomeDigest == NoHash then None
    else if
      || requestId == "" || verb == "" || kind == ""
      || (pendingId != "" && requestId != pendingId)
      || (pendingVerb != "" && verb != pendingVerb)
      || CommitKind(verb) != Some(kind)
      || value.rawPathIncluded
    then None
    else if value.committed && (value.indeterminate || value.partialPossible || value.resultDigest == NoHash) then None
    else if !value.committed
      && (!value.indeterminate || !value.partialPossible || failure == "" || value.resultDigest != NoHash)
    then None
    else
      var base := value.(requestId := requestId, verb := verb, commitKind := kind, failureCode := failure);
      if value.outcomeDigest != Sha(HostCanon(Obj(Fields(base)))) then None
      else if value.committed && body.Some? && value.resultDigest != Sha(HostCanon(body.value)) then None
      else Some(base)
  }

  // ---------- every honest receipt is read back as written ----------

  /** Request ids the agent keys scopes by: trimmed and non-empty. */
  predicate RequestId(id: string) { id != "" && Trimmed(id) }

  /** A word that starts and ends with a letter. */
  lemma WordTrimmed(word: string)
    requires word != "" && IsLetter(word[0]) && IsLetter(word[|word| - 1])
    ensures Trimmed(word)
  {
  }

  lemma KindsTrimmed(verb: string)
    ensures CommitKind(verb).Some? ==>
      verb != "" && Trimmed(verb) && CommitKind(verb).value != "" && Trimmed(CommitKind(verb).value)
  {
    if CommitKind(verb).Some? {
      WordTrimmed(verb);
      WordTrimmed(CommitKind(verb).value);
    }
  }

  lemma DefaultFailurePublic()
    ensures PublicCode(DEFAULT_FAILURE)
  {
  }

  lemma CutShape(code: string)
    ensures forall i :: 0 <= i < |Cut(code)| ==> CodeChar(Cut(code)[i])
    ensures Cut(code) == "" <==> code == ""
    ensures code != "" ==> (PublicCode(Cut(code)) <==> IsLetter(code[0]) && |code| <= 128)
  {
    var clean := ReplaceOthers(code);
    assert |clean| == |code|;
    forall i | 0 <= i < |Cut(code)| ensures CodeChar(Cut(code)[i]) {
      assert Cut(code)[i] == clean[i];
    }
    if code != "" { assert Cut(code)[0] == clean[0]; }
  }

  lemma CutOrShape(code: string, fallback: string)
    requires PublicCode(fallback)
    ensures var r := CutOr(code, fallback);
      && r != "" && Trim(r) == r
      && (PublicCode(r) <==> code == "" || (IsLetter(code[0]) && |code| <= 128))
  {
    CutShape(code);
    assert forall c :: CodeChar(c) ==> !IsSpace(c);
    TrimOfTrimmed(CutOr(code, fallback));
  }

  lemma FieldsDefined(r: Receipt)
    ensures NoUndefined(Obj(Fields(r)))
    ensures HostCanon(Obj(Fields(r))) == AgentCanon(Obj(Fields(r)))
  {
    CanonsAgree(Obj(Fields(r)));
  }

  lemma CommonFields(r: Receipt)
    ensures var f := Fields(r);
      && {"committed", "schema", "requestId", "method", "commitKind", "retainedForInspection", "rawPathIncluded"} <= f.Keys
      && f["committed"] == Bool(r.committed) && f["schema"] == Str(r.schema)
      && f["requestId"] == Str(r.requestId) && f["method"] == Str(r.verb) && f["commitKind"] == Str(r.commitKind)
      && f["retainedForInspection"] == Bool(r.retained) && f["rawPathIncluded"] == Bool(r.rawPathIncluded)
  {
  }

  lemma FieldsInjective(a: Receipt, b: Receipt)
    requires Fields(a) == Fields(b)
    ensures a.committed == b.committed && a.schema == b.schema && a.requestId == b.requestId
    ensures a.verb == b.verb && a.commitKind == b.commitKind
    ensures a.retained == b.retained && a.rawPathIncluded == b.rawPathIncluded
  {
    CommonFields(a);
    CommonFields(b);
  }

  lemma CommittedFieldsInjective(a: Receipt, b: Receipt)
    requires a.committed && b.committed && Fields(a) == Fields(b)
    ensures a.resultDigest == b.resultDigest
  {
    assert Fields(a)["resultDigest"] == Fields(b)["resultDigest"];
  }

  lemma FailedFieldsInjective(a: Receipt, b: Receipt)
    requires !a.committed && !b.committed && Fields(a) == Fields(b)
    ensures a.indeterminate == b.indeterminate && a.partialPossible == b.partialPossible
    ensures a.failureCode == b.failureCode
  {
    assert Fields(a)["indeterminate"] == Fields(b)["indeterminate"];
    assert Fields(a)["partialMutationPossible"] == Fields(b)["partialMutationPossible"];
    assert Fields(a)["failureCode"] == Fields(b)["failureCode"];
  }

  lemma HonestTrims(id: string, verb: string)
    requires RequestId(id) && CommitKind(verb).Some?
    ensures Trim(id) == id && verb != "" && Trim(verb) == verb
    ensures CommitKind(verb).value != "" && Trim(CommitKind(verb).value) == CommitKind(verb).value
  {
    KindsTrimmed(verb);
    TrimOfTrimmed(id);
    TrimOfTrimmed(verb);
    TrimOfTrimmed(CommitKind(verb).value);
  }

  lemma FailureCodeShape(raw: string)
    ensures FailureCode(raw) != "" && Trim(FailureCode(raw)) == FailureCode(raw)
    ensures PublicCode(FailureCode(raw)) <==>
      RawCode(raw) == "" || (IsLetter(RawCode(raw)[0]) && |RawCode(raw)| <= 128)
  {
    DefaultFailurePublic();
    CutOrShape(RawCode(raw), DEFAULT_FAILURE);
  }

  /** A committed receipt that is sealed and names its own request is read as it
      is, unless a result comes with it that it was not written for. */
  lemma OwnReceiptRead(r: Receipt, body: Option<Json>)
    requires r.committed && !r.indeterminate && !r.partialPossible && r.resultDigest != NoHash && r.failureCode == ""
    requires r.schema == SCHEMA && !r.rawPathIncluded && r == Sealed(r)
    requires RequestId(r.requestId) && CommitKind(r.verb) == Some(r.commitKind)
    ensures Normalize(r, r.requestId, r.verb, body)
      == if body.Some? && r.resultDigest != Sha(HostCanon(body.value)) then None else Some(r)
  {
    HonestTrims(r.requestId, r.verb);
    assert HostCanon(Obj(Fields(r))) == AgentCanon(Obj(Fields(r))) by { FieldsDefined(r); }
    assert r.outcomeDigest == Sha(HostCanon(Obj(Fields(r))));
    assert r == r.(requestId := Trim(r.requestId), verb := Trim(r.verb), commitKind := Trim(r.commitKind), failureCode := "");
  }

  /** The host accepts a committed receipt in the result it was written for
      exactly when that result holds no undefined value. */
  lemma CommittedAccepted(id: string, verb: string, retained: bool, result: Json)
    requires RequestId(id) && CommitKind(verb).Some? && !result.Undefined?
    ensures var r := CommittedReceipt(id, verb, CommitKind(verb).value, retained, result);
      Normalize(r, id, verb, Some(Transport(result))) == if NoUndefined(result) then Some(r) else None
  {
    OwnReceiptRead(CommittedReceipt(id, verb, CommitKind(verb).value, retained, result), Some(Transport(result)));
    CanonicalAgreement(result);
  }

  /** The host accepts a failed receipt exactly when its failure code fits the
      host's grammar: the trimmed error code is empty, or starts with a letter
      and has at most 128 characters. A numeric code, or one of 129 to 160
      characters, passes the agent and not the host. */
  lemma FailedAccepted(id: string, verb: string, raw: string, body: Option<Json>)
    requires RequestId(id) && CommitKind(verb).Some?
    ensures var r := FailedReceipt(id, verb, CommitKind(verb).value, raw);
      var t := RawCode(raw);
      Normalize(r, id, verb, body)
        == if t == "" || (IsLetter(t[0]) && |t| <= 128) then Some(r) else None
  {
    var kind := CommitKind(verb).value;
    var r := FailedReceipt(id, verb, kind, raw);
    HonestTrims(id, verb);
    FailureCodeShape(raw);
    FieldsDefined(r);
  }

  lemma RawCodeTrimmed(code: string)
    requires code != "" && Trimmed(code)
    ensures RawCode(code) == code
  {
    TrimOfTrimmed(code);
  }

  /** Error codes that start with a digit lose the outcome. */
  lemma NumericCodeRefused(id: string, verb: string, code: string)
    requires RequestId(id) && CommitKind(verb).Some?
    requires code != "" && Trimmed(code) && IsDigit(code[0])
    ensures Normalize(FailedReceipt(id, verb, CommitKind(verb).value, code), id, verb, None) == None
  {
    RawCodeTrimmed(code);
    FailedAccepted(id, verb, code, None);
  }

  /** What the host accepts says nothing but what was hashed: a value carrying
      the outcome digest of an honest receipt is read as that receipt. */
  lemma AcceptedAsSealed(value: Receipt, honest: Receipt, pendingId: string, pendingVerb: string, body: Option<Json>)
    requires honest == Sealed(honest)
    requires if honest.committed then honest.failureCode == "" && !honest.indeterminate && !honest.partialPossible
             else honest.resultDigest == NoHash
    requires value.outcomeDigest == honest.outcomeDigest
    requires Normalize(value, pendingId, pendingVerb, body).Some?
    ensures Normalize(value, pendingId, pendingVerb, body).value == honest
  {
    var base := Normalize(value, pendingId, pendingVerb, body).value;
    FieldsDefined(base);
    FieldsDefined(honest);
    CanonicalInjective(Obj(Fields(base)), Obj(Fields(honest)));
    FieldsInjective(base, honest);
    if base.committed { CommittedFieldsInjective(base, honest); } else { FailedFieldsInjective(base, honest); }
  }

  /** A committed receipt written for one request, method and result is refused
      for any other request, method or result body. */
  lemma ForeignRefused(id: string, verb: string, retained: bool, result: Json,
                       pendingId: string, pendingVerb: string, body: Json)
    requires RequestId(id) && CommitKind(verb).Some? && pendingId != "" && pendingVerb != ""
    requires NoUndefined(result) && NoUndefined(body)
    requires Normalize(CommittedReceipt(id, verb, CommitKind(verb).value, retained, result),
      pendingId, pendingVerb, Some(body)).Some?
    ensures id == pendingId && verb == pendingVerb && body == result
  {
    HonestTrims(id, verb);
    CanonsAgree(body);
    CanonicalInjective(body, result);
  }

  /** A failed receipt is refused for any other request or method. */
  lemma ForeignFailureRefused(id: string, verb: string, raw: string, pendingId: string, pendingVerb: string, body: Option<Json>)
    requires RequestId(id) && CommitKind(verb).Some? && pendingId != "" && pendingVerb != ""
    requires Normalize(FailedReceipt(id, verb, CommitKind(verb).value, raw), pendingId, pendingVerb, body).Some?
    ensures id == pendingId && verb == pendingVerb
  {
    HonestTrims(id, verb);
  }
}
