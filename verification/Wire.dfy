/** The messages host and agent exchange, one JSON object a line. */
module Wire {
  import opened Json
  import opened Outcome
  import opened Wrappers

  /** A request id: a random UUID on the host. */
  type Id = string

  datatype Policy = Unsupported | CancellableRead | CancellableProcess | TwoPhaseMutation

  /** `REQUEST_CANCELLATION_POLICIES`, by group. */
  const PROCESS_VERBS := {"runCommand", "runDirectCommand", "runDirectTest"}
  const READ_VERBS := {
    "hello", "listTree", "readFile", "readFileTransfer", "repositorySemanticSnapshot",
    "directEpistemicRepositoryObservation", "repositoryRealizationContext", "listMatchingFiles",
    "resolvePath", "initializeWorkspaceWorkerBinding", "directTestProfile",
    "inspectWorkspaceRepository", "listWorkspaceRepositoryFiles", "matchWorkspaceRepositoryFiles",
    "searchWorkspaceRepositoryText", "readWorkspaceRepositoryFile", "watchStatus",
    "listCodexThreads", "readCodexThreadTranscript", "analyzeCodexThread"}

  /** `requestCancellationPolicy`; `apply` says that `params.mode` is "apply". */
  function PolicyOf(verb: string, apply: bool): Policy {
    if verb == "applyPatch" && !apply then CancellableRead
    else if CommitKind(verb).Some? then TwoPhaseMutation
    else if verb in PROCESS_VERBS then CancellableProcess
    else if verb in READ_VERBS then CancellableRead
    else Unsupported
  }

  /** Host to agent. */
  datatype Call =
    | Request(id: Id, verb: string, apply: bool)
    | CancelRequest(id: Id, target: Id)

  datatype ErrorCode =
    | QuiescenceUnproven           // workspace_backend_cancel_quiescence_unproven
    | TargetUnavailable            // workspace_backend_cancel_target_unavailable
    | TargetMissing                // workspace_backend_cancel_request_id_missing
    | CompletionUnproven           // workspace_backend_request_quiescence_unproven
    | CommitFailedIndeterminate    // workspace_backend_mutation_commit_failed_indeterminate
    | RequestIdInvalid             // workspace_backend_request_id_invalid
    | HandlerCode(code: string)

  datatype ErrorObject = ErrorObject(
    code: ErrorCode, completed: bool, quiesced: bool, mutationOutcome: Option<Receipt>)

  datatype Acknowledgement = Acknowledgement(
    target: Id, acknowledged: bool, quiesced: bool, mutationOutcome: Option<Receipt>)

  /** A result object: its plain members, its receipt, and the members of a cancel acknowledgement. */
  datatype ResultObject = ResultObject(
    body: Json, requestOutcome: Option<Receipt>, ack: Option<Acknowledgement>)

  datatype Payload = Ok(result: ResultObject) | Err(error: ErrorObject)

  /** Agent to host. */
  datatype Message = Message(id: Id, payload: Payload)
}
