# Workspace backend: verified models

A Dafny model of the parts of the workspace backend that have to be right under
every interleaving, every file content and every chunking: the cancellable
request protocol between host and agent, process custody, the patch engine, the
stream decoders, and three stateful stores. `dafny verify dfyconfig.toml` checks
everything.

## How it is organised

- **Requests** (`Wire`, `HostState`, `AgentState`, `Protocol`, `Protocol*`). Host
  and agent are joined by two streams that keep their order. Each event is the
  code between two awaits at one end: asks, deadlines, abort signals, write
  callbacks, closing and incoming messages at the host; lines, commit points,
  handler returns and throws, custody finalization and cancel jobs at the agent.
  `Protocol.Inv` is proved to survive every event, and the theorems in
  `ProtocolTheorems` and `ProtocolQuiescence` follow for every state of every run.
- **The two ends as objects** (`HostTransport`, `AgentServer`). `NdjsonTransport`,
  the request scope and the agent's registries are classes whose methods follow
  the original's branches and change the original's fields; each is proved to be
  the step that the protocol takes.
- **Outcomes** (`Json`, `Outcome`). Canonical JSON on both sides, JSON transport,
  and the receipts that bind an outcome to a request, a method and a result.
- **Custody** (`Custody`, `CustodyProof`, `CustodyPromises`, `CustodyReuse`,
  `CustodyComplete`, `CustodyExact`, `ProcessRegistry`, `ProcessTree`). Kernel and
  agent as one state machine: forks, deaths, pids given out again, late children,
  terminations remembered by pid, finalization. `ProtocolCustody` runs it beside the
  protocol.
- **Patches** (`Lines`, `PatchApply`, `PatchTheorems`, `PatchReversal`,
  `PatchEndings`, `PatchGlue`, `PatchParse`, `PatchPrint`, `PatchRoundTrip*`,
  `PatchLookalike`, `PatchPlan`, `PatchPlanned`). The loops that locate and apply
  hunks against a declarative splice, the reverse patch, the line-driven parser, the
  printer that it undoes, and the plan written inside the commit protocol.
- **Streams** (`Framing`, `PtyFrames`) and **stores** (`UsageLedger`,
  `Preferences`, `Transcript`), each a class proved against a specification.
  `Wrappers` and `Text` hold what the others share.

## What the proofs found in the code

- A failed commit whose error code starts with something other than a letter, or
  is longer than 128 characters, passes the agent's sanitizer
  (`src/backend/wsl-agent.js:428-431`) and not the host's grammar
  (`src/main/workspace-backend.js:77-82`), so the host would drop the agent's
  indeterminate outcome: `Outcome.FailedAccepted` says exactly when. The mismatch is
  latent: no commit site throws such a code today.
- A commit whose result holds an undefined member or item could not be accepted by
  the host, since both sides hash different text: `Json.CanonicalAgreement` says
  exactly when. Latent as well: no commit site builds such a result today.
- A pid that comes back within one request is covered by the promise remembered
  for its former group, so the request is never reported quiescent again
  (`CustodyReuse.ReuseNeverQuiesces`), although every process is gone and every
  receipt positive (`CustodyComplete.ReuseHappens`). It errs on the safe side:
  quiescence is reported exactly when every awaited receipt is positive, no child is
  left and the last group under each pid has been answered for
  (`CustodyExact.QuiescenceExactly`); without such a reuse, and without a child
  tracked after finalization has started, the receipts alone decide
  (`CustodyComplete.QuiescenceIsReported`).
- A patch that removes the last line of a text without a final newline, or adds
  behind it, cannot be reversed, even when the added line is empty: the added line
  is glued to the last one. `PatchReversal.ReversalExactly` has the exact condition,
  `PatchGlue.Glued` a concrete family.
- Added lines take the ending of the text they are added to, so the reverse of a
  patch gives a removed line the ending of the patched text, which need not be its
  own: `PatchEndings.EndingsExactly`. A file of carriage returns and newlines loses
  the carriage returns when a patch that empties it is reversed
  (`PatchEndings.CrLfReversal`).
- A hunk line that prints like a file header is parsed as one, and a hunk line that
  ends in a carriage return loses it. A printed patch is parsed back as it was
  exactly without such lines (`PatchLookalike.PlainExactly`). The added line
  `++ b/` followed by a path moves the patch to that path
  (`PatchLookalike.Retargeted`), which is then the path checked and planned.
- Reconciling a preference while its write is under way would leave the picked value
  shown, whatever was saved and also when nothing was
  (`Preferences.ReconcileInFlight`). This is latent: reconciling disturbs a scope
  exactly while it is saving (`Preferences.ReconcileDisturbs`), and both callers test
  the status first (`src/renderer/codex-surface.js:4279-4283`, `4292-4296`), so what
  they show is what was saved (`Preferences.IdleShowsSaved`).

## Model

| member | source | states |
|---|---|---|
| ProtocolTheorems.AbortIsTruthful | src/main/workspace-backend.js:843-865 | Over every interleaving: when a caller has been settled with an abort error (or with a result that carries no receipt), the agent is past that request's commit point in no state of the run, earlier or later |
| ProtocolTheorems.ResolveIsTruthful | src/main/workspace-backend.js:706-791 | Over every interleaving: when a caller has been settled with a result that carries a receipt, the agent's scope is `committed` in that state and in every later one, with that very receipt, and the body delivered is the committed body after JSON transport, which holds no undefined value |
| ProtocolTheorems.FailureIsTruthful | src/main/workspace-backend.js:814-841 | An error passed on from the agent carries exactly the agent's final outcome: none if there was no commit point, the receipt if there was; the one exception, stated as a condition on the error code, is a failed commit whose code the host's grammar refuses |
| ProtocolTheorems.DefencesIdle | src/main/workspace-backend.js:674-758 | Facing this agent no receipt is ever held back for a result, no control answer is malformed, receipts never conflict and none goes missing; a result is refused as invalid only if its commit completed with a value holding an undefined member |
| ProtocolTheorems.NoLostRequests | src/backend/wsl-agent.js:6764-6799 | When both streams have been read and the agent rests, and no cancel request was lost in writing, every request has been settled except those cancelled before they had an outcome whose quiescence the agent said it could not prove |
| ProtocolTheorems.SettledOnce | src/main/workspace-backend.js:642-805 | In every reachable state no promise has been settled twice, every asked request is either in the map or settled and never both, records in the map are unsettled, and each cancel record is the one its target points back at |
| ProtocolTheorems.OnlyTheseSettle | src/main/workspace-backend.js:927-987 | A step that adds a verdict is a message, a failed write, a close, or an ask that never reached the stream; a deadline or an abort signal settles nobody |
| ProtocolTheorems.PhasesForward | src/backend/wsl-agent.js:386-448 | Over any stretch of a run phases never go back, the terminal phases and their receipts are final, and a request cancelled before its commit point never enters it |
| ProtocolTheorems.ReceiptIffTerminal | src/backend/wsl-agent.js:403-448 | A mutation outcome exists exactly in the two terminal commit phases; it names this request and holds the digest of the committed body or the failure code of the error |
| ProtocolTheorems.OneReply | src/backend/wsl-agent.js:6882-6899 | No two messages ever have the same id; under a scoped request's id there is one exactly when the scope is completed and was not cancelled without an outcome |
| ProtocolTheorems.RunInv | src/main/workspace-backend.js:548-1028 | The invariant relating map, verdicts, both streams, scopes, jobs and remembered completions holds in every state of every run, and every asked request is accounted for |
| ProtocolQuiescence.QuiescenceIsTold | src/backend/wsl-agent.js:6874-6899 | Over every interleaving and for good: a caller settled by a message is told what finalizing the request's processes found (an abort, a result and a refused result claim quiescence, an error claims what its flag says); after an abort the scope's own quiescence stays true, and otherwise only a cancel that found the outcome already decided can have lowered it since |
| ProtocolQuiescence.StepHonest | src/backend/wsl-agent.js:6738-6903 | Every event at either end keeps all claims of quiescence (remembered completions, prepared and sent cancel answers, sent replies, verdicts) in agreement with the scope they speak of |
| ProtocolQuiescence.HearCancelHonest | src/backend/wsl-agent.js:6745-6763 | A cancel answered from the memory of completed requests claims quiescence only for a scope that is done, was found quiesced, and that no other cancel can still lower |
| ProtocolCustody.ToldMeansGone | src/backend/wsl-agent.js:638-653 | Over every joint run of protocol and custody, the one hearing from the other what finalization answers: when a caller of a scoped request has been told that it was quiesced, finalization did report it before, and every process group tracked for the request by then has no member that can mutate, then or ever after |
| ProtocolCustody.ToldForGood | src/backend/wsl-agent.js:6764-6785 | Over every such joint run: what a caller was told about quiescence (by an abort, a result, or the flag of an error) is what its scope says from then on; no cancel that resumes later finds otherwise, since finalization has seen the receipts that it waits for |
| ProtocolCustody.ResumeAgrees | src/backend/wsl-agent.js:6778-6785 | A cancel that resumes for a request found quiesced finds all its terminations positive and leaves the scope quiesced |
| ProtocolCustody.FoundByFinalizing | src/backend/wsl-agent.js:6874-6880 | A scope becomes completed only by finalizing its custody, and what that found never changes |
| CustodyPromises.StepRemembers | src/backend/wsl-agent.js:572-604 | Every event keeps all remembered promises, and a group under a pid that has one leaves the request only once that promise is answered positively |
| ProtocolSteps.StepKeeps | src/backend/wsl-agent.js:6738-6903 | Every one of the nineteen events at either end preserves the invariant, from any state in which it holds |
| ProtocolSteps.HostStepKeeps | src/main/workspace-backend.js:642-1028 | The events at the host preserve it |
| ProtocolSteps.AgentStepKeeps | src/backend/wsl-agent.js:6816-6903 | The events at the agent preserve it |
| ProtocolTake.ReplyTruthful | src/main/workspace-backend.js:706-792 | What the host makes of a message under a request's own id is a true account of the scope that sent it |
| ProtocolTake.AckKeepsHost | src/main/workspace-backend.js:659-705 | An acknowledgement settles its target truthfully or leaves its error on the target's record, and keeps the invariant |
| ProtocolTake.ReplyKeepsHost | src/main/workspace-backend.js:706-793 | A reply settles its request and takes its cancel record along, and keeps the invariant |
| ProtocolAgent.FinalMessagesOk | src/backend/wsl-agent.js:6874-6899 | What a finished handler sends under its own id is right about the scope: one message, or none exactly when it was cancelled before it had an outcome |
| ProtocolAgent.HearRequestSilent | src/backend/wsl-agent.js:6846-6858 | The agent's test for a missing or active id never fires for this host: hearing a request sends nothing |
| ProtocolAgent.HearCancelKeeps | src/backend/wsl-agent.js:6738-6778 | Hearing a cancel request, in each of its branches, preserves the agent's invariant |
| ProtocolAgent.ResumeKeeps | src/backend/wsl-agent.js:6778-6799 | The cancel job's account after the scope's end is right about the scope it names |
| HostTransport.NdjsonTransport.constructor | src/main/workspace-backend.js:548-571 | A transport starts with an empty map |
| HostTransport.NdjsonTransport.ClearPending | src/main/workspace-backend.js:798-805 | Takes exactly one record off the map and returns it; everything else stays |
| HostTransport.NdjsonTransport.Request | src/main/workspace-backend.js:909-987 | A closed transport refuses and changes nothing; otherwise the new state is the one the run model gives for a signal that has already fired, an accepted write or a write that throws |
| HostTransport.NdjsonTransport.RequestWritten | src/main/workspace-backend.js:973-980 | The write callback of a request: on an error the cancel record goes and the request is settled as unwritten |
| HostTransport.NdjsonTransport.HandleWriteFailure | src/main/workspace-backend.js:624-640 | A failed write removes the record and settles the caller as indeterminate, once |
| HostTransport.NdjsonTransport.SendCancellationRequest | src/main/workspace-backend.js:867-907 | At most one cancel record per request; a throwing write leaves only its error on the request |
| HostTransport.NdjsonTransport.CancelWritten | src/main/workspace-backend.js:890-899 | A failed cancel write removes its record and leaves its error on the request that is still pending |
| HostTransport.NdjsonTransport.DeadlinePasses | src/main/workspace-backend.js:928-941 | The timer starts a cancellation; the verdicts stay as they were |
| HostTransport.NdjsonTransport.SignalAborts | src/main/workspace-backend.js:959-969 | The abort listener starts a cancellation once; the verdicts stay as they were |
| HostTransport.NdjsonTransport.HandleLine | src/main/workspace-backend.js:642-796 | The whole new state after a parsed message is the one the run model gives: cancel answer, own reply or unmatched |
| HostTransport.NdjsonTransport.HandleCancelAnswer | src/main/workspace-backend.js:659-705 | The cancel answer's branches, proved against the run model |
| HostTransport.NdjsonTransport.HandleOwnReply | src/main/workspace-backend.js:706-793 | The reply's branches, proved against the run model |
| HostTransport.NdjsonTransport.CloseTransport | src/main/workspace-backend.js:1010-1028 | Closing empties the map and settles every caller not yet settled, once, whatever the order of the map |
| HostTransport.NdjsonTransport.FailPendingWrites | src/main/workspace-backend.js:612-622 | A broken stdin settles unwritten requests as unwritten and all others as closed |
| HostTransport.EveryOrder | src/main/workspace-backend.js:1013-1026 | Rejecting record after record comes to the same in every order of the map |
| HostTransport.AllRejected | src/main/workspace-backend.js:1010-1028 | The loop over the whole map ends in the state that closing means |
| HostTransport.WritesRejected | src/main/workspace-backend.js:612-622 | The loop over unwritten requests followed by closing ends in the state that a broken stdin means |
| AgentServer.RequestScope.constructor | src/backend/wsl-agent.js:365-384 | A scope starts in `precommit` or `execution` by its policy, without outcome |
| AgentServer.RequestScope.BeginCommit | src/backend/wsl-agent.js:386-401 | Enters the commit point exactly for an uncancelled two-phase scope in `precommit`; otherwise throws the matching code and changes nothing |
| AgentServer.RequestScope.CompleteCommit | src/backend/wsl-agent.js:403-424 | Completes exactly from `commit`, leaving phase, receipt and result as the run model says |
| AgentServer.RequestScope.Returns | src/backend/wsl-agent.js:6862-6872 | What the handler returns becomes the scope's result, with the receipt when it completed a commit |
| AgentServer.RequestScope.FailCommit | src/backend/wsl-agent.js:426-448 | A failure in `commit` leaves the indeterminate receipt and phase; in any other phase there is no receipt and nothing changes |
| AgentServer.RequestScope.Throws | src/backend/wsl-agent.js:450-460 | A handler's error, with the receipt when it was thrown past the commit point |
| AgentServer.Server.RememberCompleted | src/backend/wsl-agent.js:347-357 | The bounded memory of completed requests: newest entry added, oldest dropped past 256 |
| AgentServer.Server.ReceiveRequest | src/backend/wsl-agent.js:6842-6861 | A scoped request gets one active scope, any other a plain handler, as in the run model |
| AgentServer.Server.ReceiveCancel | src/backend/wsl-agent.js:6738-6778 | A cancel is answered from the memory of completed requests, refused without target, or marks the scope and waits |
| AgentServer.Server.Complete | src/backend/wsl-agent.js:6874-6899 | Sends what the run model sends, then completes the scope, which leaves the registry for the memory |
| AgentServer.Server.SendEnd | src/backend/wsl-agent.js:6882-6899 | The three conditional sends come to the one list of messages of the run model |
| AgentServer.Server.CancelResumes | src/backend/wsl-agent.js:6778-6799 | The verified quiescence is combined with the terminations and the answer prepared as in the run model |
| AgentServer.Server.CancelAnswers | src/backend/wsl-agent.js:6830-6841 | The prepared answer is sent once under the cancel's id |
| AgentServer.Server.PlainEnds | src/backend/wsl-agent.js:6862-6903 | A handler without a scope answers once |
| Json.CanonicalAgreement | src/main/workspace-backend.js:155-160 | The agent's canonical text before transport equals the host's text after it if and only if the value holds no undefined anywhere |
| Json.CanonicalInjective | src/backend/wsl-agent.js:751-755 | Two values without undefined have the same canonical text if and only if they are equal |
| Json.CanonicalPrefixFree | src/backend/wsl-agent.js:751-755 | No canonical text is a proper prefix of another: two that start the same text belong to one value |
| Outcome.CommittedAccepted | src/main/workspace-backend.js:162-212 | The host accepts an honest committed receipt in its own result, as that very receipt, if and only if the result holds no undefined value |
| Outcome.FailedAccepted | src/main/workspace-backend.js:181-190 | The host accepts an honest failed receipt if and only if the trimmed error code is empty, or starts with a letter and has at most 128 characters |
| Outcome.NumericCodeRefused | src/backend/wsl-agent.js:426-431 | Any error code that starts with a digit would make the host drop the agent's outcome; no commit site throws one today |
| Outcome.AcceptedAsSealed | src/main/workspace-backend.js:191-211 | A value with the outcome digest of an honest receipt is accepted only as that receipt: changed members are not taken over |
| Outcome.ForeignRefused | src/main/workspace-backend.js:169-210 | A committed receipt written for one request, method and body is refused with any other request, method or body |
| Outcome.ForeignFailureRefused | src/main/workspace-backend.js:169-176 | A failed receipt is refused under any other request id or method |
| Outcome.OwnReceiptRead | src/main/workspace-backend.js:162-212 | An intact committed receipt read under its own id and method is taken as it is, unless a result beside it has another digest |
| CustodyProof.QuiescenceIsTrue | src/backend/wsl-agent.js:638-653 | Over every run: when finalization reports quiescence, every group tracked for the request, early or late, has a positive receipt or lost its pid to a later group of the same request, is in neither map, and has no member that can mutate, then or ever after |
| CustodyProof.StepKeeps | src/backend/wsl-agent.js:537-653 | Every event of kernel and agent keeps the custody invariant, and dead groups and given answers stay |
| CustodyProof.RunLater | src/backend/workspace-process-tree.js:35-43 | Between any two states of a run an emptied group stays empty and an answered termination keeps its answer |
| CustodyProof.ReleaseKeeps | src/backend/wsl-agent.js:566-570 | A release takes exactly the answered group off the maps, and that group can no longer mutate |
| CustodyProof.EnlistKeeps | src/backend/wsl-agent.js:537-547 | A late child may take over the map entry of a group with its pid only when that group is empty |
| CustodyReuse.ReuseNeverQuiesces | src/backend/wsl-agent.js:583-602 | A request that tracks a group under a pid it has already ended a group under is never again reported quiescent, in any later state: the remembered promise stands for the wrong group; `CustodyComplete` has a run in which that happens and the exact condition without it |
| CustodyReuse.StepStuck | src/backend/wsl-agent.js:572-602 | Every event keeps a request stuck whose held group no termination will release |
| CustodyComplete.QuiescenceIsReported | src/backend/wsl-agent.js:638-653 | Over every run in which the request tracks no group under a pid that a promise is remembered for, nor after its finalization has started: once finalization has started, quiescence is reported if and only if every awaited receipt is positive and no child is left |
| CustodyComplete.ReuseHappens | src/backend/wsl-agent.js:583-602 | A run of fourteen states in which a request ends a group and tracks its pid again: every process is gone, every receipt positive, no child left, and quiescence is not reported |
| CustodyComplete.QuiescenceHappens | src/backend/wsl-agent.js:638-653 | A run in which a process is tracked, ended, dies and is released, and quiescence is reported |
| CustodyComplete.StepWhole | src/backend/wsl-agent.js:572-653 | Every event but such a tracking keeps each held group covered by the promise remembered under its pid, and awaited once finalization has started |
| CustodyExact.QuiescenceExactly | src/backend/wsl-agent.js:638-653 | Over every run, late children and returning pids included: once finalization has started, quiescence is reported if and only if every awaited receipt is positive, no child is left, and the last group tracked under each pid has been answered for with a positive receipt |
| CustodyExact.HeldUntilSettled | src/backend/wsl-agent.js:566-570 | In every state of every run a group is held exactly until it has been answered for positively or a later group of the request has its pid |
| ProcessRegistry.Registry.ReleaseGroup | src/backend/wsl-agent.js:566-570 | Only entries that hold this very group go from either map |
| ProcessRegistry.Registry.TerminateGroup | src/backend/wsl-agent.js:572-604 | Refused during commit unless allowed, answered by the remembered promise, or begun and remembered, as in the custody model |
| ProcessRegistry.Registry.TerminateChild | src/backend/wsl-agent.js:606-636 | A retained group is ended as a group, otherwise the child once |
| ProcessRegistry.Registry.TrackChild | src/backend/wsl-agent.js:537-564 | A child enters both maps and, in a cancelled scope outside its commit, is ended at once |
| ProcessRegistry.Registry.StartFinalizing | src/backend/wsl-agent.js:638-648 | The loop ends every held group once, in any order of the map |
| ProcessRegistry.Registry.FinishFinalizing | src/backend/wsl-agent.js:649-653 | Reports quiescence exactly when nothing is held and every awaited receipt is positive |
| ProcessTree.HasMutableMembers | src/backend/workspace-process-tree.js:45-79 | The scan answers yes exactly when some member is neither zombie nor dead, when the table cannot be read, or when no member was seen and the kernel still knows the group |
| ProcessTree.CanMutate | src/backend/workspace-process-tree.js:81-86 | Positive only for a group that exists; on Linux refined by the scan |
| ProcessTree.WaitForExit | src/backend/workspace-process-tree.js:88-109 | True exactly when some poll before the time is up finds nobody, and no poll is made after that one |
| ProcessTree.Terminate | src/backend/workspace-process-tree.js:211-262 | A receipt is positive exactly when the group was absent, or a signal was delivered and a poll found nobody who can mutate; when it escalates and what it reports |
| PatchApply.ApplyParsedHunks | src/backend/wsl-agent.js:1127-1160 | The loop with its moving cursor computes the declarative result: find each hunk's place after the one before, then splice; it refuses exactly when that result does |
| PatchApply.ApplyHunk | src/backend/wsl-agent.js:1140-1155 | One hunk applies exactly when its lines stand there, a missing line read as empty, and leaves the specified lines |
| PatchApply.HunkMatchesAt | src/backend/wsl-agent.js:1162-1174 | True exactly when the hunk's expected lines stand at the index, a missing line never matching |
| PatchApply.LocateHunkStart | src/backend/wsl-agent.js:1176-1191 | Returns the match at or after the cursor nearest the stated line, ties to the lower index, or the cursor when there is none |
| PatchApply.MatchMeans | src/backend/wsl-agent.js:1162-1174 | A match at `i` is that the next lines of the file, endings removed, are the hunk's context and removed lines |
| PatchApply.LandingUnique | src/backend/wsl-agent.js:1176-1191 | The first match of the search is unique |
| PatchApply.LandingDecides | src/backend/wsl-agent.js:1141-1147 | From the place that the search returns, applying succeeds exactly for a landing hunk |
| PatchApply.CopyTo | src/backend/wsl-agent.js:1136-1139 | The lines between cursor and hunk are copied unchanged |
| PatchTheorems.LandingMeans | src/backend/wsl-agent.js:1127-1191 | Where a hunk is placed, in both directions: at its first match, or, with no match at all, at the cursor where its unmatched lines are blank ones past the end of the file |
| PatchTheorems.LandingsMean | src/backend/wsl-agent.js:1127-1160 | A plan is the one found if and only if all its hunks stand where they should, in order and without overlap |
| PatchTheorems.RefusalMeans | src/backend/wsl-agent.js:1141-1147 | A patch is refused exactly when no plan with its hunks has every hunk in place |
| PatchTheorems.EveryLineOnce | src/backend/wsl-agent.js:1127-1160 | Read as edits, an applied patch keeps or drops every old line exactly once, in order, and the new text is what is kept and added, in order |
| PatchTheorems.ReverseRestores | src/backend/wsl-agent.js:1127-1160 | Swapping added and removed lines and stating each hunk where it landed gives back the original text exactly, for newline-terminated text without carriage returns before newlines and matching hunks without no-newline marks |
| PatchReversal.ReversalExactly | src/backend/wsl-agent.js:1127-1160 | For text terminated or not, without carriage returns before newlines, and matching hunks without no-newline marks: the reverse patch gives back the text if and only if the text is empty or ends in a newline, or the patch keeps the last line as its last edit |
| PatchEndings.EndingsExactly | src/backend/wsl-agent.js:1127-1160 | For text whose lines all end in newlines, any of them with a carriage return before it, and matching hunks without no-newline marks: the reverse patch gives back the text if and only if every removed line has the ending that the patched text gives to added lines |
| PatchEndings.CrLfReversal | src/backend/wsl-agent.js:1149-1151 | A text with carriage returns throughout is given back if and only if the patch leaves something of the file; one that was emptied is refilled with plain newlines |
| PatchEndings.UndoWrites | src/backend/wsl-agent.js:1136-1157 | The reverse of a plan writes the old lines as they were kept, and the removed ones with the ending added lines get |
| PatchReversal.CutResult | src/backend/wsl-agent.js:1149-1159 | Without the last newline the same plan lands, and the new text is the terminated one without its last newline if the last line is kept last, else whole lines |
| PatchReversal.WholeStays | src/backend/wsl-agent.js:1136-1157 | Hunks without no-newline marks leave whole lines behind, wherever they land |
| PatchTheorems.UndoStated | src/backend/wsl-agent.js:1176-1191 | Every hunk of the reverse patch matches at the very line it states |
| PatchTheorems.UndoRestores | src/backend/wsl-agent.js:1136-1157 | The reverse of a plan writes the old lines |
| PatchGlue.Glued | src/backend/wsl-agent.js:1149-1151 | The concrete family behind it: in a file of one line without a newline an added line is glued to that line, two lines become one, and the reverse of the patch is refused |
| Lines.SplitOfJoin | src/backend/wsl-agent.js:761-764 | Splitting undoes joining for lines that have their one newline at the end |
| Lines.SplitWhole | src/backend/wsl-agent.js:761-768 | A newline-terminated text splits into whole lines |
| Lines.SplitLines | src/backend/wsl-agent.js:761-764 | The lines joined are the text |
| PatchRoundTripText.PrintThenParse | src/backend/wsl-agent.js:892-1080 | Parsing what was printed gives the same files: paths, operations, ranges, hunk lines in order and counts, for all structured patches within the caps with plain allowed paths and no lookalike or CR-ended lines |
| PatchRoundTripText.LookalikeLost | src/backend/wsl-agent.js:1017-1036 | In one turn of the loop: a hunk line that prints as `--- ...` or `+++ ...` never becomes a hunk line, whatever the state inside a hunk; `PatchLookalike.PlainExactly` says it of whole patches |
| PatchLookalike.PlainExactly | src/backend/wsl-agent.js:892-1080 | For all structured patches within the caps with plain allowed paths and hunk lines that start with a blank, plus or minus sign: parsing what was printed gives the same files if and only if no hunk line is a lookalike or ends in a carriage return |
| PatchLookalike.Retargeted | src/backend/wsl-agent.js:1024-1034 | A whole patch for one path with the added line `++ b/` and another path parses as a patch for that other path, with no hunk lines |
| PatchLookalike.AnswerWeighs | src/backend/wsl-agent.js:924-1080 | What is parsed weighs no more than the lines it came from: hunk lines and their characters are never invented |
| PatchLookalike.LoopAdds | src/backend/wsl-agent.js:965-1063 | A turn of the line loop adds at most what its line weighs |
| PatchRoundTripText.DeletionsRefused | src/backend/wsl-agent.js:892-922 | The printer refuses exactly the patches with a deletion |
| PatchRoundTripText.SplitJoined | src/backend/wsl-agent.js:924-940 | Splitting at newlines undoes joining lines with newlines |
| PatchRoundTrip.HeaderRead | src/backend/wsl-agent.js:877-886 | A printed hunk header is read back as the range it was printed from |
| PatchRoundTrip.PrefixedPath | src/backend/wsl-agent.js:855-860 | A plain path with its side prefix is normalized back to itself |
| PatchRoundTrip.AbsoluteRefused | src/backend/wsl-agent.js:684-694 | Absolute paths are refused |
| PatchRoundTrip.TwoPaths | src/backend/wsl-agent.js:821-853 | The two plain paths of a git header line are split apart again |
| PatchRoundTrip.BodyLine | src/backend/wsl-agent.js:1037-1062 | A plain hunk line is taken over as it is and counted |
| PatchRoundTripFiles.FilesRead | src/backend/wsl-agent.js:924-1080 | The loop over the lines of any number of printed files reads each file back |
| PatchRoundTripFiles.HunksRead | src/backend/wsl-agent.js:1008-1062 | The loop over the lines of any number of printed hunks reads each hunk back |
| PatchParse.ParseUnifiedPatch | src/backend/wsl-agent.js:924-1080 | The parser with its changing variables computes the specified parse of the whole text, with every error case |
| PatchParse.ParseLines | src/backend/wsl-agent.js:965-1063 | The line loop computes the specified parse of the lines |
| PatchParse.ParseLine | src/backend/wsl-agent.js:965-1062 | One turn of the loop |
| PatchParse.SplitGitDiffPaths | src/backend/wsl-agent.js:821-853 | The character loop computes the specified split, quotes and escapes included |
| PatchPlan.ApplyPatchPlan | src/backend/wsl-agent.js:1207-1288 | Failing to plan, a dry run (from either phase a caller can be in) and a refused commit write nothing and leave the phase; otherwise the replaced files are a prefix of the plan, each target once with its planned text, and the request is committed exactly when the prefix is the whole plan, else indeterminate |
| PatchPlan.PlanFiles | src/backend/wsl-agent.js:1215-1253 | Planning only reads, and gives each file the text its hunks make of what is there |
| PatchPlan.WriteFiles | src/backend/wsl-agent.js:1257-1266 | Under any file-system failures the files replaced are a prefix of the plan |
| PatchPlan.PlannedDistinct | src/backend/wsl-agent.js:1216-1250 | Every target of a plan occurs once, and each planned text is the patched text of that file |
| PatchPlan.WrittenMeans | src/backend/wsl-agent.js:1257-1266 | After a prefix of the plan its targets hold their planned text and every other file is untouched |
| PatchPlanned.PrintedThenPlanned | src/backend/wsl-agent.js:1207-1253 | A printed patch that is parsed and then planned gives, file by file and in order, a plan for the file printed: its target, its action, and the text that its own hunks make of what is there |
| Framing.ReadsTheSplit | src/main/workspace-backend.js:572-600 | For every split into chunks the lines are the newline split of all bytes up to the first over-long line, overflow happens exactly when some line exceeds the limit, and the buffer never does |
| Framing.AnyChunking | src/backend/wsl-agent.js:6942-6976 | Reading chunk by chunk is reading the concatenation |
| Framing.FeedIsRead | src/backend/wsl-agent.js:6942-6976 | Byte by byte reading, from the middle of any line, comes to the split of the bytes |
| Framing.LineReader.ReadChunk | src/main/workspace-backend.js:572-600 | The loop over one chunk changes buffer, lines and overflow as feeding its bytes does |
| Framing.LineReader.ConsumeInput | src/backend/wsl-agent.js:6942-6976 | The agent's reader does nothing once it has overflowed or its input has ended |
| Framing.LineReader.TakeSegment | src/backend/wsl-agent.js:6946-6975 | One segment up to a newline or the end of the chunk |
| Framing.LineReader.InputEnds | src/backend/wsl-agent.js:6978-6986 | At the end of the input, once, an unfinished line is dispatched unless there was an overflow |
| PtyFrames.RoundTrip | src/backend/pty-helper.py:92-117 | Frames with payloads up to 2^20 bytes are decoded as they were encoded for every chunking |
| PtyFrames.AnyChunks | src/backend/pty-helper.py:98-107 | For every chunking the same frames come out, an oversized header stops at the same frame, and the bytes left over are fewer than one maximal frame |
| PtyFrames.OversizeStops | src/backend/pty-helper.py:101-104 | An oversized header ends the reading right after the frames before it, whatever follows |
| PtyFrames.DecodeMore | src/backend/pty-helper.py:98-107 | Decoding some bytes and then the rest is decoding all of them |
| PtyFrames.Helper.TakeChunk | src/backend/pty-helper.py:92-117 | The inner loop acts on exactly the frames decoded, in order, and keeps the rest |
| PtyFrames.Helper.TakeFrame | src/backend/pty-helper.py:100-117 | One whole frame is taken off and acted on by its type |
| UsageLedger.LastDigestDetermines | src/main/usage-ledger-store.js:199-219 | With an injective hash two chained ledgers with the same last digest are equal, row for row |
| UsageLedger.ChainedAt | src/main/usage-ledger-store.js:199-225 | Row `j` is numbered `j + 1` and carries the digest of the row before |
| UsageLedger.UsageLedgerStore.WhatHolds | src/main/usage-ledger-store.js:161-247 | In every state the steps lead to: rows numbered 1..n and chained, the manifest describes a prefix, at most 1000 rows wait, and a key occurs twice only if the later row was asked for before the earlier was recorded |
| UsageLedger.UsageLedgerStore.Append | src/main/usage-ledger-store.js:161-184 | Skipped exactly for a key already recorded, dropped exactly when 1000 rows wait, otherwise queued last |
| UsageLedger.UsageLedgerStore.StartWrite | src/main/usage-ledger-store.js:186-219 | The row made continues the chain, also when the scanner replaced it, and the deduplication history is kept |
| UsageLedger.UsageLedgerStore.AppendFile | src/main/usage-ledger-store.js:220-221 | The file gains exactly the row, or stays as it was and the write ends as failed |
| UsageLedger.UsageLedgerStore.Record | src/main/usage-ledger-store.js:223-229 | Counters follow the file and the key is recorded at write time |
| UsageLedger.UsageLedgerStore.WriteManifest | src/main/usage-ledger-store.js:229-247 | A failed manifest write leaves file, counters and the old manifest |
| UsageLedger.UsageLedgerStore.Close | src/main/usage-ledger-store.js:249-254 | The last manifest describes the whole file |
| Preferences.IdleShowsSaved | src/renderer/codex-surface.js:4279-4296 | Over every run of picks, ended writes that were all applicable, and reconciles by callers that test the status first, as both callers do: whenever the queue is empty every scope shows its confirmed value, which is the last one saved |
| Preferences.GuardedShowsSaved | src/renderer/codex-surface.js:4279-4296 | The same with writes that may turn out inapplicable: a scope with an empty queue shows its last saved value, a successful write counting only if it was applicable, unless its last write was not applicable, when the pick goes on showing |
| Preferences.ReconcileDisturbs | src/renderer/runtime-preference-write-coordinator.js:143-150 | Reconciling a scope disturbs it if and only if the scope is known and saving, which is the guard that callers test; it never disturbs another scope |
| Preferences.MoveKeeps | src/renderer/codex-surface.js:4279-4296 | Each such pick, end and guarded reconcile keeps the invariant and leaves no scope disturbed |
| Preferences.SettledShowsSaved | src/renderer/runtime-preference-write-coordinator.js:63-150 | For callers of any kind, with an empty queue, scope by scope: the scope is not saving, the confirmed value is that of its last successful write that was applicable, in the order asked, and the shown value equals it if and only if the scope was not disturbed (reconciled between its last pick and the end of that write, or that end inapplicable), or the value picked is the one saved |
| Preferences.PickHeals | src/renderer/runtime-preference-write-coordinator.js:63-71 | A new pick ends the effect of an earlier reconcile on its scope, and what happens to other scopes has none |
| Preferences.SupersededFailure | src/renderer/runtime-preference-write-coordinator.js:108-129 | A failed write that a newer one has superseded changes no value and no status |
| Preferences.NewestFailure | src/renderer/runtime-preference-write-coordinator.js:113-124 | When the newest write of a scope fails, the confirmed value is the last one saved; it is also shown and the scope is failed, unless the scope was reconciled meanwhile, when the picked value stays shown |
| Preferences.ReconcileInFlight | src/renderer/runtime-preference-write-coordinator.js:143-150 | What a caller without the guard would see, with both endings: after reconciling while the write is in flight the shown value stays the picked one, beside the canonical value saved or the old one when the write fails |
| Preferences.LatestIsLast | src/renderer/runtime-preference-write-coordinator.js:79 | For the write at the head, the generation test succeeds if and only if no other write of its scope waits and the scope was not reconciled since; it is the scope's last pick if and only if no other waits |
| Preferences.PickKeeps | src/renderer/runtime-preference-write-coordinator.js:63-71 | A new write keeps the invariant |
| Preferences.EndKeeps | src/renderer/runtime-preference-write-coordinator.js:73-139 | The end of a write, saved or failed, keeps the invariant |
| Preferences.ReconcileKeeps | src/renderer/runtime-preference-write-coordinator.js:143-150 | Reconciling keeps the invariant |
| Preferences.PreferenceCoordinator.Choose | src/renderer/codex-surface.js:4468-4498 | The choice is shown before its write is asked for; a setting of no scope is not saved, otherwise the state is the one the model gives |
| Preferences.PreferenceCoordinator.Enqueue | src/renderer/runtime-preference-write-coordinator.js:63-71 | A blank scope is refused and nothing changes; otherwise the scope is saving under its next generation and the write waits last; no value changes |
| Preferences.PreferenceCoordinator.TaskEnds | src/renderer/runtime-preference-write-coordinator.js:73-139 | The write at the head of the queue changes statuses and values as the model says |
| Preferences.PreferenceCoordinator.ReconcileScope | src/renderer/runtime-preference-write-coordinator.js:143-150 | Generation, status and error change as the model says; no value does |
| Transcript.OnePlace | src/backend/wsl-agent.js:5049-5338 | Over any rows: a contributing row is in the source rows of exactly one item, and that item is in exactly one list, once |
| Transcript.WhoContributes | src/backend/wsl-agent.js:5049-5338 | Row by row: a row contributes if and only if it is a thought, a call, or a message with a text inside a turn, the turn being the one that the rows before it lead to, and what is remembered of it is what that builder takes from it; nothing but rows is ever remembered |
| Transcript.NothingLost | src/backend/wsl-agent.js:4874-4928 | What a message or thought row says is said, under the same name, phase and turn, by the item it is a source of; the rows of one such item are at most two apart |
| Transcript.CallsMerge | src/backend/wsl-agent.js:4939-4958 | The rows of a call's item are exactly the rows with its key, and its order bounds are the least and the greatest of them |
| Transcript.FieldsAccumulate | src/backend/wsl-agent.js:4939-4958 | A call stays in the list of its first row, has the type of its last row, and carries exactly the fields that some row of that call carries, each as the last row carrying it says |
| Transcript.AssignedMeans | src/backend/wsl-agent.js:4939-4958 | Assigning patches one after the other leaves a field with the value of the last patch that has it, and no field that none has |
| Transcript.ListsAscend | src/backend/wsl-agent.js:4874-4928 | Every list goes up strictly by first row |
| Transcript.RunKeeps | src/backend/wsl-agent.js:4821-4958 | The builder's invariant holds at the end of every transcript |
| Transcript.IngestKeeps | src/backend/wsl-agent.js:5049-5338 | Every row keeps it |
| Transcript.Builder.IngestRow | src/backend/wsl-agent.js:5049-5338 | The builder's fields change as the model says |
| Transcript.Builder.Add | src/backend/wsl-agent.js:4874-4928 | A repeated message joins the item before it in place, any other is listed last |
| Transcript.Builder.Merge | src/backend/wsl-agent.js:4939-4958 | A known call takes over the row's fields in place, wherever it is listed, and keeps those the row lacks; a new one is listed and remembered |
| Transcript.Builder.Ensure | src/backend/wsl-agent.js:4829-4841 | The turn is known from now on, under its trimmed id or the current one |
| Transcript.Builder.UpdateCurrentTurn | src/backend/wsl-agent.js:4847-4872 | Which rows move the current turn |

## Left out

- ProtocolTheorems.NoLostRequests: assumes that no cancel request failed in writing; one that did leaves its request waiting for its own reply, as the code does.
- ProtocolTheorems.FailureIsTruthful: does not hold for a failed commit whose error code the host's grammar refuses; the outcome is then absent, as `Outcome.FailedAccepted` says.
- PatchTheorems.ReverseRestores: needs newline-terminated text, no carriage return before a newline and hunks that all match and carry no no-newline marks; `PatchReversal.ReversalExactly` drops the first.
- PatchReversal.ReversalExactly: a mark that a line has no newline is left out there; text with carriage returns before newlines is the subject of `PatchEndings.EndingsExactly`, which in turn leaves out text without its last newline.
- PatchRoundTripText.PrintThenParse: starts from the structured files, because `parseCodexOrUnifiedPatch` is not part of this model; header numbers are unbounded naturals.
- PatchLookalike.PlainExactly: hunk lines hold no newline and start with a blank, a plus or a minus sign, as in every file that was ever parsed; a mark that a line has no newline is no hunk line.
- Preferences.SettledShowsSaved: the callbacks of the coordinator never throw; whether a write is still applicable when it ends is an input.
- ProtocolQuiescence.QuiescenceIsTold: whether the terminations a cancel waits for were verified is an input there, so the flag of an error may differ from the scope's later; with custody's receipts beside it, in `ProtocolCustody.ToldForGood`, they agree.
- ProtocolCustody.ToldMeansGone: the two halves share only the answer of finalization, the terminations of a cancel and the request's id; when a request opens its share and sets its flags is left free.
- PatchPlan.ApplyPatchPlan: one sequential method; a cancel that arrives between two of its awaits is seen only where the code looks for it, at the commit point.
- UsageLedger.UsageLedgerStore.AppendFile: a failed append leaves the file as it was; a torn write is not modelled.
- Outcome.ForeignRefused: a digest is taken to be injective, as SHA-256 is meant to be; a digest is the text it was taken over.
- AgentServer.Server.ReceiveRequest: request ids are fresh, as random UUIDs are; reuse of an id after its completion is not modelled.
- HostTransport.NdjsonTransport.HandleLine: pending records are values in the map, not objects shared with closures; a callback that holds a record is modelled by its id.
- ProcessTree.HasMutableMembers: the scan of the process table is one snapshot; a fork can race it.
- CustodyProof.QuiescenceIsTrue: a pid is given out again only when its group is empty, and no process joins a group of which only zombies are left.
- Framing.LineReader.ReadChunk: the host's reader goes on after its transport has closed, when nobody listens; only the lines are modelled, not who hears them.
- Transcript.OnePlace: which fields a row gives its item is an input, also where the code computes them from the item found so far; turn status, durations, `sourceRows` of turns and the final trimming are not modelled.
- Json.CanonicalInjective: numbers are integers, and characters are code points where the original has UTF-16 units.
- AgentServer.Server.PlainEnds: handlers return objects, as all of them do.
- Windows custody: job objects and `taskkill` depend on files that are not part of this model.
- Spawning, `/proc` text, signals and polling intervals: a group is a count of live and dead members, a timer an event that may happen.
- Shutdown: exit timers, the end of standard input and exit signals; a lost transport is the closing event.
- A request refused because the transport is closed has no event in the run model; `HostTransport.NdjsonTransport.Request` covers it.
- A handler is trusted to return the result of completing its commit once it has entered it, as all commit sites do (`src/backend/wsl-agent.js:1256-1287`, `1343-1363`, `1403-1416`, `3365-3434`, `4385-4394`).
- Receipts are typed: members of the wrong JSON type in a malformed receipt are not modelled.
- JSON text, UTF-8 and number formatting: canonical JSON is a sequence of lexemes.
- File names: real paths, symbolic links, temporary names that collide with a target, other writers during an apply, and Unicode normalization, which is a parameter.
- The deny patterns for patch targets and the redaction scanner are parameters.
- `rawLines`, previews and evidence keys of patch plans: they do not influence what is written.
- Event lines, diagnostics, drain polling and public error texts: single branches without state.
- Git worktrees, repository snapshots, command execution, the surface session and all renderer surfaces.
