/** The agent's request scopes as the objects they are. A scope is shared by the
    registry, by the handler that runs in it and by the cancel requests that
    wait for it. Every method is the code between two awaits and is proved to be
    the step that the protocol takes at the agent. */
module AgentServer {
  import opened Json
  import opened Outcome
  import opened Wrappers
  import opened Wire
  import opened AgentState

  class RequestScope {
    const requestId: Id
    const verb: string
    const policy: Policy
    var phase: Phase
    var commitKind: string
    var cancelled: bool
    var quiesced: bool
    var outcome: Option<Receipt>
    var progress: Progress
    ghost var committedBody: Json
    ghost var failure: string
    ghost var found: bool

    ghost function View(): Scope
      reads this
    {
      Scope(verb, policy, phase, cancelled, quiesced, outcome, progress, committedBody, failure, found)
    }

    ghost predicate Valid()
      reads this
    {
      phase == Commit ==> CommitKind(verb) == Some(commitKind)
    }

    /** `createCancellableRequestScope`. */
    constructor (requestId: Id, verb: string, policy: Policy)
      ensures Valid() && View() == NewScope(verb, policy)
      ensures this.requestId == requestId
    {
      this.requestId, this.verb, this.policy := requestId, verb, policy;
      phase := if policy == TwoPhaseMutation then Precommit else Execution;
      commitKind, cancelled, quiesced, outcome, progress := "", false, false, None, Running;
      committedBody, failure, found := Null, "", false;
    }

    /** `beginCurrentRequestCommit`: the code of the error it throws, or none once
        the commit has begun. */
    method BeginCommit(kind: string) returns (error: Option<string>)
      requires Valid() && (policy == TwoPhaseMutation ==> CommitKind(verb) == Some(kind))
      modifies this`phase, this`commitKind
      ensures Valid() && View() == Begin(old(View()))
      ensures error.None? <==> old(phase) == Precommit && phase == Commit
      ensures error.None? ==> !cancelled
    {
      if policy != TwoPhaseMutation { return Some("workspace_backend_mutation_scope_missing"); }
      if cancelled && phase != Commit { return Some("workspace_backend_request_cancelled"); }
      if phase != Precommit { return Some("workspace_backend_mutation_commit_reentered"); }
      phase, commitKind := Commit, kind;
      return None;
    }

    /** `completeCurrentRequestCommit`: the result with its receipt; none when it throws. */
    method CompleteCommit(body: Json, retained: bool) returns (result: Option<ResultObject>)
      requires Valid()
      modifies this`phase, this`outcome, this`committedBody
      ensures Valid() && View() == Complete(old(View()), requestId, body, retained)
      ensures result.Some? <==> old(phase) == Commit
      ensures result.Some? ==> result.value == ResultObject(body, outcome, None) && phase == Committed
    {
      if phase != Commit { return None; }
      outcome := Some(CommittedReceipt(requestId, verb, commitKind, retained, body));
      phase, committedBody := Committed, body;
      return Some(ResultObject(body, outcome, None));
    }

    /** The handler returns: after a commit, what completing it gave. */
    method Returns(result: ResultObject)
      requires Valid() && phase != Commit
      requires result == if phase == Committed then ResultObject(committedBody, outcome, None)
        else ResultObject(result.body, None, None)
      modifies this`progress
      ensures Valid() && View() == Return(old(View()), result.body)
    {
      progress := Returned(result);
    }

    method Keep(receipt: Option<Receipt>, ghost raw: string)
      modifies this`phase, this`outcome, this`failure
      ensures View() == old(View()).(phase := CommitFailed, outcome := receipt, failure := raw)
    {
      outcome, phase, failure := receipt, CommitFailed, raw;
    }

    /** `failedMutationOutcome`: past the commit point a failure leaves its receipt
        behind; in every other phase nothing happens. */
    method FailCommit(raw: string) returns (receipt: Option<Receipt>)
      requires Valid()
      modifies this`phase, this`outcome, this`failure
      ensures receipt.Some? <==> old(phase) == Commit
      ensures receipt.None? ==> View() == old(View())
      ensures receipt.Some? ==>
        && receipt.value == FailedReceipt(requestId, verb, commitKind, raw)
        && View() == old(View()).(phase := CommitFailed, outcome := receipt, failure := raw)
    {
      if phase != Commit { return None; }
      receipt := Some(FailedReceipt(requestId, verb, commitKind, raw));
      Keep(receipt, raw);
    }

    /** The handler throws: `mutationCommitFailureError`. */
    method Throws(raw: string)
      requires Valid()
      modifies this`phase, this`outcome, this`progress, this`failure
      ensures Valid() && View() == Throw(old(View()), requestId, raw)
    {
      var receipt := FailCommit(raw);
      progress := Threw(ErrorObject(if receipt.None? then HandlerCode(raw) else CommitFailedIndeterminate, true, false, receipt));
    }
  }

  /** What a cancel request is waiting for, or its answer. */
  datatype Job = Awaiting(scope: RequestScope) | Answered(reply: Payload)

  class Server {
    var registry: map<Id, RequestScope>     // `cancellableRequestScopes`
    var plain: set<Id>
    var recent: seq<Finished>               // `completedCancellableRequests`
    var jobs: map<Id, Job>
    var outbox: seq<Message>
    ghost var all: map<Id, RequestScope>    // completed scopes as well

    ghost predicate Valid()
      reads this, all.Values
    {
      && (forall id :: id in all ==> all[id].requestId == id && all[id].Valid())
      && (forall id :: id in registry <==> id in all && !all[id].progress.Completed?)
      && (forall id :: id in registry ==> registry[id] == all[id])
      && (forall c :: c in jobs && jobs[c].Awaiting? ==>
          jobs[c].scope.requestId in all && all[jobs[c].scope.requestId] == jobs[c].scope)
    }

    static ghost function JobView(j: Job): CancelJob {
      match j
      case Awaiting(scope) => Waiting(scope.requestId)
      case Answered(reply) => Ready(reply)
    }

    ghost function View(): Agent
      reads this, all.Values
    {
      Agent(map id | id in all :: all[id].View(), plain, recent, map c | c in jobs :: JobView(jobs[c]))
    }

    constructor ()
      ensures Valid() && View() == InitialAgent && outbox == []
    {
      registry, plain, recent, jobs, outbox, all := map[], {}, [], map[], [], map[];
    }

    method Send(m: Message)
      requires Valid()
      modifies this`outbox
      ensures Valid() && View() == old(View()) && outbox == old(outbox) + [m]
    {
      outbox := outbox + [m];
      assert View().scopes == old(View()).scopes && View().jobs == old(View()).jobs;
    }

    /** `rememberCompletedCancellableRequest`. */
    method RememberCompleted(f: Finished)
      requires Valid()
      modifies this`recent
      ensures Valid() && View() == old(View()).(recent := Remember(old(recent), f))
    {
      recent := Put(recent, f);
      ghost var next := recent;
      while |recent| > COMPLETED_LIMIT
        invariant |recent| <= |next| && (|next| <= COMPLETED_LIMIT ==> recent == next)
        invariant recent == next[|next| - |recent|..]
        invariant |next| > COMPLETED_LIMIT ==> |recent| >= COMPLETED_LIMIT
      {
        recent := recent[1..];
      }
      assert View().scopes == old(View()).scopes && View().jobs == old(View()).jobs;
    }

    method StartPlain(id: Id)
      requires Valid()
      modifies this`plain
      ensures Valid() && View() == old(View()).(plain := old(plain) + {id})
    {
      plain := plain + {id};
      assert View().scopes == old(View()).scopes && View().jobs == old(View()).jobs;
    }

    /** `handleLine` on a request, up to its handler's first await. Ids are never reused. */
    method ReceiveRequest(id: Id, verb: string, apply: bool)
      requires Valid() && (id in all ==> id in registry)
      modifies this
      ensures Valid() && fresh(all.Values - old(all.Values))
      ensures View() == AgentState.ReceiveRequest(old(View()), id, verb, apply).0
      ensures outbox == old(outbox) + AgentState.ReceiveRequest(old(View()), id, verb, apply).1
    {
      assert id in registry <==> Active(View(), id);
      var policy := PolicyOf(verb, apply);
      if policy == Unsupported {
        StartPlain(id);
      } else if id == "" || id in registry {
        Send(Message(id, Err(ErrorObject(RequestIdInvalid, false, false, None))));
      } else {
        OpenScope(id, verb, policy);
      }
    }

    method OpenScope(id: Id, verb: string, policy: Policy)
      requires Valid() && id !in all
      modifies this`registry, this`all
      ensures Valid() && fresh(all.Values - old(all.Values))
      ensures View() == old(View()).(scopes := old(View()).scopes[id := NewScope(verb, policy)])
    {
      var scope := new RequestScope(id, verb, policy);
      Register(scope);
    }

    method Register(scope: RequestScope)
      requires Valid() && scope.requestId !in all && scope.Valid() && scope.progress.Running?
      modifies this`registry, this`all
      ensures Valid() && all == old(all)[scope.requestId := scope]
      ensures View() == old(View()).(scopes := old(View()).scopes[scope.requestId := scope.View()])
    {
      registry, all := registry[scope.requestId := scope], all[scope.requestId := scope];
      assert View().scopes == old(View()).scopes[scope.requestId := scope.View()];
      assert View().jobs == old(View()).jobs;
    }

    method Reply(c: Id, p: Payload)
      requires Valid()
      modifies this`jobs
      ensures Valid() && jobs == old(jobs)[c := Answered(p)]
      ensures View() == old(View()).(jobs := old(View()).jobs[c := Ready(p)])
    {
      jobs := jobs[c := Answered(p)];
      assert View().jobs == old(View()).jobs[c := Ready(p)];
    }

    /** `cancelScopedRequest` up to the await of the scope's end. */
    method ReceiveCancel(c: Id, target: Id)
      requires Valid()
      modifies this`jobs, registry.Values
      ensures Valid() && View() == AgentState.ReceiveCancel(old(View()), c, target)
    {
      if target == "" {
        Reply(c, Err(Failure(TargetMissing)));
        return;
      }
      var done := Recall(recent, target);
      if done.Some? {
        if !done.value.quiesced {
          Reply(c, Err(ErrorObject(QuiescenceUnproven, true, false, done.value.outcome)));
        } else {
          Reply(c, Ok(ResultObject(Null, None, Some(Acknowledgement(target, true, true, done.value.outcome)))));
        }
        return;
      }
      if target !in registry {
        Reply(c, Err(Failure(TargetUnavailable)));
        return;
      }
      Cancel(registry[target]);
      Await(c, registry[target]);
    }

    method Cancel(scope: RequestScope)
      requires Valid() && scope.requestId in all && all[scope.requestId] == scope
      modifies scope`cancelled
      ensures Valid() && View() == old(View()).(scopes :=
        old(View()).scopes[scope.requestId := old(scope.View()).(cancelled := true)])
    {
      scope.cancelled := true;
      assert View().scopes == old(View()).scopes[scope.requestId := old(scope.View()).(cancelled := true)];
      assert View().jobs == old(View()).jobs;
    }

    method Await(c: Id, scope: RequestScope)
      requires Valid() && scope.requestId in all && all[scope.requestId] == scope
      modifies this`jobs
      ensures Valid() && View() == old(View()).(jobs := old(View()).jobs[c := Waiting(scope.requestId)])
    {
      jobs := jobs[c := Awaiting(scope)];
      assert View().scopes == old(View()).scopes;
      assert View().jobs == old(View()).jobs[c := Waiting(scope.requestId)];
    }

    /** The rest of `handleLine` once custody is finalized: what is sent, and then
        the scope is completed and leaves the registry. */
    method Complete(id: Id, quiesced: bool)
      requires Valid() && id in registry && (registry[id].progress.Returned? || registry[id].progress.Threw?)
      modifies this`outbox, this`registry, this`recent, registry[id]
      ensures Valid() && View() == Finalize(old(View()), id, quiesced).0
      ensures outbox == old(outbox) + Finalize(old(View()), id, quiesced).1
    {
      var scope := registry[id];
      ghost var a, s := View(), scope.View();
      assert a.scopes[id] == s;
      SetQuiesced(scope, quiesced, quiesced);
      SendEnd(scope);
      EndIsTold(s, id, quiesced);
      Retire(scope, quiesced);
      Finalized(a, View(), id, quiesced);
    }

    static lemma EndIsTold(s: Scope, id: Id, quiesced: bool)
      requires s.progress.Returned? || s.progress.Threw?
      ensures FinalMessages(s.(quiesced := quiesced, found := quiesced), id, quiesced) == FinalMessages(s, id, quiesced)
    {
    }

    static lemma Finalized(a: Agent, b: Agent, id: Id, quiesced: bool)
      requires id in a.scopes && (a.scopes[id].progress.Returned? || a.scopes[id].progress.Threw?)
      requires b.scopes == a.scopes[id := a.scopes[id].(quiesced := quiesced, found := quiesced)]
        [id := a.scopes[id].(quiesced := quiesced, found := quiesced).(progress := Completed)]
      requires b.recent == Remember(a.recent, Finished(id, quiesced, a.scopes[id].outcome))
      requires b.plain == a.plain && b.jobs == a.jobs
      ensures b == Finalize(a, id, quiesced).0
    {
    }

    method SetQuiesced(scope: RequestScope, quiesced: bool, ghost found: bool)
      requires Valid() && scope.requestId in all && all[scope.requestId] == scope
      modifies scope`quiesced, scope`found
      ensures Valid() && View() == old(View()).(scopes :=
        old(View()).scopes[scope.requestId := old(scope.View()).(quiesced := quiesced, found := found)])
      ensures scope.View() == old(scope.View()).(quiesced := quiesced, found := found)
    {
      scope.quiesced, scope.found := quiesced, found;
      assert View().scopes == old(View()).scopes[scope.requestId := old(scope.View()).(quiesced := quiesced, found := found)];
      assert View().jobs == old(View()).jobs;
    }

    /** `completeCancellableRequestScope`. */
    method Retire(scope: RequestScope, quiesced: bool)
      requires Valid() && scope.requestId in registry && registry[scope.requestId] == scope
      modifies this`registry, this`recent, scope`progress
      ensures Valid() && View() == old(View()).(
        scopes := old(View()).scopes[scope.requestId := old(scope.View()).(progress := Completed)],
        recent := Remember(old(recent), Finished(scope.requestId, quiesced, scope.outcome)))
    {
      RememberCompleted(Finished(scope.requestId, quiesced, scope.outcome));
      Unregister(scope);
    }

    method Unregister(scope: RequestScope)
      requires Valid() && scope.requestId in registry && registry[scope.requestId] == scope
      modifies this`registry, scope`progress
      ensures Valid() && View() == old(View()).(scopes :=
        old(View()).scopes[scope.requestId := old(scope.View()).(progress := Completed)])
    {
      scope.progress := Completed;
      registry := registry - {scope.requestId};
      assert View().scopes == old(View()).scopes[scope.requestId := old(scope.View()).(progress := Completed)];
      assert View().jobs == old(View()).jobs;
    }

    /** The three sends that end a request. */
    method SendEnd(scope: RequestScope)
      requires Valid() && (scope.progress.Returned? || scope.progress.Threw?)
      modifies this`outbox
      ensures Valid() && View() == old(View())
      ensures outbox == old(outbox) + FinalMessages(scope.View(), scope.requestId, scope.quiesced)
    {
      var error: Option<ErrorObject> := None;
      if scope.progress.Threw? {
        var e := scope.progress.error;
        error := Some(e.(quiesced := scope.quiesced,
          mutationOutcome := if e.mutationOutcome.Some? then e.mutationOutcome else scope.outcome));
      } else if !scope.quiesced {
        error := Some(ErrorObject(CompletionUnproven, true, false, scope.outcome));
      }
      if scope.cancelled && scope.outcome.Some? && scope.outcome.value.committed && error.None? {
        Send(Message(scope.requestId, Ok(OnWire(scope.progress.result))));
      }
      if scope.cancelled && error.Some? && scope.outcome.Some? {
        Send(Message(scope.requestId, Err(error.value)));
      }
      if !scope.cancelled {
        if error.Some? {
          Send(Message(scope.requestId, Err(error.value)));
        } else {
          Send(Message(scope.requestId, Ok(OnWire(scope.progress.result))));
        }
      }
    }

    /** `cancelScopedRequest` after the awaits. */
    method CancelResumes(c: Id, terminated: bool)
      requires Valid() && c in jobs && jobs[c].Awaiting?
      modifies this`jobs, jobs[c].scope
      ensures Valid() && View() == Resume(old(View()), c, terminated)
    {
      var scope := jobs[c].scope;
      SetQuiesced(scope, scope.quiesced && terminated, scope.found);
      if !scope.quiesced {
        Reply(c, Err(Failure(QuiescenceUnproven)));
      } else {
        Reply(c, Ok(ResultObject(Null, None, Some(Acknowledgement(scope.requestId, true, true, scope.outcome)))));
      }
    }

    /** The answer to a cancel request is sent. */
    method CancelAnswers(c: Id)
      requires Valid() && c in jobs && jobs[c].Answered?
      modifies this`jobs, this`outbox
      ensures Valid() && View() == Answer(old(View()), c).0
      ensures outbox == old(outbox) + [Answer(old(View()), c).1]
    {
      outbox := outbox + [Message(c, jobs[c].reply)];
      jobs := jobs - {c};
      assert View().jobs == old(View()).jobs - {c};
    }

    /** A handler without a scope ends. */
    method PlainEnds(id: Id, body: Json, raw: Option<string>)
      requires Valid()
      modifies this`plain, this`outbox
      ensures Valid() && View() == FinishPlain(old(View()), id, body, raw).0
      ensures outbox == old(outbox) + [FinishPlain(old(View()), id, body, raw).1]
    {
      plain := plain - {id};
      if raw.Some? {
        outbox := outbox + [Message(id, Err(ErrorObject(HandlerCode(raw.value), true, false, None)))];
      } else {
        outbox := outbox + [Message(id, Ok(ResultObject(Transport(body), None, None)))];
      }
    }
  }
}
