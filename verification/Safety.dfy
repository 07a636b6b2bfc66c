/** What one reconcile may do, said about the replies alone and in both directions. */
module Safety {
  import opened Text
  import opened Cloud
  import opened References
  import opened Parameters
  import opened Validations
  import opened Controller
  import Tables

  function NameOf(m: Memory): string
    requires m.resource.spec.Some?
  {
    m.resource.spec.value.stackName
  }

  /** A complete stack that reports the wanted template and parameters. */
  ghost predicate MeansDeployed(m: Memory, r: Replies)
    requires m.resource.spec.Some?
  {
    MeansComplete(NameOf(m), m.resource.status.state, r) && r.template.TemplateBody?
      && Deployed(m.resource.spec.value, r.describe.list[0].parameters, r.template.body)
  }

  /** A rolled back stack under an InProgress resource. */
  predicate MeansRolledBack(m: Memory, r: Replies)
    requires m.resource.spec.Some?
  {
    OwnStack(NameOf(m), r) && m.resource.status.state.InProgress? && IsRollBackComplete(OwnStatus(NameOf(m), r))
      && r.template.TemplateBody?
  }

  ghost predicate MeansSuccess(m: Memory, r: Replies)
    requires m.resource.spec.Some?
  {
    MeansDeployed(m, r) || MeansRolledBack(m, r)
  }

  /** The stack is there, nothing is running, failed or ready, and it is not what is wanted. */
  ghost predicate MeansUpdate(m: Memory, r: Replies)
    requires m.resource.spec.Some?
  {
    var name, state := NameOf(m), m.resource.status.state;
    && OwnStack(name, r)
    && !MeansExecute(name, state, r) && !MeansFailed(name, state, r) && !MeansPoll(name, state, r)
    && (MeansComplete(name, state, r) ==> r.template.TemplateBody?)
    && !MeansSuccess(m, r)
  }

  predicate CallLeaves(spec: StackSpec) {
    spec.role.serviceRoleArn != "" && ValidInput(spec)
  }

  ghost function CreateCall(spec: StackSpec, kind: ChangeSetKind, r: Replies): Call {
    Create(ChangeSetName(spec, r.uuid), spec.stackName, spec.template, Canonical(spec.parameters), TagList(spec.tags),
           spec.role.serviceRoleArn, kind, r.createAccepted)
  }

  /** The mutating calls that a prepared reconcile makes. */
  ghost function CallsMeant(m: Memory, r: Replies): seq<Call>
    requires m.resource.spec.Some?
  {
    var spec := m.resource.spec.value;
    if MeansExecute(NameOf(m), m.resource.status.state, r) then
      if m.resource.status.changeSetName == "" then []
      else [Execute(spec.stackName, m.resource.status.changeSetName, r.executeAccepted)]
    else if MeansUpdate(m, r) && CallLeaves(spec) then [CreateCall(spec, UPDATE, r)]
    else if Unclaimed(NameOf(m), r) && CallLeaves(spec) then [CreateCall(spec, CREATE, r)]
    else []
  }

  /** The call table: exactly these calls, in every case. */
  lemma CallTable(m: Memory, r: Replies)
    requires m.resource.spec.Some?
    ensures Dispatch(m, r).memory.world.calls == m.world.calls + CallsMeant(m, r)
  {
    hide Dispatch, Propose, Carry, Finish, CreateCall, Deployed, MeansPoll, HeadIs, CallLeaves, IsComplete, IsFailed;
    DispatchBranches(m, r);
    ProposeCalls(m, UPDATE, r);
    ProposeCalls(m, CREATE, r);
    CarryCalls(m, r);
    forall state, message, saved, end { FinishCalls(m, state, message, saved, end); }
  }

  lemma FinishCalls(m: Memory, state: State, message: Message, saved: bool, end: End)
    requires m.resource.spec.Some?
    ensures Finish(m, state, message, saved, end).memory.world.calls == m.world.calls
    ensures Finish(CountFailed(m), state, message, saved, end).memory.world.calls == m.world.calls
    ensures Finish(CountSucceeded(m), state, message, saved, end).memory.world.calls == m.world.calls
  {
  }

  lemma ProposeCalls(m: Memory, kind: ChangeSetKind, r: Replies)
    requires m.resource.spec.Some?
    ensures var spec := m.resource.spec.value;
      Propose(m, kind, r).memory.world.calls
        == m.world.calls + if CallLeaves(spec) then [CreateCall(spec, kind, r)] else []
  {
  }

  lemma CarryCalls(m: Memory, r: Replies)
    requires m.resource.spec.Some?
    ensures var stack, name := NameOf(m), m.resource.status.changeSetName;
      Carry(m, r).memory.world.calls
        == m.world.calls + if ExecutionLeaves(stack, name) then [Execute(stack, name, r.executeAccepted)] else []
  {
  }

  /** A change set counts as created when it was accepted, and also when there was no service role to create it. */
  predicate SeemsCreated(spec: StackSpec, r: Replies) {
    spec.role.serviceRoleArn == "" || (ValidInput(spec) && r.createAccepted)
  }

  /** A change set counts as executed when a name was there to be sent, and was accepted. */
  predicate SeemsExecuted(resource: Resource, r: Replies)
    requires resource.spec.Some?
  {
    ExecutionLeaves(resource.spec.value.stackName, resource.status.changeSetName) && r.executeAccepted
  }

  /** The state that a prepared reconcile concludes with, if it concludes. */
  ghost function StateMeant(m: Memory, r: Replies): Option<State>
    requires m.resource.spec.Some?
  {
    var spec, name, state := m.resource.spec.value, NameOf(m), m.resource.status.state;
    if MeansExecute(name, state, r) then Some(if SeemsExecuted(m.resource, r) then State.InProgress else Failure)
    else if MeansSuccess(m, r) then Some(Success)
    else if MeansFailed(name, state, r) || (MeansComplete(name, state, r) && r.template.TemplateFailed?) then
      Some(Failure)
    else if MeansUpdate(m, r) then Some(if SeemsCreated(spec, r) then State.UpdateInProgress else Failure)
    else if Unclaimed(name, r) then Some(if SeemsCreated(spec, r) then State.InProgress else Failure)
    else None
  }

  /** A new change-set name is put into the status before anybody is asked, and stays there when the call fails. */
  ghost predicate RenamesChangeSet(m: Memory, r: Replies)
    requires m.resource.spec.Some?
  {
    !MeansExecute(NameOf(m), m.resource.status.state, r) && (MeansUpdate(m, r) || Unclaimed(NameOf(m), r))
  }

  /** What a stage that concludes with this state leaves behind. */
  ghost predicate Concludes(m: Memory, o: Memory, state: State, changeSetName: string, saved: bool) {
    && o.resource.status.state == state && o.resource.status.changeSetName == changeSetName
    && Untouched(m, o)
    && o.world.versions == m.world.versions + (if saved then [Version(o.resource, o.source)] else [])
  }

  ghost predicate Untouched(m: Memory, o: Memory) {
    && o.resource.status.checksum == m.resource.status.checksum
    && o.resource.spec == m.resource.spec && o.resource.deleting == m.resource.deleting && o.source == m.source
  }

  lemma ProposeConcludes(m: Memory, kind: ChangeSetKind, r: Replies)
    requires m.resource.spec.Some?
    ensures Concludes(m, Propose(m, kind, r).memory,
      if !SeemsCreated(m.resource.spec.value, r) then Failure
      else if kind == UPDATE then State.UpdateInProgress else State.InProgress,
      ChangeSetName(m.resource.spec.value, r.uuid), OutcomeSite in r.saved)
  {
  }

  lemma CarryConcludes(m: Memory, r: Replies)
    requires m.resource.spec.Some?
    ensures Concludes(m, Carry(m, r).memory, if SeemsExecuted(m.resource, r) then State.InProgress else Failure,
      m.resource.status.changeSetName, OutcomeSite in r.saved)
  {
  }

  /** The counters move by at most one failure and one success under the label of the resource. */
  ghost predicate Counted(m: Memory, o: Memory, failure: bool, success: bool)
    requires m.resource.spec.Some?
  {
    && o.world.failed == m.world.failed + (if failure then multiset{LabelOf(m)} else multiset{})
    && o.world.succeeded == m.world.succeeded + (if success then multiset{LabelOf(m)} else multiset{})
  }

  lemma FinishCounts(m: Memory, state: State, message: Message, saved: bool, end: End)
    requires m.resource.spec.Some?
    ensures Counted(m, Finish(m, state, message, saved, end).memory, false, false)
    ensures Counted(m, Finish(CountFailed(m), state, message, saved, end).memory, true, false)
    ensures Counted(m, Finish(CountSucceeded(m), state, message, saved, end).memory, false, true)
  {
  }

  lemma ProposeCounts(m: Memory, kind: ChangeSetKind, r: Replies)
    requires m.resource.spec.Some?
    ensures Counted(m, Propose(m, kind, r).memory, !SeemsCreated(m.resource.spec.value, r), false)
  {
  }

  lemma CarryCounts(m: Memory, r: Replies)
    requires m.resource.spec.Some?
    ensures Counted(m, Carry(m, r).memory, !SeemsExecuted(m.resource, r), false)
  {
  }

  /** The dispatch, branch by branch. */
  lemma DispatchBranches(m: Memory, r: Replies)
    requires m.resource.spec.Some?
    ensures var o, saved := Dispatch(m, r).memory, OutcomeSite in r.saved;
      if MeansExecute(NameOf(m), m.resource.status.state, r) then o == Carry(m, r).memory
      else if MeansDeployed(m, r) then
        exists id :: o == Finish(CountSucceeded(m), Success, StackId(id), saved, Requeued).memory
      else if MeansRolledBack(m, r) then exists id :: o == Finish(m, Success, StackId(id), saved, Requeued).memory
      else if MeansFailed(NameOf(m), m.resource.status.state, r) then
        exists message :: o == Finish(CountFailed(m), Failure, message, saved, Errored).memory
      else if MeansComplete(NameOf(m), m.resource.status.state, r) && r.template.TemplateFailed? then
        o == Finish(CountFailed(m), Failure, TemplateNotRead, saved, Recovered).memory
      else if MeansUpdate(m, r) then o == Propose(m, UPDATE, r).memory
      else if Unclaimed(NameOf(m), r) then o == Propose(m, CREATE, r).memory
      else o == m
  {
    ClassificationMeaning(NameOf(m), m.resource.status.state, r);
    if Classify(NameOf(m), m.resource.status.state, r).Answer? {
      DispatchTotality(NameOf(m), m.resource.status.state, r);
    }
  }

  /** The status table: the state in memory, what is left alone, and what is stored. */
  lemma StatusTable(m: Memory, r: Replies)
    requires m.resource.spec.Some?
    ensures var o := Dispatch(m, r).memory;
      if StateMeant(m, r).None? then o == m
      else Concludes(m, o, StateMeant(m, r).value,
        if RenamesChangeSet(m, r) then ChangeSetName(m.resource.spec.value, r.uuid)
        else m.resource.status.changeSetName,
        OutcomeSite in r.saved)
  {
    DispatchBranches(m, r);
    ProposeConcludes(m, UPDATE, r);
    ProposeConcludes(m, CREATE, r);
    CarryConcludes(m, r);
  }

  /** The message table: Success carries the physical id of the newest event, and a failed stack its one reason, behind
      the completion message of a complete stack. */
  lemma MessageTable(m: Memory, r: Replies)
    requires m.resource.spec.Some? && OwnStack(NameOf(m), r)
    ensures var name, state := NameOf(m), m.resource.status.state;
      var event, message := NewestEvent(name, r.events).value, Dispatch(m, r).memory.resource.status.message;
      && (StateMeant(m, r) == Some(Success) ==> message == StackId(event.physicalId))
      && (MeansFailed(name, state, r) ==>
            var reason := if IsFailed(OwnStatus(name, r)) then StackInFailedState(event.resourceStatus)
                          else if r.changeSets.ListFailed? then ChangeSetsNotListed else ChangeSetUnsuccessful;
            var completed := if IsComplete(OwnStatus(name, r)) then [ExecutionCompleted] else [];
            message == StackFailed(name, completed + [reason]))
  {
    var name, state := NameOf(m), m.resource.status.state;
    ClassificationMeaning(name, state, r);
    DispatchTotality(name, state, r);
    HeadMeaning(name, r);
    JudgeMeaning(OwnStatus(name, r), NewestEvent(name, r.events).value, state, HeadOf(name, r.changeSets));
    if MeansFailed(name, state, r) {
      FailureReasons(OwnStatus(name, r), NewestEvent(name, r.events).value, state, HeadOf(name, r.changeSets));
    }
    hide JudgeStack, IsComplete, IsInProgress, IsFailed, HeadOf, HeadIs, NewestEvent, Deployed;
  }

  /** The counter table: one failure count for each Failure concluded, whether it is stored or not, and one success
      count for each match of template and parameters. */
  lemma CounterTable(m: Memory, r: Replies)
    requires m.resource.spec.Some?
    ensures Counted(m, Dispatch(m, r).memory, StateMeant(m, r) == Some(Failure), MeansDeployed(m, r))
  {
    DispatchBranches(m, r);
    var o := Dispatch(m, r).memory;
    ProposeCounts(m, UPDATE, r);
    ProposeCounts(m, CREATE, r);
    CarryCounts(m, r);
    forall state, message, saved, end { FinishCounts(m, state, message, saved, end); }
  }

  /** The end table: when a dispatch panics, and when it reports an error. */
  lemma EndTable(m: Memory, r: Replies)
    requires m.resource.spec.Some?
    ensures var stop, saved := Dispatch(m, r).stop, OutcomeSite in r.saved;
      && (stop == Some(Recovered) <==>
            || (!OwnStack(NameOf(m), r) && !Unclaimed(NameOf(m), r))
            || (MeansComplete(NameOf(m), m.resource.status.state, r)
                  && (r.template.TemplateAbsent? || (r.template.TemplateFailed? && saved))))
      && (stop == Some(Errored) <==>
            StateMeant(m, r).Some? && (!saved || (StateMeant(m, r) == Some(Failure)
              && !(MeansComplete(NameOf(m), m.resource.status.state, r) && r.template.TemplateFailed?))))
      && stop in {Some(Recovered), Some(Errored), Some(Requeued)}
  {
    ClassificationMeaning(NameOf(m), m.resource.status.state, r);
  }

  /** A call that fits what CloudFormation reported. A reported stack is finished, or it is under review and a ready
      change set is executed, or its state is none of the documented ones; all other states exclude a call. UPDATE needs
      a reported stack, and CREATE the lack of one. */
  predicate SafeCall(name: string, r: Replies, call: Call) {
    && call.stackName == name
    && (OwnStack(name, r) ==>
          var status := OwnStatus(name, r);
          status in Tables.FINISHED || (if call.Execute? then status.ReviewInProgress? else status.OtherStatus?))
    && match call
       case Execute(_, changeSetName, _) => OwnStack(name, r) && HeadIs(r, Ready) && changeSetName != ""
       case Create(_, _, _, _, _, _, kind, _) => if kind == UPDATE then OwnStack(name, r) else Unclaimed(name, r)
  }

  lemma CallsMeantSafe(m: Memory, r: Replies)
    requires m.resource.spec.Some?
    ensures |CallsMeant(m, r)| <= 1 && forall c :: c in CallsMeant(m, r) ==> SafeCall(NameOf(m), r, c)
  {
  }

  /** Mutation safety: for all replies, one whole reconcile makes at most one mutating call, and a safe one. */
  lemma MutationSafety(ck: Checksum, m: Memory, r: Replies)
    requires Fits(r, m.resource)
    ensures var calls, calls' := m.world.calls, Reconcile(ck, m, r).memory.world.calls;
      || calls' == calls
      || (m.resource.spec.Some? && exists c :: calls' == calls + [c] && SafeCall(NameOf(m), r, c))
  {
    hide Dispatch, Prepare, CallsMeant, SafeCall;
    var a := Gate(ck, m);
    if r.get.Found? && a.stop.None? && m.resource.spec.Some? {
      PreparingKeeps(a.memory, r);
      var b := Prepare(a.memory, r);
      if b.stop.None? {
        CallTable(b.memory, r);
        CallsMeantSafe(b.memory, r);
        var added := CallsMeant(b.memory, r);
        if added != [] { assert added == [added[0]] && added[0] in added; }
      }
    }
  }

  /* Counters over any sequence of dispatches */

  /** One call of CheckForRequeue, on whatever resource. */
  datatype Request = Request(resource: Resource, source: Source, c: CfnResult, reported: seq<Pair>, replies: Replies)

  ghost function CheckAll(world: World, requests: seq<Request>): World
    requires forall q :: q in requests ==> q.resource.spec.Some?
    decreases |requests|
  {
    if requests == [] then world
    else
      var q := requests[0];
      var next := CheckForRequeue(Memory(q.resource, q.source, world), q.c, q.reported, q.replies).memory.world;
      CheckAll(next, requests[1..])
  }

  /** The call sets Failure: it leaves Failure behind even when the state was blank before. */
  ghost predicate SetsFailure(q: Request)
    requires q.resource.spec.Some?
  {
    var blank := q.resource.(status := q.resource.status.(state := Blank));
    var m := Memory(blank, q.source, World([], [], multiset{}, multiset{}));
    CheckForRequeue(m, q.c, q.reported, q.replies).memory.resource.status.state == Failure
  }

  ghost predicate FindsDeployed(q: Request)
    requires q.resource.spec.Some?
  {
    && !q.c.requeue && q.c.present && q.c.status == Complete && q.replies.template.TemplateBody?
    && Deployed(q.resource.spec.value, q.reported, q.replies.template.body)
  }

  function LabelOfRequest(q: Request): Label
    requires q.resource.spec.Some?
  {
    Label(q.resource.spec.value.role.accountId, q.resource.spec.value.stackName)
  }

  ghost function FailureLabels(requests: seq<Request>): multiset<Label>
    requires forall q :: q in requests ==> q.resource.spec.Some?
  {
    if requests == [] then multiset{}
    else
      var q := requests[0];
      (if SetsFailure(q) then multiset{LabelOfRequest(q)} else multiset{}) + FailureLabels(requests[1..])
  }

  ghost function SuccessLabels(requests: seq<Request>): multiset<Label>
    requires forall q :: q in requests ==> q.resource.spec.Some?
  {
    if requests == [] then multiset{}
    else
      var q := requests[0];
      (if FindsDeployed(q) then multiset{LabelOfRequest(q)} else multiset{}) + SuccessLabels(requests[1..])
  }

  /** Label by label, the failed counter grows by the calls that set Failure and the success counter by the calls that
      found the stack deployed, over every sequence of calls, failed writes and panics included. */
  lemma {:induction false} CounterConservation(world: World, requests: seq<Request>)
    requires forall q :: q in requests ==> q.resource.spec.Some?
    ensures CheckAll(world, requests).failed == world.failed + FailureLabels(requests)
    ensures CheckAll(world, requests).succeeded == world.succeeded + SuccessLabels(requests)
    decreases |requests|
  {
    if requests != [] {
      var q := requests[0];
      CountsOnce(world, q);
      CounterConservation(
        CheckForRequeue(Memory(q.resource, q.source, world), q.c, q.reported, q.replies).memory.world, requests[1..]);
    }
  }

  lemma CountsOnce(world: World, q: Request)
    requires q.resource.spec.Some?
    ensures var w := CheckForRequeue(Memory(q.resource, q.source, world), q.c, q.reported, q.replies).memory.world;
      && w.failed == world.failed + (if SetsFailure(q) then multiset{LabelOfRequest(q)} else multiset{})
      && w.succeeded == world.succeeded + (if FindsDeployed(q) then multiset{LabelOfRequest(q)} else multiset{})
  {
    CheckCounts(Memory(q.resource, q.source, world), q);
    var blank := q.resource.(status := q.resource.status.(state := Blank));
    CheckCounts(Memory(blank, q.source, World([], [], multiset{}, multiset{})), q);
  }

  /** The input conditions of the five Failure branches. */
  ghost predicate FailureBranch(q: Request)
    requires q.resource.spec.Some?
  {
    var c, r, spec := q.c, q.replies, q.resource.spec.value;
    && !c.requeue
    && if c.present && c.status == Verdict.Failed then true
       else if c.present && c.status == Complete && r.template.TemplateFailed? then true
       else if c.present && c.status == Complete && (r.template.TemplateAbsent? || FindsDeployed(q)) then false
       else if c.rollbackComplete then false
       else if c.exech then c.present && !SeemsExecuted(q.resource, r)
       else !SeemsCreated(spec, r)
  }

  lemma CheckCounts(m: Memory, q: Request)
    requires q.resource.spec.Some? && m.resource.spec == q.resource.spec
    requires m.resource.status.changeSetName == q.resource.status.changeSetName
    ensures var o := CheckForRequeue(m, q.c, q.reported, q.replies).memory;
      && Counted(m, o, FailureBranch(q), FindsDeployed(q))
      && (m.resource.status.state != Failure ==> (o.resource.status.state == Failure <==> FailureBranch(q)))
  {
    var c, r, saved := q.c, q.replies, OutcomeSite in q.replies.saved;
    forall state, message, end { FinishCounts(m, state, message, saved, end); }
    if !c.requeue {
      if c.present && c.status == Verdict.Failed {
      } else if c.present && c.status == Complete && (!r.template.TemplateBody? || FindsDeployed(q)) {
      } else {
        assert CheckForRequeue(m, c, q.reported, r) == Act(m, c, r);
        ActCounts(m, c, r);
      }
    }
  }

  lemma ActCounts(m: Memory, c: CfnResult, r: Replies)
    requires m.resource.spec.Some?
    ensures var o := Act(m, c, r).memory;
      var failure := !c.rollbackComplete
        && if c.exech then c.present && !SeemsExecuted(m.resource, r) else !SeemsCreated(m.resource.spec.value, r);
      && Counted(m, o, failure, false)
      && (m.resource.status.state != Failure ==> (o.resource.status.state == Failure <==> failure))
  {
    FinishCounts(m, Success, StackId(c.stackId), OutcomeSite in r.saved, Requeued);
    ProposeCounts(m, UPDATE, r);
    ProposeCounts(m, CREATE, r);
    ProposeConcludes(m, UPDATE, r);
    ProposeConcludes(m, CREATE, r);
    CarryCounts(m, r);
    CarryConcludes(m, r);
  }
}
