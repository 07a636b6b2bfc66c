/** Classification of the CloudFormation replies about the stack of a resource. */
module Validations {
  import opened Text
  import opened Cloud

  predicate IsInProgress(category: StackStatus) {
    match category
    case CreateInProgress | RollbackInProgress | DeleteInProgress | UpdateInProgress | UpdateRollbackInProgress
       | ImportInProgress | ReviewInProgress | ImportRollbackInProgress | UpdateCompleteCleanupInProgress
       | UpdateRollbackCompleteCleanupInProgress => true
    case _ => false
  }

  predicate IsFailed(category: StackStatus) {
    match category
    case ImportRollbackFailed | UpdateRollbackFailed | DeleteFailed | RollbackFailed | CreateFailed
       | ImportRollbackComplete => true
    case _ => false
  }

  predicate IsComplete(category: StackStatus) {
    match category
    case CreateComplete | DeleteComplete | UpdateComplete | UpdateRollbackComplete | RollbackComplete
       | ImportComplete => true
    case _ => false
  }

  predicate IsRollBackComplete(category: StackStatus) {
    category.UpdateRollbackComplete? || category.RollbackComplete?
  }

  predicate IsReviewInProgress(category: StackStatus) {
    category.ReviewInProgress?
  }

  /** The status text of a validation result; NoVerdict is the empty text. */
  datatype Verdict =
    | NoVerdict | Complete | Running | Review | Failed
    | ChangeSetReady | ChangeSetPending | ChangeSetBeingCreated

  datatype CfnResult = CfnResult(
    result: bool,
    present: bool,
    requeue: bool,
    exech: bool,
    rollbackComplete: bool,
    status: Verdict,
    stackId: string,
    errors: seq<Reason>,
    messages: seq<Reason>,
    latestChangeSetName: string)

  /** newCfnValidationResult */
  const NEW_RESULT := CfnResult(true, false, false, false, false, NoVerdict, "", [], [], "")

  /** The answer of the classification: a panic, or a result and the reported stack parameters. */
  datatype Classified = Panicked | Answer(result: CfnResult, reported: seq<Pair>)

  /** WrapperFunc: the head of the listing with an empty summary appended. */
  function HeadOf(name: string, reply: ChangeSetsReply): Option<ChangeSetStatus> {
    if name == "" || reply.ListFailed? then None
    else Some((reply.list + [NoStatus])[0])
  }

  /** PostValidationFunc and the index behind it: the newest event, an empty one, or no event at all. */
  function NewestEvent(name: string, reply: EventsReply): Option<StackEvent> {
    if name == "" || reply.EventsFailed? then None
    else Some((reply.list + [StackEvent("", "")])[0])
  }

  function WithReason(c: CfnResult, reason: Reason): CfnResult {
    c.(status := Failed, requeue := false, messages := c.messages + [reason], errors := c.errors + [reason])
  }

  /** The change set of a complete stack whose resource waits for an update. */
  function JudgeUpdate(c: CfnResult, head: Option<ChangeSetStatus>): CfnResult {
    match head
    case None => WithReason(c, ChangeSetsNotListed)
    case Some(Ready) => c.(status := ChangeSetReady, exech := true, requeue := false)
    case Some(Pending) => c.(status := ChangeSetPending, exech := false, requeue := true)
    case Some(BeingCreated) => c.(status := ChangeSetBeingCreated, exech := false, requeue := true)
    case Some(Unsuccessful) => WithReason(c, ChangeSetUnsuccessful)
    case Some(_) => c
  }

  /** The change set of a stack under review. */
  function JudgeReview(c: CfnResult, head: Option<ChangeSetStatus>): CfnResult {
    match head
    case None => WithReason(c, ChangeSetsNotListed)
    case Some(Ready) => c.(status := ChangeSetReady, exech := true, requeue := false)
    case Some(Unsuccessful) => WithReason(c, ChangeSetUnsuccessful)
    case Some(_) => c
  }

  function JudgeComplete(c: CfnResult, status: StackStatus, event: StackEvent, state: State,
                         head: Option<ChangeSetStatus>): CfnResult {
    var done := c.(stackId := event.physicalId, status := Complete, messages := c.messages + [ExecutionCompleted]);
    if state == State.UpdateInProgress then JudgeUpdate(done, head)
    else if state == State.InProgress then done.(rollbackComplete := IsRollBackComplete(status))
    else done
  }

  function JudgeStack(status: StackStatus, event: StackEvent, state: State, head: Option<ChangeSetStatus>): CfnResult {
    var c := NEW_RESULT.(present := true);
    if IsComplete(status) then JudgeComplete(c, status, event, state, head)
    else if IsInProgress(status) then
      var busy := c.(stackId := event.physicalId, status := Running, requeue := true);
      if IsReviewInProgress(status) then JudgeReview(busy.(status := Review), head) else busy
    else if IsFailed(status) then
      var reason := StackInFailedState(event.resourceStatus);
      c.(status := Failed, messages := c.messages + [reason], errors := c.errors + [reason])
    else c
  }

  /** validateIfStackExistsWithSameName */
  function Classify(name: string, state: State, r: Replies): Classified {
    match r.describe
    case DescribeFailed(validationError) =>
      if validationError then Answer(NEW_RESULT, [])
      else Answer(NEW_RESULT.(messages := [StackNotRetrieved], errors := [StackNotRetrieved], result := false), [])
    case NoStackList => Panicked
    case Stacks(list) =>
      if list == [] then Panicked
      else if list[0].name != name then Answer(NEW_RESULT, list[0].parameters)
      else if NewestEvent(name, r.events).None? then Panicked
      else
        var event := NewestEvent(name, r.events).value;
        Answer(JudgeStack(list[0].status, event, state, HeadOf(name, r.changeSets)), list[0].parameters)
  }

  class CfnValidationResult {
    var result: bool
    var present: bool
    var requeue: bool
    var exech: bool
    var rollbackComplete: bool
    var status: Verdict
    var stackId: string
    var errors: seq<Reason>
    var messages: seq<Reason>
    var latestChangeSetName: string

    function Value(): CfnResult
      reads this
    {
      CfnResult(result, present, requeue, exech, rollbackComplete, status, stackId, errors, messages,
                latestChangeSetName)
    }

    constructor ()
      ensures Value() == NEW_RESULT
    {
      result, present, requeue, exech, rollbackComplete := true, false, false, false, false;
      status, stackId, errors, messages, latestChangeSetName := NoVerdict, "", [], [], "";
    }

    method Fail(reason: Reason)
      modifies this
      ensures Value() == WithReason(old(Value()), reason)
    {
      status, requeue := Failed, false;
      messages := messages + [reason];
      errors := errors + [reason];
    }

    method ConsultUpdate(head: Option<ChangeSetStatus>)
      modifies this
      ensures Value() == JudgeUpdate(old(Value()), head)
    {
      if head == None {
        Fail(ChangeSetsNotListed);
      } else if head.value == Ready {
        status, exech, requeue := ChangeSetReady, true, false;
      } else if head.value == Pending {
        status, exech, requeue := ChangeSetPending, false, true;
      } else if head.value == BeingCreated {
        status, exech, requeue := ChangeSetBeingCreated, false, true;
      } else if head.value == Unsuccessful {
        Fail(ChangeSetUnsuccessful);
      }
    }

    method ConsultReview(head: Option<ChangeSetStatus>)
      modifies this
      ensures Value() == JudgeReview(old(Value()), head)
    {
      if head == None {
        Fail(ChangeSetsNotListed);
      } else if head.value == Ready {
        status, exech, requeue := ChangeSetReady, true, false;
      } else if head.value == Unsuccessful {
        Fail(ChangeSetUnsuccessful);
      }
    }

    method Complete(name: string, stackStatus: StackStatus, event: StackEvent, state: State, reply: ChangeSetsReply)
      modifies this
      ensures Value() == JudgeComplete(old(Value()), stackStatus, event, state, HeadOf(name, reply))
    {
      stackId := event.physicalId;
      status := Verdict.Complete;
      messages := messages + [ExecutionCompleted];
      if state == State.UpdateInProgress {
        var head := WrapperFunc(name, reply);
        ConsultUpdate(head);
      } else if state == State.InProgress {
        rollbackComplete := IsRollBackComplete(stackStatus);
      }
    }

    /** The part of the classification behind the newest event. */
    method Judge(name: string, stackStatus: StackStatus, event: StackEvent, state: State, reply: ChangeSetsReply)
      requires Value() == NEW_RESULT.(present := true)
      modifies this
      ensures Value() == JudgeStack(stackStatus, event, state, HeadOf(name, reply))
    {
      if IsComplete(stackStatus) {
        Complete(name, stackStatus, event, state, reply);
      } else if IsInProgress(stackStatus) {
        stackId := event.physicalId;
        status := Running;
        requeue := true;
        if IsReviewInProgress(stackStatus) {
          status := Review;
          var head := WrapperFunc(name, reply);
          ConsultReview(head);
        }
      } else if IsFailed(stackStatus) {
        Fail(StackInFailedState(event.resourceStatus));
      }
    }
  }

  method WrapperFunc(name: string, reply: ChangeSetsReply) returns (head: Option<ChangeSetStatus>)
    ensures head == HeadOf(name, reply)
  {
    if name == "" {
      return None;
    }
    match reply
    case ListFailed => head := None;
    case Summaries(list) =>
      var summaries := list + [NoStatus];
      head := Some(summaries[0]);
  }

  method PostValidationFunc(name: string, reply: EventsReply) returns (events: Option<seq<StackEvent>>)
    ensures events.Some? ==> events.value != []
    ensures NewestEvent(name, reply) == if events == None then None else Some(events.value[0])
  {
    if name == "" {
      return None;
    }
    match reply
    case EventsFailed => events := None;
    case Events(list) => events := Some(list + [StackEvent("", "")]);
  }

  /** Assembles the result field by field; None stands for a panic on the way. */
  method ValidateIfStackExistsWithSameName(name: string, state: State, r: Replies)
    returns (c: CfnValidationResult?, reported: seq<Pair>)
    ensures c == null <==> Classify(name, state, r).Panicked?
    ensures c != null ==> fresh(c) && Classify(name, state, r) == Answer(c.Value(), reported)
  {
    var w := new CfnValidationResult();
    reported := [];
    if r.describe.DescribeFailed? {
      if r.describe.validationError {
        return w, [];
      }
      w.messages := w.messages + [StackNotRetrieved];
      w.errors := w.errors + [StackNotRetrieved];
      w.result := false;
      w.present := false;
      return w, [];
    }
    if r.describe.NoStackList? || r.describe.list == [] {
      return null, [];
    }
    var stack := r.describe.list[0];
    if stack.name == name {
      w.present := true;
      var events := PostValidationFunc(name, r.events);
      if events == None {
        return null, [];
      }
      w.Judge(name, stack.status, events.value[0], state, r.changeSets);
    }
    return w, stack.parameters;
  }

  /* The meaning of a result, said about the replies alone. */

  /** CloudFormation reported the named stack, together with its events. */
  predicate OwnStack(name: string, r: Replies) {
    r.describe.Stacks? && r.describe.list != [] && r.describe.list[0].name == name
      && name != "" && r.events.Events?
  }

  function OwnStatus(name: string, r: Replies): StackStatus
    requires OwnStack(name, r)
  {
    r.describe.list[0].status
  }

  /** A change set is consulted under review, and on a complete stack while an update is awaited. */
  predicate AwaitsChangeSet(name: string, state: State, r: Replies)
    requires OwnStack(name, r)
  {
    OwnStatus(name, r).ReviewInProgress? || (IsComplete(OwnStatus(name, r)) && state.UpdateInProgress?)
  }

  predicate HeadIs(r: Replies, status: ChangeSetStatus) {
    r.changeSets.Summaries? && r.changeSets.list != [] && r.changeSets.list[0] == status
  }

  predicate MeansExecute(name: string, state: State, r: Replies) {
    OwnStack(name, r) && AwaitsChangeSet(name, state, r) && HeadIs(r, Ready)
  }

  predicate MeansFailed(name: string, state: State, r: Replies) {
    && OwnStack(name, r)
    && (IsFailed(OwnStatus(name, r))
        || (AwaitsChangeSet(name, state, r) && (r.changeSets.ListFailed? || HeadIs(r, Unsuccessful))))
  }

  predicate MeansPoll(name: string, state: State, r: Replies) {
    && OwnStack(name, r)
    && (IsInProgress(OwnStatus(name, r)) || (IsComplete(OwnStatus(name, r)) && state.UpdateInProgress?
          && (HeadIs(r, Pending) || HeadIs(r, BeingCreated))))
    && (OwnStatus(name, r).ReviewInProgress? ==>
          r.changeSets.Summaries? && !HeadIs(r, Ready) && !HeadIs(r, Unsuccessful))
  }

  predicate MeansComplete(name: string, state: State, r: Replies) {
    && OwnStack(name, r) && IsComplete(OwnStatus(name, r))
    && !MeansExecute(name, state, r) && !MeansFailed(name, state, r) && !MeansPoll(name, state, r)
  }

  /** DescribeStacks answered, but not with the named stack: every error counts as "no such stack". */
  predicate Unclaimed(name: string, r: Replies) {
    match r.describe
    case DescribeFailed(_) => true
    case NoStackList => false
    case Stacks(list) => list != [] && list[0].name != name
  }

  /** The classification in both directions: when it panics, and the condition behind every field that the dispatch
      reads. An answer without the named stack is always the CREATE case, whatever the error was. */
  lemma ClassificationMeaning(name: string, state: State, r: Replies)
    ensures match Classify(name, state, r)
      case Panicked => !OwnStack(name, r) && !Unclaimed(name, r)
      case Answer(c, reported) =>
        && (c.present <==> OwnStack(name, r)) && (c.present <==> !Unclaimed(name, r))
        && (c.present ==> reported == r.describe.list[0].parameters)
        && (c.exech <==> MeansExecute(name, state, r))
        && (c.requeue <==> MeansPoll(name, state, r))
        && (c.status == Failed <==> MeansFailed(name, state, r))
        && (c.status == Complete <==> MeansComplete(name, state, r))
        && (c.rollbackComplete <==>
              OwnStack(name, r) && state.InProgress? && IsRollBackComplete(OwnStatus(name, r)))
        && (c.result <==> r.describe != DescribeFailed(false))
        && (!c.present ==> c.errors == c.messages == if c.result then [] else [StackNotRetrieved])
  {
    if OwnStack(name, r) {
      HeadMeaning(name, r);
      JudgeMeaning(OwnStatus(name, r), NewestEvent(name, r.events).value, state, HeadOf(name, r.changeSets));
      hide JudgeStack, HeadOf, HeadIs, IsComplete, IsInProgress, IsFailed;
    }
  }

  /** The head of the listing with its appended summary, read off the listing itself. */
  lemma HeadMeaning(name: string, r: Replies)
    requires name != ""
    ensures var head := HeadOf(name, r.changeSets);
      && (head == None <==> r.changeSets.ListFailed?)
      && forall s :: s != NoStatus ==> (head == Some(s) <==> HeadIs(r, s))
  {
  }

  lemma JudgeMeaning(status: StackStatus, event: StackEvent, state: State, head: Option<ChangeSetStatus>)
    ensures var c := JudgeStack(status, event, state, head);
      var updating := IsComplete(status) && state.UpdateInProgress?;
      var awaits := status.ReviewInProgress? || updating;
      && c.present
      && (c.exech <==> awaits && head == Some(Ready))
      && (c.requeue <==>
            || (IsInProgress(status) && !status.ReviewInProgress?)
            || (status.ReviewInProgress? && head.Some? && head != Some(Ready) && head != Some(Unsuccessful))
            || (updating && head in {Some(Pending), Some(BeingCreated)}))
      && (c.status == Failed <==> IsFailed(status) || (awaits && (head == None || head == Some(Unsuccessful))))
      && (c.status == Complete <==>
            IsComplete(status)
            && (updating ==> head.Some? && head.value !in {Ready, Pending, BeingCreated, Unsuccessful}))
      && (c.rollbackComplete <==> state.InProgress? && IsRollBackComplete(status))
      && c.stackId == (if IsComplete(status) || IsInProgress(status) then event.physicalId else "")
      && c.result && c.latestChangeSetName == ""
  {
  }

  /** The reasons of a failed result: what went wrong, behind the completion message of a complete stack. */
  lemma FailureReasons(status: StackStatus, event: StackEvent, state: State, head: Option<ChangeSetStatus>)
    requires JudgeStack(status, event, state, head).status == Failed
    ensures var c := JudgeStack(status, event, state, head);
      var reason := if IsFailed(status) then StackInFailedState(event.resourceStatus)
                    else if head == None then ChangeSetsNotListed else ChangeSetUnsuccessful;
      && c.errors == [reason]
      && c.messages == (if IsComplete(status) then [ExecutionCompleted] else []) + [reason]
  {
  }

  /** The flags never contradict each other, so the dispatch takes exactly one of its branches. */
  lemma DispatchTotality(name: string, state: State, r: Replies)
    requires Classify(name, state, r).Answer?
    ensures var c := Classify(name, state, r).result;
      && (c.exech ==> c.present && !c.requeue && c.status == ChangeSetReady)
      && (c.requeue ==> c.present && !c.exech && c.status !in {Failed, Complete})
      && (c.status == Failed ==> c.present && !c.exech && !c.requeue)
      && (c.rollbackComplete ==> c.status == Complete && !c.exech && !c.requeue)
  {
  }
}
