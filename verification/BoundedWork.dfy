/** The controller and CloudFormation together: how much work one spec can cause. */
module BoundedWork {
  import opened Text
  import opened Cloud
  import opened Defaults
  import opened References
  import opened Parameters
  import opened Validations
  import opened Controller
  import opened Safety
  import opened Preparation
  import opened Runs
  import opened Convergence

  datatype Content = Content(template: string, parameters: map<string, string>)

  /** A stack: its state, what it runs, and what an execution in progress is to make of it. */
  datatype AwsStack = NoStack | AwsStack(status: StackStatus, deployed: Content, target: Content)

  /** The newest change set that was not executed. */
  datatype ChangeSet = NoChangeSet | ChangeSet(name: string, status: ChangeSetStatus, content: Content)

  datatype Aws = Aws(stack: AwsStack, head: ChangeSet)

  /** The stored resource with its calls, and CloudFormation. */
  datatype Plant = Plant(world: World, aws: Aws)

  /* CloudFormation on its own */

  predicate Progresses(a: ChangeSetStatus, b: ChangeSetStatus) {
    match a
    case Pending => b in {BeingCreated, Ready, Unsuccessful}
    case BeingCreated => b in {Ready, Unsuccessful}
    case _ => false
  }

  /** The stack states that follow each other while a change set is executed. */
  predicate Moves(a: StackStatus, b: StackStatus) {
    match a
    case CreateInProgress => b in {CreateComplete, CreateFailed, RollbackInProgress}
    case RollbackInProgress => b in {RollbackComplete, RollbackFailed}
    case UpdateInProgress => b in {UpdateComplete, UpdateCompleteCleanupInProgress, UpdateRollbackInProgress}
    case UpdateCompleteCleanupInProgress => b == UpdateComplete
    case UpdateRollbackInProgress =>
      b in {UpdateRollbackCompleteCleanupInProgress, UpdateRollbackComplete, UpdateRollbackFailed}
    case UpdateRollbackCompleteCleanupInProgress => b == UpdateRollbackComplete
    case _ => false
  }

  /** One step of CloudFormation. A completed execution has deployed its target; what a rolled back or failed one
      reports is left open. */
  predicate AwsStep(a: Aws, b: Aws) {
    || (a.head.ChangeSet? && b.stack == a.stack && b.head.ChangeSet?
        && b.head == a.head.(status := b.head.status) && Progresses(a.head.status, b.head.status))
    || (a.stack.AwsStack? && b.stack.AwsStack? && b.head == a.head
        && Moves(a.stack.status, b.stack.status) && b.stack.target == a.stack.target
        && (b.stack.status in {CreateComplete, UpdateComplete} ==> b.stack.deployed == a.stack.target))
  }

  /** CloudFormation has something left to do. */
  predicate Busy(aws: Aws) {
    || (aws.head.ChangeSet? && aws.head.status in {Pending, BeingCreated})
    || (aws.stack.AwsStack? && IsInProgress(aws.stack.status) && !IsReviewInProgress(aws.stack.status))
  }

  /** What CloudFormation makes of an accepted call. */
  function React(aws: Aws, call: Call): Aws {
    match call
    case Create(name, _, template, parameters, _, _, kind, _) =>
      var head := ChangeSet(name, Pending, Content(template, ToMap(parameters)));
      if kind == CREATE then
        Aws(AwsStack(StackStatus.ReviewInProgress, Content("", map[]), Content("", map[])), head)
      else Aws(aws.stack, head)
    case Execute(_, _, _) =>
      if aws.stack.AwsStack? && aws.head.ChangeSet? then
        var next := if IsReviewInProgress(aws.stack.status) then CreateInProgress else StackStatus.UpdateInProgress;
        Aws(aws.stack.(status := next, target := aws.head.content), NoChangeSet)
      else aws
  }

  function ReactAll(aws: Aws, calls: seq<Call>): Aws
    decreases |calls|
  {
    if calls == [] then aws else ReactAll(React(aws, calls[0]), calls[1..])
  }

  /* The controller against it */

  /** What CloudFormation answers in this state. Template and parameters read back verbatim, and the listing starts with
      the newest change set. */
  ghost predicate Reports(aws: Aws, name: string, r: Replies) {
    && r.events.Events?
    && (match aws.stack
        case NoStack => r.describe == DescribeFailed(true)
        case AwsStack(status, deployed, _) =>
          && r.describe.Stacks? && r.describe.list != [] && r.describe.list[0].name == name
          && r.describe.list[0].status == status && r.describe.list[0].parameters == Canonical(deployed.parameters)
          && r.template == TemplateBody(deployed.template))
    && (match aws.head
        case NoChangeSet => r.changeSets == Summaries([])
        case ChangeSet(_, status, _) => HeadIs(r, status))
  }

  /** The answers of CloudFormation while every call succeeds. */
  ghost predicate Faithful(aws: Aws, name: string, r: Replies) {
    CallsSucceed(r) && r.createAccepted && r.executeAccepted && Reports(aws, name, r)
  }

  /** A reconcile of the given version, and what CloudFormation makes of its calls. */
  ghost function PollAt(ck: Checksum, p: Plant, read: nat, r: Replies): Plant {
    var world := Apply(ck, p.world, ReconcileAt(read, r));
    Plant(world, if p.world.calls <= world.calls then ReactAll(p.aws, world.calls[|p.world.calls|..]) else p.aws)
  }

  /** A reconcile of the latest version. */
  ghost function Poll(ck: Checksum, p: Plant, r: Replies): Plant
    requires p.world.versions != []
  {
    PollAt(ck, p, |p.world.versions| - 1, r)
  }

  /* The guards of the two calls, read off a stored version and the state of CloudFormation */

  /** A change set on its way, ready, or failed: what the controller waits for. */
  predicate IsWaiting(head: ChangeSet) {
    head.ChangeSet? && head.status in {Pending, BeingCreated, Ready, Unsuccessful}
  }

  /** A reconcile that reads v proposes a change set: the gate is open, the stack is neither busy nor failed, and a
      complete one is not what v wants, nor awaited, nor rolled back while in progress. */
  ghost predicate Proposes(ck: Checksum, v: Resource, aws: Aws)
    requires v.spec.Some?
  {
    && !Gated(ck, v)
    && match aws.stack
       case NoStack => true
       case AwsStack(status, deployed, _) =>
         && !IsInProgress(status) && !IsFailed(status)
         && (IsComplete(status) ==>
               && !(v.status.state.UpdateInProgress? && IsWaiting(aws.head))
               && !Deployed(v.spec.value, Canonical(deployed.parameters), deployed.template)
               && !(v.status.state.InProgress? && IsRollBackComplete(status)))
  }

  /** A reconcile that reads v executes the change set that v names: one is ready, on a stack under review or on a
      complete one whose update v awaits. */
  ghost predicate Executes(ck: Checksum, v: Resource, aws: Aws) {
    && !Gated(ck, v) && v.status.changeSetName != ""
    && aws.head.ChangeSet? && aws.head.status == Ready && aws.stack.AwsStack?
    && (IsReviewInProgress(aws.stack.status) || (IsComplete(aws.stack.status) && v.status.state.UpdateInProgress?))
  }

  ghost function ReadCalls(ck: Checksum, v: Resource, aws: Aws, r: Replies): seq<Call>
    requires v.spec.Some?
  {
    var spec := v.spec.value;
    if Proposes(ck, v, aws) then [CreateCall(spec, if aws.stack.NoStack? then CREATE else UPDATE, r)]
    else if Executes(ck, v, aws) then [Execute(spec.stackName, v.status.changeSetName, r.executeAccepted)]
    else []
  }

  /** A reconcile of a version that passes neither guard. */
  ghost predicate IsQuiet(ck: Checksum, spec: StackSpec, p: Plant, read: nat) {
    && read < |p.world.versions| && p.world.versions[read].resource.spec == Some(spec)
    && !Proposes(ck, p.world.versions[read].resource, p.aws) && !Executes(ck, p.world.versions[read].resource, p.aws)
  }

  /** The reconcile sees CloudFormation as it is, and its write is lost, or refused because the read is stale. */
  ghost predicate GoesUnstored(spec: StackSpec, p: Plant, read: nat, r: Replies)
    requires read < |p.world.versions|
  {
    && r.get.Found? && r.session.SessionObtained? && Reports(p.aws, spec.stackName, r)
    && Fits(r, p.world.versions[read].resource) && OutcomeSite !in Writable(p.world, read, r).saved
  }

  function StoredResource(p: Plant): Resource
    requires p.world.versions != []
  {
    Latest(p.world).resource
  }

  /** A reconcile of the latest version with success, a quiet one of any version without its write, or a step of
      CloudFormation. */
  ghost predicate Step(ck: Checksum, spec: StackSpec, p: Plant, q: Plant) {
    && p.world.versions != []
    && (|| (exists r :: Faithful(p.aws, spec.stackName, r) && Fits(r, StoredResource(p)) && q == Poll(ck, p, r))
        || (exists read: nat, r ::
              IsQuiet(ck, spec, p, read) && GoesUnstored(spec, p, read, r) && q == PollAt(ck, p, read, r))
        || (q.world == p.world && AwsStep(p.aws, q.aws)))
  }

  /** Nothing but the counters differs. */
  predicate SameWork(p: Plant, q: Plant) {
    q.aws == p.aws && (q.world.versions, q.world.calls) == (p.world.versions, p.world.calls)
  }

  /** A spec that needs no more filling and that CreateChangeSet accepts. */
  predicate Settled(spec: StackSpec) {
    Fixed(spec) && Fillable(spec.role) && ValidInput(spec)
  }

  function Wanted(spec: StackSpec): Content {
    Content(spec.template, spec.parameters)
  }

  /* The phases of the work */

  /** Nothing was asked for yet: no stack, or a complete one, and no change set waiting. */
  predicate IsIdle(p: Plant)
    requires p.world.versions != []
  {
    && StoredResource(p).status.state in {Blank, Success, Failure}
    && p.aws.head.NoChangeSet?
    && (p.aws.stack.NoStack? || IsComplete(p.aws.stack.status))
  }

  predicate HoldsProposal(spec: StackSpec, p: Plant)
    requires p.world.versions != []
  {
    && p.aws.head.ChangeSet? && p.aws.head.name == StoredResource(p).status.changeSetName != ""
    && p.aws.head.content == Wanted(spec) && p.aws.head.status in {Pending, BeingCreated, Ready, Unsuccessful}
    && p.aws.stack.AwsStack?
  }

  predicate IsReviewing(spec: StackSpec, p: Plant)
    requires p.world.versions != []
  {
    StoredResource(p).status.state == State.InProgress && HoldsProposal(spec, p)
      && IsReviewInProgress(p.aws.stack.status)
  }

  predicate IsUpdating(spec: StackSpec, p: Plant)
    requires p.world.versions != []
  {
    StoredResource(p).status.state == State.UpdateInProgress && HoldsProposal(spec, p) && IsComplete(p.aws.stack.status)
  }

  /** The change set is executed: the stack is busy, or it has ended up somewhere. */
  predicate IsExecuting(spec: StackSpec, p: Plant)
    requires p.world.versions != []
  {
    && StoredResource(p).status.state == State.InProgress && p.aws.head.NoChangeSet? && p.aws.stack.AwsStack?
    && p.aws.stack.target == Wanted(spec)
    && (MoveRank(p.aws.stack.status) > 0 || HasEnded(spec, p.aws.stack))
  }

  /** An execution is over: what is wanted is deployed, or it was rolled back, or it failed. */
  predicate HasEnded(spec: StackSpec, stack: AwsStack)
    requires stack.AwsStack?
  {
    || (stack.status in {CreateComplete, UpdateComplete} && stack.deployed == Wanted(spec))
    || IsRollBackComplete(stack.status) || IsFailed(stack.status)
  }

  ghost predicate IsDone(ck: Checksum, p: Plant)
    requires p.world.versions != []
  {
    Gated(ck, StoredResource(p)) && !Busy(p.aws)
  }

  /** The calls so far: none, a proposal, or a proposal and its execution. */
  predicate Proposal(spec: StackSpec, calls: seq<Call>) {
    |calls| == 1 && calls[0].Create? && calls[0].accepted && calls[0].stackName == spec.stackName
  }

  predicate ProposalAndExecution(spec: StackSpec, calls: seq<Call>) {
    |calls| == 2 && Proposal(spec, calls[..1]) && calls[1] == Execute(spec.stackName, calls[0].name, true)
  }

  predicate BoundedCalls(spec: StackSpec, calls: seq<Call>) {
    calls == [] || Proposal(spec, calls) || ProposalAndExecution(spec, calls)
  }

  ghost predicate Phases(ck: Checksum, spec: StackSpec, p: Plant) {
    && p.world.versions != [] && StoredResource(p).spec == Some(spec) && !StoredResource(p).deleting
    && (|| (IsDone(ck, p) && BoundedCalls(spec, p.world.calls))
        || (!Gated(ck, StoredResource(p)) && IsIdle(p) && p.world.calls == [])
        || ((IsReviewing(spec, p) || IsUpdating(spec, p)) && Proposal(spec, p.world.calls)
            && p.world.calls[0].name == StoredResource(p).status.changeSetName)
        || (IsExecuting(spec, p) && ProposalAndExecution(spec, p.world.calls)))
  }

  /* The measure */

  function MoveRank(status: StackStatus): nat {
    match status
    case UpdateInProgress => 4
    case CreateInProgress => 3
    case UpdateRollbackInProgress => 3
    case RollbackInProgress => 2
    case UpdateCompleteCleanupInProgress => 2
    case UpdateRollbackCompleteCleanupInProgress => 2
    case _ => 0
  }

  function HeadRank(status: ChangeSetStatus): nat {
    match status
    case Pending => 3
    case BeingCreated => 2
    case _ => 1
  }

  ghost function Rank(ck: Checksum, p: Plant): nat
    requires p.world.versions != []
  {
    if Gated(ck, StoredResource(p)) then 0
    else if p.aws.head.ChangeSet? then 5 + HeadRank(p.aws.head.status)
    else if StoredResource(p).status.state.InProgress? && p.aws.stack.AwsStack? then 1 + MoveRank(p.aws.stack.status)
    else 9
  }

  /* One poll, phase by phase */

  /** The memory in which the poll of a settled spec reaches the dispatch. */
  ghost function AtDispatch(ck: Checksum, p: Plant, r: Replies): Memory
    requires p.world.versions != []
  {
    Opened(ck, StartOf(p.world, |p.world.versions| - 1, r))
  }

  lemma AtDispatchFacts(ck: Checksum, p: Plant, r: Replies)
    requires p.world.versions != [] && !Gated(ck, StoredResource(p))
    ensures var b := AtDispatch(ck, p, r);
      var stored := StoredResource(p);
      b.world == p.world && b.resource == stored.(status := stored.status.(checksum := ck(stored.spec)))
  {
  }

  /** A settled spec goes through the preparation untouched. */
  lemma SettledPreparation(m: Memory, spec: StackSpec, r: Replies)
    requires m.resource.spec == Some(spec) && Settled(spec) && r.session.SessionObtained?
    requires Enumerates(r.order, spec.parameters)
    ensures Prepare(m, r) == Stage(m, None)
  {
    assert StableReferences(spec.parameters, r.stacks) && PreparedSpec(spec, r) == spec by {
      hide ParseReference;
      assert forall k :: k in spec.parameters ==> Resolve(spec.parameters[k], r.stacks).Literal?;
    }
    CleanPreparation(m, r);
    hide Prepare;
  }

  lemma SettledWork(ck: Checksum, m: Memory, spec: StackSpec, r: Replies)
    requires m.resource.spec == Some(spec) && Settled(spec) && r.session.SessionObtained? && Fits(r, m.resource)
    requires !Gated(ck, m.resource)
    ensures Work(ck, m, r) == Dispatch(Opened(ck, m), r)
  {
    hide Settled, Dispatch, Prepare;
    SettledPreparation(Opened(ck, m), spec, r);
  }

  /** A reconcile of any stored version whose gate is open and whose spec is settled; the writes and the calls may
      fail. */
  lemma ReadCallsMeant(ck: Checksum, world: World, read: nat, spec: StackSpec, b: Memory, r: Replies)
    requires Readable(world, read, r) && world.versions[read].resource.spec == Some(spec) && Settled(spec)
    requires !Gated(ck, world.versions[read].resource) && r.get.Found? && r.session.SessionObtained?
    requires b == Opened(ck, StartOf(world, read, r)) && b.resource.spec.Some?
    ensures var next := Apply(ck, world, ReconcileAt(read, r));
      next == Dispatch(b, Writable(world, read, r)).memory.world && next.calls == world.calls + CallsMeant(b, r)
  {
    hide Fits, Settled, Dispatch, Work, Gated, CallsMeant;
    var replies := Writable(world, read, r);
    FitsUnsaved(world.versions[read].resource, r, replies.saved);
    assert Apply(ck, world, ReconcileAt(read, r)) == Work(ck, StartOf(world, read, r), replies).memory.world;
    SettledWork(ck, StartOf(world, read, r), spec, replies);
    CallTable(b, replies);
    CallsMeantUnsaved(b, r, replies.saved);
  }

  /** A settled spec is written behind the dispatch only. */
  lemma UnstoredReconcile(ck: Checksum, world: World, read: nat, spec: StackSpec, r: Replies)
    requires Readable(world, read, r) && world.versions[read].resource.spec == Some(spec) && Settled(spec)
    requires r.get.Found? && r.session.SessionObtained? && OutcomeSite !in Writable(world, read, r).saved
    ensures Apply(ck, world, ReconcileAt(read, r)).versions == world.versions
  {
    if Gated(ck, world.versions[read].resource) {
      GatedReconcileRests(ck, world, read, r);
    } else {
      var b := Opened(ck, StartOf(world, read, r));
      assert b.world == world && b.resource.spec.Some?;
      hide Settled, Apply, Fits, Dispatch, StateMeant, CallsMeant, RenamesChangeSet, Gated, Writable, Opened;
      ReadCallsMeant(ck, world, read, spec, b, r);
      StatusTable(b, Writable(world, read, r));
    }
  }

  lemma FitsUnsaved(resource: Resource, r: Replies, saved: set<Site>)
    ensures Fits(r.(saved := saved), resource) == Fits(r, resource)
  {
  }

  lemma CallsMeantUnsaved(b: Memory, r: Replies, saved: set<Site>)
    requires b.resource.spec.Some?
    ensures CallsMeant(b, r.(saved := saved)) == CallsMeant(b, r)
  {
    hide Deployed;
  }

  /** The calls of a reconcile that reads any stored version: exactly those whose guard this version passes, against
      whatever CloudFormation has become since it was stored. */
  lemma GuardedCalls(ck: Checksum, world: World, read: nat, spec: StackSpec, aws: Aws, r: Replies)
    requires Readable(world, read, r) && world.versions[read].resource.spec == Some(spec) && Settled(spec)
    requires r.get.Found? && r.session.SessionObtained? && Reports(aws, spec.stackName, r)
    ensures Apply(ck, world, ReconcileAt(read, r)).calls
         == world.calls + ReadCalls(ck, world.versions[read].resource, aws, r)
  {
    var v := world.versions[read].resource;
    if Gated(ck, v) {
      GatedReconcileRests(ck, world, read, r);
    } else {
      var b := Opened(ck, StartOf(world, read, r));
      assert b.resource == v.(status := v.status.(checksum := ck(v.spec)));
      GuardMeaning(ck, v, b, spec, aws, r);
      hide Settled, Reports, Apply, CallsMeant, ReadCalls, Fits;
      ReadCallsMeant(ck, world, read, spec, b, r);
    }
  }

  lemma GuardMeaning(ck: Checksum, v: Resource, b: Memory, spec: StackSpec, aws: Aws, r: Replies)
    requires v.spec == Some(spec) && ValidInput(spec) && !Gated(ck, v) && Reports(aws, spec.stackName, r)
    requires b.resource.spec == v.spec
    requires b.resource.status.state == v.status.state && b.resource.status.changeSetName == v.status.changeSetName
    ensures CallsMeant(b, r) == ReadCalls(ck, v, aws, r)
  {
    hide Gated, Deployed, Canonical;
  }

  lemma PollIsDispatch(ck: Checksum, spec: StackSpec, p: Plant, b: Memory, r: Replies)
    requires p.world.versions != [] && StoredResource(p).spec == Some(spec) && Settled(spec)
    requires CallsSucceed(r) && Fits(r, StoredResource(p)) && !Gated(ck, StoredResource(p))
    requires b == AtDispatch(ck, p, r) && b.resource.spec.Some?
    ensures Pass(ck, p.world, r) == Dispatch(b, r).memory.world
  {
    hide Fits, Settled, Dispatch, Pass, Work, Gated;
    PassIsWork(ck, p.world, r);
    SettledWork(ck, StartOf(p.world, |p.world.versions| - 1, r), spec, r);
  }

  /** What a poll stores and asks for, by the tables of the dispatch. */
  lemma PollOutcome(ck: Checksum, spec: StackSpec, p: Plant, b: Memory, r: Replies)
    requires p.world.versions != [] && StoredResource(p).spec == Some(spec) && !StoredResource(p).deleting
    requires Settled(spec)
    requires CallsSucceed(r) && Fits(r, StoredResource(p)) && !Gated(ck, StoredResource(p))
    requires b == AtDispatch(ck, p, r) && b.resource.spec == Some(spec)
    ensures var world := Pass(ck, p.world, r);
      && world.calls == p.world.calls + CallsMeant(b, r)
      && world.versions != []
      && (StateMeant(b, r).None? ==> world == p.world)
      && (StateMeant(b, r).Some? ==>
            var v := Latest(world).resource;
            && v.spec == Some(spec) && !v.deleting && v.status.checksum == ck(Some(spec))
            && v.status.state == StateMeant(b, r).value
            && v.status.changeSetName == if RenamesChangeSet(b, r) then ChangeSetName(spec, r.uuid)
                                         else StoredResource(p).status.changeSetName)
  {
    assert OutcomeSite in r.saved;
    hide Dispatch, Pass, StateMeant, CallsMeant, RenamesChangeSet, Settled, Fits, Gated, CallsSucceed;
    PollIsDispatch(ck, spec, p, b, r);
    AtDispatchFacts(ck, p, r);
    hide AtDispatch;
    StatusTable(b, r);
    CallTable(b, r);
  }

  /** The successor phase and the smaller rank. */
  ghost predicate Advances(ck: Checksum, spec: StackSpec, p: Plant, q: Plant) {
    p.world.versions != [] && Phases(ck, spec, q) && Rank(ck, q) < Rank(ck, p)
  }

  lemma IdleMeaning(spec: StackSpec, b: Memory, aws: Aws, r: Replies)
    requires b.resource.spec == Some(spec) && ValidInput(spec) && b.resource.status.state in {Blank, Success, Failure}
    requires Faithful(aws, spec.stackName, r) && (aws.stack.AwsStack? ==> IsComplete(aws.stack.status))
    ensures aws.stack.NoStack? ==>
      && StateMeant(b, r) == Some(State.InProgress) && CallsMeant(b, r) == [CreateCall(spec, CREATE, r)]
      && RenamesChangeSet(b, r)
    ensures aws.stack.AwsStack? ==>
      || (StateMeant(b, r) == Some(Success) && CallsMeant(b, r) == [])
      || (StateMeant(b, r) == Some(State.UpdateInProgress) && CallsMeant(b, r) == [CreateCall(spec, UPDATE, r)]
          && RenamesChangeSet(b, r))
  {
    hide Deployed, Canonical, TagList, ChangeSetName;
  }

  /** A terminal status under the checksum of the spec, with CloudFormation at rest, ends the work. */
  lemma WorkEnds(ck: Checksum, spec: StackSpec, p: Plant, q: Plant)
    requires p.world.versions != [] && !Gated(ck, StoredResource(p))
    requires q.world.versions != [] && StoredResource(q).spec == Some(spec) && !StoredResource(q).deleting
    requires StoredResource(q).status.checksum == ck(Some(spec)) && IsTerminal(StoredResource(q).status.state)
    requires !Busy(q.aws) && BoundedCalls(spec, q.world.calls)
    ensures Advances(ck, spec, p, q)
  {
  }

  /** An accepted proposal leads into its review or its update. */
  lemma WorkStarts(ck: Checksum, spec: StackSpec, p: Plant, q: Plant, call: Call)
    requires p.world.versions != [] && !Gated(ck, StoredResource(p)) && IsIdle(p)
    requires q.world.versions != [] && StoredResource(q).spec == Some(spec) && !StoredResource(q).deleting
    requires call.Create? && call.accepted && call.name == StoredResource(q).status.changeSetName != ""
    requires call.stackName == spec.stackName && Content(call.template, ToMap(call.parameters)) == Wanted(spec)
    requires q.world.calls == [call] && q.aws == React(p.aws, call)
    requires p.aws.stack.NoStack? <==> call.kind == CREATE
    requires StoredResource(q).status.state == if call.kind == CREATE then State.InProgress else State.UpdateInProgress
    ensures Advances(ck, spec, p, q)
  {
    hide ToMap;
  }

  /** How CloudFormation stands after a poll that made the given calls. */
  lemma PolledAws(ck: Checksum, p: Plant, r: Replies, added: seq<Call>)
    requires p.world.versions != [] && Pass(ck, p.world, r).calls == p.world.calls + added && |added| <= 1
    ensures var q := Poll(ck, p, r);
      && q.world == Pass(ck, p.world, r)
      && q.aws == if added == [] then p.aws else React(p.aws, added[0])
  {
    hide Apply, React, PollAt;
    PolledAwsAt(ck, p, |p.world.versions| - 1, r, added);
  }

  lemma PolledAwsAt(ck: Checksum, p: Plant, read: nat, r: Replies, added: seq<Call>)
    requires Apply(ck, p.world, ReconcileAt(read, r)).calls == p.world.calls + added && |added| <= 1
    ensures var q := PollAt(ck, p, read, r);
      && q.world == Apply(ck, p.world, ReconcileAt(read, r))
      && q.aws == if added == [] then p.aws else React(p.aws, added[0])
  {
    hide Apply, React;
    var world := Apply(ck, p.world, ReconcileAt(read, r));
    assert world.calls[|p.world.calls|..] == added;
    if added != [] {
      assert added[1..] == [];
      assert ReactAll(p.aws, added) == ReactAll(React(p.aws, added[0]), []);
    }
  }

  lemma PollIdle(ck: Checksum, spec: StackSpec, p: Plant, r: Replies)
    requires Settled(spec) && Phases(ck, spec, p) && !Gated(ck, StoredResource(p)) && IsIdle(p) && p.world.calls == []
    requires Faithful(p.aws, spec.stackName, r) && Fits(r, StoredResource(p))
    ensures Advances(ck, spec, p, Poll(ck, p, r))
  {
    var b, q := AtDispatch(ck, p, r), Poll(ck, p, r);
    AtDispatchFacts(ck, p, r);
    PollOutcome(ck, spec, p, b, r);
    IdleMeaning(spec, b, p.aws, r);
    CanonicalIsTheOne(Canonical(spec.parameters), spec.parameters);
    hide Pass, Poll, StateMeant, CallsMeant, RenamesChangeSet, Fixed, Fillable, Fits, AtDispatch, ToMap, Canonical,
      Gated, Phases, Advances, React;
    PolledAws(ck, p, r, CallsMeant(b, r));
    if CallsMeant(b, r) == [] {
      WorkEnds(ck, spec, p, q);
    } else {
      WorkStarts(ck, spec, p, q, CallsMeant(b, r)[0]);
    }
  }

  lemma ProposalMeaning(spec: StackSpec, b: Memory, aws: Aws, r: Replies)
    requires b.resource.spec == Some(spec) && ValidInput(spec) && Faithful(aws, spec.stackName, r)
    requires b.resource.status.changeSetName != "" && aws.head.ChangeSet? && aws.stack.AwsStack?
    requires aws.head.status in {Pending, BeingCreated, Ready, Unsuccessful}
    requires || (b.resource.status.state == State.InProgress && IsReviewInProgress(aws.stack.status))
             || (b.resource.status.state == State.UpdateInProgress && IsComplete(aws.stack.status))
    ensures !RenamesChangeSet(b, r)
    ensures aws.head.status in {Pending, BeingCreated} ==> StateMeant(b, r) == None && CallsMeant(b, r) == []
    ensures aws.head.status == Ready ==>
      && StateMeant(b, r) == Some(State.InProgress)
      && CallsMeant(b, r) == [Execute(spec.stackName, b.resource.status.changeSetName, true)]
    ensures aws.head.status == Unsuccessful ==> StateMeant(b, r) == Some(Failure) && CallsMeant(b, r) == []
  {
    hide Deployed, Canonical;
  }

  /** An accepted execution of the change set that was proposed. */
  lemma WorkIsCarriedOn(ck: Checksum, spec: StackSpec, p: Plant, q: Plant)
    requires p.world.versions != [] && !Gated(ck, StoredResource(p))
    requires (IsReviewing(spec, p) || IsUpdating(spec, p)) && Proposal(spec, p.world.calls)
    requires p.world.calls[0].name == StoredResource(p).status.changeSetName
    requires q.world.versions != [] && StoredResource(q).spec == Some(spec) && !StoredResource(q).deleting
    requires StoredResource(q).status.state == State.InProgress
    requires var call := Execute(spec.stackName, StoredResource(p).status.changeSetName, true);
      q.world.calls == p.world.calls + [call] && q.aws == React(p.aws, call)
    ensures Advances(ck, spec, p, q)
  {
    assert q.world.calls[..1] == p.world.calls;
  }

  /** A poll advances, except that it does nothing while CloudFormation is busy. */
  ghost predicate PollsWell(ck: Checksum, spec: StackSpec, p: Plant, q: Plant) {
    if Busy(p.aws) then q == p else Advances(ck, spec, p, q)
  }

  lemma PollProposed(ck: Checksum, spec: StackSpec, p: Plant, r: Replies)
    requires Settled(spec) && Phases(ck, spec, p) && !Gated(ck, StoredResource(p))
    requires (IsReviewing(spec, p) || IsUpdating(spec, p)) && Proposal(spec, p.world.calls)
    requires p.world.calls[0].name == StoredResource(p).status.changeSetName
    requires Faithful(p.aws, spec.stackName, r) && Fits(r, StoredResource(p))
    ensures PollsWell(ck, spec, p, Poll(ck, p, r))
  {
    var b, q := AtDispatch(ck, p, r), Poll(ck, p, r);
    AtDispatchFacts(ck, p, r);
    PollOutcome(ck, spec, p, b, r);
    ProposalMeaning(spec, b, p.aws, r);
    hide Pass, Poll, StateMeant, CallsMeant, RenamesChangeSet, Fixed, Fillable, Fits, AtDispatch, Gated, Phases,
      Advances, React;
    PolledAws(ck, p, r, CallsMeant(b, r));
    if p.aws.head.status == Ready {
      WorkIsCarriedOn(ck, spec, p, q);
    } else if p.aws.head.status == Unsuccessful {
      WorkEnds(ck, spec, p, q);
    }
  }

  /** What a poll means while a change set is executed, and after it has ended. */
  lemma ExecutingMeaning(spec: StackSpec, b: Memory, aws: Aws, r: Replies)
    requires b.resource.spec == Some(spec) && b.resource.status.state == State.InProgress
    requires Faithful(aws, spec.stackName, r) && ValidInput(spec) && aws.head.NoChangeSet? && aws.stack.AwsStack?
    requires MoveRank(aws.stack.status) > 0 || HasEnded(spec, aws.stack)
    ensures CallsMeant(b, r) == []
    ensures if Busy(aws) then StateMeant(b, r) == None
      else StateMeant(b, r) == Some(if IsFailed(aws.stack.status) then Failure else Success)
  {
    hide Canonical;
  }

  lemma PollExecuting(ck: Checksum, spec: StackSpec, p: Plant, r: Replies)
    requires Settled(spec) && Phases(ck, spec, p) && !Gated(ck, StoredResource(p))
    requires IsExecuting(spec, p) && ProposalAndExecution(spec, p.world.calls)
    requires Faithful(p.aws, spec.stackName, r) && Fits(r, StoredResource(p))
    ensures PollsWell(ck, spec, p, Poll(ck, p, r))
  {
    assert CallsSucceed(r) && ValidInput(spec) && StoredResource(p).spec == Some(spec);
    assert BoundedCalls(spec, p.world.calls);
    hide AtDispatch, Gated, Faithful, StateMeant, CallsMeant, RenamesChangeSet, Settled, Fits, Phases, Poll, Advances,
      CallsSucceed, HasEnded, MoveRank, Busy, IsFailed, ProposalAndExecution, BoundedCalls;
    var b := AtDispatch(ck, p, r);
    AtDispatchFacts(ck, p, r);
    ExecutingMeaning(spec, b, p.aws, r);
    if Busy(p.aws) {
      PollRests(ck, spec, p, b, r);
    } else {
      PollConcludes(ck, spec, p, b, r);
    }
  }

  /** A poll that means nothing does nothing. */
  lemma PollRests(ck: Checksum, spec: StackSpec, p: Plant, b: Memory, r: Replies)
    requires Settled(spec) && Phases(ck, spec, p) && !Gated(ck, StoredResource(p))
    requires CallsSucceed(r) && Fits(r, StoredResource(p))
    requires b == AtDispatch(ck, p, r) && b.resource.spec == Some(spec)
    requires StateMeant(b, r) == None && CallsMeant(b, r) == []
    ensures Poll(ck, p, r) == p
  {
    PollOutcome(ck, spec, p, b, r);
    hide Pass, StateMeant, CallsMeant, RenamesChangeSet, Settled, Fits, AtDispatch, Gated, Phases;
    PolledAws(ck, p, r, []);
  }

  /** A poll that means Success or Failure without a call ends the work. */
  lemma PollConcludes(ck: Checksum, spec: StackSpec, p: Plant, b: Memory, r: Replies)
    requires Settled(spec) && Phases(ck, spec, p) && !Gated(ck, StoredResource(p))
    requires CallsSucceed(r) && Fits(r, StoredResource(p))
    requires b == AtDispatch(ck, p, r) && b.resource.spec == Some(spec)
    requires StateMeant(b, r) in {Some(Success), Some(Failure)} && CallsMeant(b, r) == []
    requires !Busy(p.aws) && BoundedCalls(spec, p.world.calls)
    ensures Advances(ck, spec, p, Poll(ck, p, r))
  {
    PollOutcome(ck, spec, p, b, r);
    hide Pass, Poll, StateMeant, CallsMeant, RenamesChangeSet, Settled, Fits, AtDispatch, Gated, Phases, Advances;
    PolledAws(ck, p, r, []);
    WorkEnds(ck, spec, p, Poll(ck, p, r));
  }

  lemma PollDone(ck: Checksum, p: Plant, r: Replies)
    requires p.world.versions != [] && Gated(ck, StoredResource(p))
    ensures Poll(ck, p, r) == p
  {
    GatedPass(ck, p.world, r);
    hide Pass;
    PolledAws(ck, p, r, []);
  }

  /** One poll in any phase: it does nothing while CloudFormation is busy and once the work is done, and advances
      otherwise. */
  lemma PollAdvances(ck: Checksum, spec: StackSpec, p: Plant, r: Replies)
    requires Settled(spec) && Phases(ck, spec, p)
    requires Faithful(p.aws, spec.stackName, r) && Fits(r, StoredResource(p))
    ensures if Busy(p.aws) || IsDone(ck, p) then Poll(ck, p, r) == p else Advances(ck, spec, p, Poll(ck, p, r))
  {
    hide Poll, Advances, Settled, Faithful, Fits;
    if Gated(ck, StoredResource(p)) {
      PollDone(ck, p, r);
    } else if IsIdle(p) && p.world.calls == [] {
      PollIdle(ck, spec, p, r);
    } else if IsReviewing(spec, p) || IsUpdating(spec, p) {
      PollProposed(ck, spec, p, r);
    } else {
      PollExecuting(ck, spec, p, r);
    }
  }

  /** A step of CloudFormation advances, and there is one exactly while it is busy. */
  lemma AwsAdvances(ck: Checksum, spec: StackSpec, p: Plant, aws: Aws)
    requires Phases(ck, spec, p) && AwsStep(p.aws, aws)
    ensures Busy(p.aws) && !IsDone(ck, p) && Advances(ck, spec, p, p.(aws := aws))
  {
  }

  /* Whole runs */

  /** Where the work may start: a blank or terminal resource with a settled spec, and no stack or a complete one
      without a waiting change set. */
  ghost predicate IsStart(spec: StackSpec, p: Plant) {
    && p.world.versions != [] && p.world.calls == []
    && StoredResource(p).spec == Some(spec) && !StoredResource(p).deleting && IsIdle(p)
  }

  ghost predicate IsRun(ck: Checksum, spec: StackSpec, run: seq<Plant>) {
    && run != [] && IsStart(spec, run[0])
    && forall i :: 0 <= i < |run| - 1 ==> Step(ck, spec, run[i], run[i + 1])
  }

  /** The number of steps that change more than counters; all others are idle polls. */
  function Changes(run: seq<Plant>): nat {
    if |run| < 2 then 0
    else (if SameWork(run[|run| - 2], run[|run| - 1]) then 0 else 1) + Changes(run[..|run| - 1])
  }

  lemma SameWorkStays(ck: Checksum, spec: StackSpec, p: Plant, q: Plant)
    requires Phases(ck, spec, p) && SameWork(p, q)
    ensures Phases(ck, spec, q) && Rank(ck, q) == Rank(ck, p)
  {
  }

  /** Each step keeps the phases, and it changes at most counters or lowers the rank; once the work is done, nothing
      but counters changes any more. */
  lemma StepAdvances(ck: Checksum, spec: StackSpec, p: Plant, q: Plant)
    requires Settled(spec) && Phases(ck, spec, p) && Step(ck, spec, p, q)
    ensures Phases(ck, spec, q) && (SameWork(p, q) || Rank(ck, q) < Rank(ck, p))
    ensures SameWork(p, q) ==> Rank(ck, q) == Rank(ck, p)
    ensures IsDone(ck, p) ==> SameWork(p, q)
  {
    hide Settled, Faithful, Fits, Poll, PollAt, Phases, Rank, AwsStep, IsDone, Proposes, Executes;
    if SameWork(p, q) { SameWorkStays(ck, spec, p, q); }
    if q.world == p.world && AwsStep(p.aws, q.aws) {
      AwsAdvances(ck, spec, p, q.aws);
      assert q == p.(aws := q.aws);
    } else if exists r :: Faithful(p.aws, spec.stackName, r) && Fits(r, StoredResource(p)) && q == Poll(ck, p, r) {
      var r :| Faithful(p.aws, spec.stackName, r) && Fits(r, StoredResource(p)) && q == Poll(ck, p, r);
      PollAdvances(ck, spec, p, r);
    } else {
      var read: nat, r :|
        IsQuiet(ck, spec, p, read) && GoesUnstored(spec, p, read, r) && q == PollAt(ck, p, read, r);
      QuietPoll(ck, spec, p, read, r);
    }
  }

  /** A quiet reconcile whose write is lost or refused changes at most counters. */
  lemma QuietPoll(ck: Checksum, spec: StackSpec, p: Plant, read: nat, r: Replies)
    requires Settled(spec) && IsQuiet(ck, spec, p, read) && GoesUnstored(spec, p, read, r)
    ensures SameWork(p, PollAt(ck, p, read, r))
  {
    hide Settled, Proposes, Executes, Apply, Reports, Fits, PollAt, Writable;
    GuardedCalls(ck, p.world, read, spec, p.aws, r);
    UnstoredReconcile(ck, p.world, read, spec, r);
    assert p.world.calls + [] == p.world.calls;
    PolledAwsAt(ck, p, read, r, []);
  }

  /** Bounded work. Every run asks for at most one change set and then for at most one execution of that change set;
      apart from idle polls it has at most nine steps; and once the resource is Success or Failure nothing changes but
      counters. A run consists of reconciles of the latest version whose calls and writes succeed, quiet reconciles of
      any version whose writes are lost or refused, and steps of CloudFormation, in any order; nobody else touches the
      stack. */
  lemma {:induction false} BoundedRun(ck: Checksum, spec: StackSpec, run: seq<Plant>)
    requires Settled(spec) && IsRun(ck, spec, run)
    ensures var last := run[|run| - 1];
      && Phases(ck, spec, last) && BoundedCalls(spec, last.world.calls)
      && Changes(run) + Rank(ck, last) <= 9
    ensures |run| > 1 && IsDone(ck, run[|run| - 2]) ==> SameWork(run[|run| - 2], run[|run| - 1])
  {
    hide Settled, Step, IsIdle;
    var n := |run|;
    if n == 1 {
      StartPhases(ck, spec, run[0]);
    } else {
      var front := run[..n - 1];
      BoundedRun(ck, spec, front);
      StepAdvances(ck, spec, front[n - 2], run[n - 1]);
    }
    PhaseCalls(ck, spec, run[n - 1]);
    hide Phases, Rank, IsDone, BoundedCalls;
  }

  lemma StartPhases(ck: Checksum, spec: StackSpec, p: Plant)
    requires IsStart(spec, p)
    ensures Phases(ck, spec, p) && Rank(ck, p) <= 9
  {
  }

  lemma PhaseCalls(ck: Checksum, spec: StackSpec, p: Plant)
    requires Phases(ck, spec, p)
    ensures BoundedCalls(spec, p.world.calls)
    ensures IsDone(ck, p) ==> IsTerminal(StoredResource(p).status.state)
  {
  }

  /** No run gets stuck: until the work is done some step advances it, one of CloudFormation while that is busy, and
      otherwise every poll. */
  lemma NeverStuck(ck: Checksum, spec: StackSpec, p: Plant)
    requires Settled(spec) && Phases(ck, spec, p) && !IsDone(ck, p)
    ensures exists q :: Step(ck, spec, p, q) && Advances(ck, spec, p, q)
    ensures Busy(p.aws) <==> exists aws :: AwsStep(p.aws, aws)
    ensures !Busy(p.aws) ==> forall r :: Faithful(p.aws, spec.stackName, r) && Fits(r, StoredResource(p)) ==>
      Advances(ck, spec, p, Poll(ck, p, r))
  {
    forall aws | AwsStep(p.aws, aws) ensures Busy(p.aws) { AwsAdvances(ck, spec, p, aws); }
    if Busy(p.aws) {
      AwsCanMove(ck, spec, p);
      var aws :| AwsStep(p.aws, aws);
      AwsAdvances(ck, spec, p, aws);
      hide AwsStep, Advances, Phases, Settled;
      assert Step(ck, spec, p, p.(aws := aws));
    } else {
      var r := FaithfulReply(ck, spec, p);
      hide Poll, Advances, Faithful, Fits, Settled, Phases, IsDone, AwsStep;
      forall r | Faithful(p.aws, spec.stackName, r) && Fits(r, StoredResource(p))
        ensures Advances(ck, spec, p, Poll(ck, p, r))
      {
        PollAdvances(ck, spec, p, r);
      }
      assert Step(ck, spec, p, Poll(ck, p, r));
    }
  }

  /** There are replies that report any state of CloudFormation. */
  lemma ReportingReply(spec: StackSpec, aws: Aws, uuid: string, saved: set<Site>) returns (r: Replies)
    ensures Reports(aws, spec.stackName, r) && r.get.Found? && r.session.SessionObtained?
    ensures Enumerates(r.order, spec.parameters) && Enumerates(r.tagOrder, spec.tags)
    ensures r.createAccepted && r.executeAccepted && r.uuid == uuid && r.saved == saved
    ensures aws.stack.AwsStack? ==>
      r.describe == Stacks([StackInfo(spec.stackName, aws.stack.status, Canonical(aws.stack.deployed.parameters), [])])
  {
    var order := Enumeration(spec.parameters);
    var tagOrder := Enumeration(spec.tags);
    var describe, template := match aws.stack
      case NoStack => DescribeFailed(true)
      case AwsStack(status, deployed, _) =>
        Stacks([StackInfo(spec.stackName, status, Canonical(deployed.parameters), [])]),
      if aws.stack.NoStack? then TemplateFailed else TemplateBody(aws.stack.deployed.template);
    var changeSets := if aws.head.NoChangeSet? then Summaries([]) else Summaries([aws.head.status]);
    r := Replies(Found, None, SessionObtained, order, tagOrder, map[], describe, Events([]), changeSets, template, uuid,
      true, true, saved);
  }

  /** There are faithful replies in every phase. */
  lemma FaithfulReply(ck: Checksum, spec: StackSpec, p: Plant) returns (r: Replies)
    requires p.world.versions != [] && StoredResource(p).spec == Some(spec)
    ensures Faithful(p.aws, spec.stackName, r) && Fits(r, StoredResource(p))
  {
    r := ReportingReply(spec, p.aws, "", ALL_SITES);
  }

  lemma AwsCanMove(ck: Checksum, spec: StackSpec, p: Plant)
    requires Phases(ck, spec, p) && Busy(p.aws)
    ensures exists aws :: AwsStep(p.aws, aws)
  {
    var aws := p.aws;
    if aws.head.ChangeSet? {
      assert AwsStep(aws, aws.(head := aws.head.(status := Ready)));
    } else {
      var next := match aws.stack.status
        case CreateInProgress => CreateComplete
        case RollbackInProgress => RollbackComplete
        case UpdateRollbackInProgress => UpdateRollbackComplete
        case UpdateRollbackCompleteCleanupInProgress => UpdateRollbackComplete
        case _ => UpdateComplete;
      assert AwsStep(aws, aws.(stack := aws.stack.(status := next, deployed := aws.stack.target)));
    }
  }
}
