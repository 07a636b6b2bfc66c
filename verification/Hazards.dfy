/** What the bound on the work rests on: the write behind every accepted call, and reads of the version behind it. Both
    are taken away here, call by call: CREATE, UPDATE and execution. A write that follows no call may always be lost,
    since quiet reconciles are steps of the bounded runs. */
module Hazards {
  import opened Text
  import opened Cloud
  import opened Defaults
  import opened References
  import opened Parameters
  import opened Validations
  import opened Controller
  import opened Safety
  import opened Preparation
  import opened Runs
  import opened Convergence
  import opened BoundedWork

  /** The latest version has a settled spec, and its gate is open. */
  ghost predicate IsOpen(ck: Checksum, spec: StackSpec, world: World) {
    && world.versions != [] && Latest(world).resource.spec == Some(spec) && Settled(spec)
    && !Gated(ck, Latest(world).resource)
  }

  /** A reply that lets the reconcile of this spec reach CloudFormation; its writes and mutating calls may fail. */
  ghost predicate Reaches(spec: StackSpec, r: Replies) {
    && Enumerates(r.order, spec.parameters) && Enumerates(r.tagOrder, spec.tags)
    && r.get.Found? && r.session.SessionObtained?
  }

  ghost function OpenedLatest(ck: Checksum, world: World, r: Replies): Memory
    requires world.versions != []
  {
    Opened(ck, StartOf(world, |world.versions| - 1, r))
  }

  lemma OpenedSpec(ck: Checksum, world: World, r: Replies)
    requires world.versions != []
    ensures OpenedLatest(ck, world, r).resource.spec == Latest(world).resource.spec
  {
  }

  /** A pass over an open resource: its calls, and what it stores if its write succeeds. */
  lemma OpenPass(ck: Checksum, world: World, spec: StackSpec, b: Memory, r: Replies)
    requires IsOpen(ck, spec, world) && Reaches(spec, r) && b == OpenedLatest(ck, world, r)
    requires b.resource.spec == Some(spec)
    ensures var next := Pass(ck, world, r);
      && next.calls == world.calls + CallsMeant(b, r)
      && next.versions != []
      && (StateMeant(b, r).None? || OutcomeSite !in r.saved ==> next.versions == world.versions)
      && (StateMeant(b, r).Some? && OutcomeSite in r.saved ==>
            var v := Latest(next).resource;
            && |next.versions| == |world.versions| + 1 && world.versions <= next.versions
            && v.spec == Some(spec) && v.deleting == Latest(world).resource.deleting
            && v.status.checksum == ck(Some(spec)) && v.status.state == StateMeant(b, r).value
            && v.status.changeSetName == if RenamesChangeSet(b, r) then ChangeSetName(spec, r.uuid)
                                         else Latest(world).resource.status.changeSetName)
  {
    var read := |world.versions| - 1;
    assert b.world == world && b.resource.deleting == Latest(world).resource.deleting
      && b.resource.status == Latest(world).resource.status.(checksum := ck(Some(spec)));
    assert Readable(world, read, r);
    hide Settled, Fits, Dispatch, Apply, Gated, CallsMeant, StateMeant, RenamesChangeSet, Opened, Enumerates;
    ReadCallsMeant(ck, world, read, spec, b, r);
    StatusTable(b, r);
  }

  /** An accepted proposal whose write may be lost. */
  lemma ProposingPass(ck: Checksum, world: World, spec: StackSpec, b: Memory, kind: ChangeSetKind, r: Replies)
    requires IsOpen(ck, spec, world) && Reaches(spec, r) && r.createAccepted
    requires b == OpenedLatest(ck, world, r) && b.resource.spec == Some(spec)
    requires if kind == CREATE then Unclaimed(spec.stackName, r) else MeansUpdate(b, r)
    ensures var first := Pass(ck, world, r);
      && IsOpen(ck, spec, first) && first.calls == world.calls + [CreateCall(spec, kind, r)]
      && (OutcomeSite !in r.saved ==> first.versions == world.versions)
      && (OutcomeSite in r.saved ==>
            var status := Latest(first).resource.status;
            && |first.versions| == |world.versions| + 1 && world.versions <= first.versions
            && Latest(first).resource.deleting == Latest(world).resource.deleting
            && status.changeSetName == ChangeSetName(spec, r.uuid)
            && status.state == if kind == CREATE then State.InProgress else State.UpdateInProgress)
  {
    hide Fixed, Fillable, Reaches, Pass, Deployed, OpenedLatest, ChangeSetName;
    OpenPass(ck, world, spec, b, r);
  }

  /* Lost writes */

  /** The stack is under review, and its newest change set is ready. */
  predicate AwaitsExecution(name: string, r: Replies) {
    OwnStack(name, r) && IsReviewInProgress(OwnStatus(name, r)) && HeadIs(r, Ready)
  }

  /** A pass over a stack under review with a ready change set: it executes whatever name is stored, and closes the
      gate with Failure when there is none or the execution is refused. */
  lemma ExecutingPass(ck: Checksum, world: World, spec: StackSpec, r: Replies)
    requires IsOpen(ck, spec, world) && Reaches(spec, r) && AwaitsExecution(spec.stackName, r)
    ensures var name, next := Latest(world).resource.status.changeSetName, Pass(ck, world, r);
      && next.calls
           == world.calls + (if name == "" then [] else [Execute(spec.stackName, name, r.executeAccepted)])
      && next.versions != []
      && (OutcomeSite in r.saved ==>
            && Latest(next).resource.deleting == Latest(world).resource.deleting
            && Latest(next).resource.spec == Some(spec) && Latest(next).resource.status.checksum == ck(Some(spec))
            && Latest(next).resource.status.state
                 == if name != "" && r.executeAccepted then State.InProgress else Failure)
  {
    var b := OpenedLatest(ck, world, r);
    assert b.resource.spec == Some(spec)
      && b.resource.status.changeSetName == Latest(world).resource.status.changeSetName;
    hide Fixed, Fillable, Reaches, Pass, OpenedLatest;
    OpenPass(ck, world, spec, b, r);
  }

  /** Two passes around an accepted CREATE: the first one asks for the change set, the second one finds it ready. */
  ghost predicate CreatesAndFindsReady(ck: Checksum, world: World, spec: StackSpec, r1: Replies, first: World,
      r2: Replies) {
    && IsOpen(ck, spec, world) && Reaches(spec, r1) && Reaches(spec, r2)
    && Unclaimed(spec.stackName, r1) && r1.createAccepted && AwaitsExecution(spec.stackName, r2)
    && first == Pass(ck, world, r1)
  }

  /** The change-set name that the second pass finds in the status. */
  function NameFound(world: World, spec: StackSpec, r1: Replies): string
    requires world.versions != []
  {
    if OutcomeSite in r1.saved then ChangeSetName(spec, r1.uuid) else Latest(world).resource.status.changeSetName
  }

  predicate ExecutesName(calls: seq<Call>, name: string) {
    exists c :: c in calls && c.Execute? && c.name == name
  }

  /** The write of the first pass may be lost. The second pass executes the change set that was created exactly when the
      write succeeded or its name was stored already; otherwise it executes the older name, and nothing at all when
      none was stored. */
  lemma LostCreateMisleads(ck: Checksum, world: World, spec: StackSpec, r1: Replies, first: World, r2: Replies)
    requires CreatesAndFindsReady(ck, world, spec, r1, first, r2)
    ensures first.versions != []
    ensures var named, created, calls :=
        NameFound(world, spec, r1), ChangeSetName(spec, r1.uuid), Pass(ck, first, r2).calls;
      && calls == world.calls + [CreateCall(spec, CREATE, r1)]
           + (if named == "" then [] else [Execute(spec.stackName, named, r2.executeAccepted)])
      && (ExecutesName(calls[|world.calls|..], created) <==>
            OutcomeSite in r1.saved || Latest(world).resource.status.changeSetName == created)
  {
    hide Pass, Reaches, AwaitsExecution, Unclaimed, OpenedLatest, ChangeSetName, Gated, Settled, CreateCall,
      ExecutesName;
    LostCreate(ck, world, spec, r1, first, r2);
    var calls, named := Pass(ck, first, r2).calls, NameFound(world, spec, r1);
    assert calls[|world.calls|..] == [CreateCall(spec, CREATE, r1)]
      + if named == "" then [] else [Execute(spec.stackName, named, r2.executeAccepted)];
    ExecutedName(spec, r1, named, r2.executeAccepted, calls[|world.calls|..]);
  }

  lemma ExecutedName(spec: StackSpec, r: Replies, named: string, accepted: bool, added: seq<Call>)
    requires added == [CreateCall(spec, CREATE, r)]
      + if named == "" then [] else [Execute(spec.stackName, named, accepted)]
    ensures ExecutesName(added, ChangeSetName(spec, r.uuid)) <==> named == ChangeSetName(spec, r.uuid)
  {
    hide Canonical, TagList;
    assert ChangeSetName(spec, r.uuid) != "";
    if named != "" { assert added[1] in added; }
  }

  lemma LostCreate(ck: Checksum, world: World, spec: StackSpec, r1: Replies, first: World, r2: Replies)
    requires CreatesAndFindsReady(ck, world, spec, r1, first, r2)
    ensures IsOpen(ck, spec, first) && first.calls == world.calls + [CreateCall(spec, CREATE, r1)]
    ensures Latest(first).resource.status.changeSetName == NameFound(world, spec, r1)
    ensures Latest(first).resource.deleting == Latest(world).resource.deleting
    ensures var named := NameFound(world, spec, r1);
      Pass(ck, first, r2).calls
        == first.calls + if named == "" then [] else [Execute(spec.stackName, named, r2.executeAccepted)]
  {
    hide Pass, Reaches, AwaitsExecution, Unclaimed, ChangeSetName, Gated, Settled, CreateCall, OpenedLatest,
      MeansUpdate;
    OpenedSpec(ck, world, r1);
    ProposingPass(ck, world, spec, OpenedLatest(ck, world, r1), CREATE, r1);
    ExecutingPass(ck, first, spec, r2);
  }

  /** How it ends when the second write succeeds and no deletion is requested: with no accepted execution the gate
      closes on Failure, and no later pass does anything. CloudFormation executes a name only if that change set exists;
      so a fresh resource whose first write was lost stays behind with its ready change set unexecuted. */
  lemma LostCreateEnds(ck: Checksum, world: World, spec: StackSpec, r1: Replies, first: World, r2: Replies,
      second: World, later: seq<Action>)
    requires CreatesAndFindsReady(ck, world, spec, r1, first, r2) && !Latest(world).resource.deleting
    requires OutcomeSite in r2.saved && first.versions != [] && second == Pass(ck, first, r2)
    ensures second.versions != []
    ensures Gated(ck, Latest(second).resource) <==> NameFound(world, spec, r1) == "" || !r2.executeAccepted
    ensures Gated(ck, Latest(second).resource) ==> Latest(second).resource.status.state == Failure
    ensures Gated(ck, Latest(second).resource) && (forall a :: a in later ==>
        a.ReconcileAt? && a.read + 1 == |second.versions|)
      ==> Run(ck, second, later) == second
    ensures (r2.executeAccepted <==> NameFound(world, spec, r1) == ChangeSetName(spec, r1.uuid)) ==>
      (Gated(ck, Latest(second).resource) <==>
         OutcomeSite !in r1.saved && Latest(world).resource.status.changeSetName != ChangeSetName(spec, r1.uuid))
  {
    LostCreate(ck, world, spec, r1, first, r2);
    assert AwaitsExecution(spec.stackName, r2) && Reaches(spec, r2) && ChangeSetName(spec, r1.uuid) != "";
    hide Pass, Reaches, Settled, CreateCall, CreatesAndFindsReady, ChangeSetName;
    ExecutingPass(ck, first, spec, r2);
    if Gated(ck, Latest(second).resource)
      && forall a :: a in later ==> a.ReconcileAt? && a.read + 1 == |second.versions| {
      AtRest(ck, second, later);
    }
  }

  /* Reads of any version */

  predicate Creates(calls: seq<Call>) {
    exists c :: c in calls && c.Create?
  }

  /** What a reconcile of any stored version does to a stack: it proposes exactly when this version passes the first
      guard, and it executes the waiting change set exactly when this version passes the second one and names it. */
  lemma GuardsDecide(ck: Checksum, world: World, read: nat, spec: StackSpec, aws: Aws, r: Replies)
    requires Readable(world, read, r) && world.versions[read].resource.spec == Some(spec) && Settled(spec)
    requires r.get.Found? && r.session.SessionObtained? && Reports(aws, spec.stackName, r) && aws.head.ChangeSet?
    ensures var v, calls := world.versions[read].resource, Apply(ck, world, ReconcileAt(read, r)).calls;
      && world.calls <= calls && |calls| <= |world.calls| + 1
      && (Creates(calls[|world.calls|..]) <==> Proposes(ck, v, aws))
      && (ExecutesName(calls[|world.calls|..], aws.head.name) <==>
            Executes(ck, v, aws) && v.status.changeSetName == aws.head.name)
  {
    var v := world.versions[read].resource;
    var added := ReadCalls(ck, v, aws, r);
    assert !(Proposes(ck, v, aws) && Executes(ck, v, aws)) by { hide Gated, Deployed, Canonical; }
    hide Settled, Apply, Fits, Reports, Proposes, Executes, Canonical, TagList;
    GuardedCalls(ck, world, read, spec, aws, r);
    assert Apply(ck, world, ReconcileAt(read, r)).calls[|world.calls|..] == added;
    if added != [] { assert added[0] in added; }
  }

  /** An accepted UPDATE proposal for a reported stack. */
  ghost predicate Updates(ck: Checksum, world: World, spec: StackSpec, aws: Aws, r: Replies, first: World) {
    && IsOpen(ck, spec, world) && Reaches(spec, r) && r.createAccepted
    && aws.stack.AwsStack? && Reports(aws, spec.stackName, r) && Proposes(ck, Latest(world).resource, aws)
    && first == Pass(ck, world, r)
  }

  /** The calls of a reconcile that finds the change set of such a proposal waiting, and this state and change-set name
      in the version it reads. */
  ghost function FollowUp(spec: StackSpec, aws: Aws, head: ChangeSet, state: State, name: string, r: Replies): seq<Call>
    requires aws.stack.AwsStack? && head.ChangeSet?
  {
    if !(IsComplete(aws.stack.status) && state.UpdateInProgress?) then [CreateCall(spec, UPDATE, r)]
    else if head.status == Ready && name != "" then [Execute(spec.stackName, name, r.executeAccepted)]
    else []
  }

  /** After such a proposal, with its change set waiting, a reconcile reads either the version behind it or, because
      the write was lost or the read is stale, the version in front of it. It proposes again exactly when the version
      it reads does not await the update of a complete stack; otherwise it executes the name in that version once the
      change set is ready. */
  lemma RepeatedProposal(ck: Checksum, world: World, spec: StackSpec, aws: Aws, r1: Replies, first: World,
      head: ChangeSet, read: nat, r2: Replies)
    requires Updates(ck, world, spec, aws, r1, first) && IsWaiting(head)
    requires |world.versions| - 1 <= read < |first.versions|
    requires Reaches(spec, r2) && Reports(Aws(aws.stack, head), spec.stackName, r2)
    ensures var older, isOlder := Latest(world).resource.status, read == |world.versions| - 1;
      Apply(ck, first, ReconcileAt(read, r2)).calls == world.calls + [CreateCall(spec, UPDATE, r1)]
        + FollowUp(spec, aws, head, if isOlder then older.state else State.UpdateInProgress,
                   if isOlder then older.changeSetName else ChangeSetName(spec, r1.uuid), r2)
  {
    hide Apply, Reports, Pass, Reaches, ChangeSetName, Proposes, CreateCall, Updates, FollowUp, Settled;
    VersionRead(ck, world, spec, aws, r1, first, read);
    RereadCalls(ck, first, spec, Latest(world).resource, aws, head, read, r2);
  }

  lemma RereadCalls(ck: Checksum, first: World, spec: StackSpec, older: Resource, aws: Aws, head: ChangeSet, read: nat,
      r: Replies)
    requires read < |first.versions| && Settled(spec) && aws.stack.AwsStack? && IsWaiting(head)
    requires older.spec == first.versions[read].resource.spec == Some(spec) && Proposes(ck, older, aws)
    requires first.versions[read].resource == older
          || first.versions[read].resource.status.state == State.UpdateInProgress
    requires Reaches(spec, r) && Reports(Aws(aws.stack, head), spec.stackName, r)
    ensures var status := first.versions[read].resource.status;
      Apply(ck, first, ReconcileAt(read, r)).calls
        == first.calls + FollowUp(spec, aws, head, status.state, status.changeSetName, r)
  {
    assert r.get.Found? && r.session.SessionObtained?;
    var v := first.versions[read].resource;
    hide Settled, Apply, Reports, Reaches, Proposes, ReadCalls, FollowUp;
    ReachesFits(spec, v, r);
    GuardedCalls(ck, first, read, spec, Aws(aws.stack, head), r);
    RepeatedGuard(ck, older, v, spec, aws, head, r);
  }

  lemma VersionRead(ck: Checksum, world: World, spec: StackSpec, aws: Aws, r: Replies, first: World, read: nat)
    requires Updates(ck, world, spec, aws, r, first) && |world.versions| - 1 <= read < |first.versions|
    ensures world.versions != [] && Latest(world).resource.spec == Some(spec) && Settled(spec)
    ensures aws.stack.AwsStack? && Proposes(ck, Latest(world).resource, aws)
    ensures first.calls == world.calls + [CreateCall(spec, UPDATE, r)]
    ensures var v := first.versions[read].resource;
      if read == |world.versions| - 1 then v == Latest(world).resource
      else v.spec == Some(spec) && v.status.state == State.UpdateInProgress
           && v.status.changeSetName == ChangeSetName(spec, r.uuid)
  {
    hide Pass, Reports, Reaches, Proposes, CreateCall, ChangeSetName, Settled;
    UpdateVersions(ck, world, spec, aws, r, first);
  }

  lemma ReachesFits(spec: StackSpec, resource: Resource, r: Replies)
    requires Reaches(spec, r) && resource.spec == Some(spec)
    ensures Fits(r, resource)
  {
  }

  /** The versions in front of an UPDATE proposal and behind it. */
  lemma UpdateVersions(ck: Checksum, world: World, spec: StackSpec, aws: Aws, r: Replies, first: World)
    requires Updates(ck, world, spec, aws, r, first)
    ensures first.calls == world.calls + [CreateCall(spec, UPDATE, r)]
    ensures |world.versions| <= |first.versions| <= |world.versions| + 1
    ensures first.versions[|world.versions| - 1] == Latest(world)
    ensures OutcomeSite in r.saved <==> |first.versions| == |world.versions| + 1
    ensures |first.versions| == |world.versions| + 1 ==>
      var v := Latest(first).resource;
      && v.spec == Some(spec) && v.status.state == State.UpdateInProgress
      && v.status.changeSetName == ChangeSetName(spec, r.uuid)
  {
    var b := OpenedLatest(ck, world, r);
    assert b.resource == Latest(world).resource.(status := b.resource.status) && ValidInput(spec)
      && b.resource.status == Latest(world).resource.status.(checksum := ck(Some(spec)));
    hide Fixed, Fillable, Reaches, Pass, OpenedLatest, ChangeSetName, CreateCall, Gated, Reports, Proposes, MeansUpdate;
    UpdateGuardMeaning(ck, Latest(world).resource, b, spec, aws, r);
    ProposingPass(ck, world, spec, b, UPDATE, r);
  }

  lemma UpdateGuardMeaning(ck: Checksum, v: Resource, b: Memory, spec: StackSpec, aws: Aws, r: Replies)
    requires v.spec == Some(spec) && ValidInput(spec) && !Gated(ck, v) && Reports(aws, spec.stackName, r)
    requires Proposes(ck, v, aws) && aws.stack.AwsStack? && b.resource.spec == v.spec
    requires b.resource.status.state == v.status.state && b.resource.status.changeSetName == v.status.changeSetName
    ensures MeansUpdate(b, r)
  {
    GuardMeaning(ck, v, b, spec, aws, r);
    hide Gated, Deployed, Canonical, MeansUpdate, MeansExecute, Unclaimed, TagList;
  }

  /** The guard of the version in front of a proposal, v, and of the version behind it. */
  lemma RepeatedGuard(ck: Checksum, v: Resource, w: Resource, spec: StackSpec, aws: Aws, head: ChangeSet, r: Replies)
    requires v.spec == w.spec == Some(spec) && aws.stack.AwsStack? && IsWaiting(head) && Proposes(ck, v, aws)
    requires w == v || w.status.state == State.UpdateInProgress
    ensures ReadCalls(ck, w, Aws(aws.stack, head), r)
      == FollowUp(spec, aws, head, w.status.state, w.status.changeSetName, r)
  {
    hide Deployed, Canonical, CreateCall;
  }

  lemma RepeatsIff(spec: StackSpec, aws: Aws, head: ChangeSet, state: State, name: string, r1: Replies, r2: Replies,
      calls: seq<Call>)
    requires aws.stack.AwsStack? && head.ChangeSet?
    ensures calls + [CreateCall(spec, UPDATE, r1)] + FollowUp(spec, aws, head, state, name, r2)
         == calls + [CreateCall(spec, UPDATE, r1), CreateCall(spec, UPDATE, r2)]
       <==> !(IsComplete(aws.stack.status) && state.UpdateInProgress?)
  {
    hide Canonical, TagList, ChangeSetName;
    var c1, c2, next := CreateCall(spec, UPDATE, r1), CreateCall(spec, UPDATE, r2),
      FollowUp(spec, aws, head, state, name, r2);
    var left, right, n := calls + [c1] + next, calls + [c1, c2], |calls|;
    if next == [c2] { assert left == right; }
    assert right[n + 1] == c2;
    if next != [] { assert left[n + 1] == next[0]; }
  }

  /** A lost write: the next fresh pass asks for a second change set exactly when the write was lost and the resource
      did not await an update before. */
  lemma LostUpdateRepeats(ck: Checksum, world: World, spec: StackSpec, aws: Aws, r1: Replies, first: World,
      head: ChangeSet, r2: Replies)
    requires Updates(ck, world, spec, aws, r1, first) && IsComplete(aws.stack.status) && IsWaiting(head)
    requires Reaches(spec, r2) && Reports(Aws(aws.stack, head), spec.stackName, r2)
    ensures first.versions != []
    ensures Pass(ck, first, r2).calls == world.calls + [CreateCall(spec, UPDATE, r1), CreateCall(spec, UPDATE, r2)]
       <==> OutcomeSite !in r1.saved && !Latest(world).resource.status.state.UpdateInProgress?
  {
    assert world.versions != [] && aws.stack.AwsStack?;
    UpdateVersions(ck, world, spec, aws, r1, first);
    hide Apply, Reports, Updates, Reaches, CreateCall, FollowUp, ChangeSetName;
    RepeatedProposal(ck, world, spec, aws, r1, first, head, |first.versions| - 1, r2);
    var older := Latest(world).resource.status;
    RepeatsIff(spec, aws, head, older.state, older.changeSetName, r1, r2, world.calls);
    RepeatsIff(spec, aws, head, State.UpdateInProgress, ChangeSetName(spec, r1.uuid), r1, r2, world.calls);
  }

  /** A stale read: although the first write succeeded, a reconcile that still reads the version in front of it asks for
      a second change set, exactly when that version did not await an update. */
  lemma StaleReadRepeats(ck: Checksum, world: World, spec: StackSpec, aws: Aws, r1: Replies, first: World,
      head: ChangeSet, r2: Replies)
    requires Updates(ck, world, spec, aws, r1, first) && IsComplete(aws.stack.status) && IsWaiting(head)
    requires OutcomeSite in r1.saved
    requires Reaches(spec, r2) && Reports(Aws(aws.stack, head), spec.stackName, r2)
    ensures |first.versions| == |world.versions| + 1 > 1
    ensures Apply(ck, first, ReconcileAt(|world.versions| - 1, r2)).calls
         == world.calls + [CreateCall(spec, UPDATE, r1), CreateCall(spec, UPDATE, r2)]
       <==> !Latest(world).resource.status.state.UpdateInProgress?
    ensures !BoundedCalls(spec, world.calls + [CreateCall(spec, UPDATE, r1), CreateCall(spec, UPDATE, r2)])
  {
    TwoProposals(spec, world.calls, r1, r2);
    assert world.versions != [] && aws.stack.AwsStack?;
    UpdateVersions(ck, world, spec, aws, r1, first);
    hide Apply, Reports, Updates, Reaches, CreateCall, FollowUp, BoundedCalls;
    RepeatedProposal(ck, world, spec, aws, r1, first, head, |world.versions| - 1, r2);
    var older := Latest(world).resource.status;
    RepeatsIff(spec, aws, head, older.state, older.changeSetName, r1, r2, world.calls);
  }

  /** Two proposals are more than the bound allows. */
  lemma TwoProposals(spec: StackSpec, calls: seq<Call>, r1: Replies, r2: Replies)
    ensures !BoundedCalls(spec, calls + [CreateCall(spec, UPDATE, r1), CreateCall(spec, UPDATE, r2)])
  {
    hide Canonical, TagList, ChangeSetName;
    var all := calls + [CreateCall(spec, UPDATE, r1), CreateCall(spec, UPDATE, r2)];
    assert all[|calls| + 1].Create?;
  }

  /* Executions */

  /** An accepted execution of the change set that the latest version names. */
  ghost predicate Carries(ck: Checksum, world: World, spec: StackSpec, aws: Aws, r: Replies, first: World) {
    && IsOpen(ck, spec, world) && Reaches(spec, r) && r.executeAccepted
    && Reports(aws, spec.stackName, r) && Executes(ck, Latest(world).resource, aws)
    && first == Pass(ck, world, r)
  }

  function ExecuteCall(world: World, spec: StackSpec): Call
    requires world.versions != []
  {
    Execute(spec.stackName, Latest(world).resource.status.changeSetName, true)
  }

  /** The versions in front of an execution and behind it. */
  lemma ExecutionVersions(ck: Checksum, world: World, spec: StackSpec, aws: Aws, r: Replies, first: World)
    requires Carries(ck, world, spec, aws, r, first)
    ensures first.calls == world.calls + [ExecuteCall(world, spec)]
    ensures |world.versions| <= |first.versions| <= |world.versions| + 1
    ensures first.versions[|world.versions| - 1] == Latest(world)
    ensures OutcomeSite in r.saved <==> |first.versions| == |world.versions| + 1
    ensures |first.versions| == |world.versions| + 1 ==>
      Latest(first).resource.spec == Some(spec) && Latest(first).resource.status.state == State.InProgress
  {
    var b := OpenedLatest(ck, world, r);
    assert b.resource == Latest(world).resource.(status := b.resource.status) && ValidInput(spec)
      && b.resource.status == Latest(world).resource.status.(checksum := ck(Some(spec)));
    hide Fixed, Fillable, Reaches, Pass, OpenedLatest, CreateCall, Gated, Reports, Executes, StateMeant, CallsMeant;
    ExecuteGuardMeaning(ck, Latest(world).resource, b, spec, aws, r);
    OpenPass(ck, world, spec, b, r);
  }

  lemma ExecuteGuardMeaning(ck: Checksum, v: Resource, b: Memory, spec: StackSpec, aws: Aws, r: Replies)
    requires v.spec == Some(spec) && ValidInput(spec) && !Gated(ck, v) && Reports(aws, spec.stackName, r)
    requires Executes(ck, v, aws) && b.resource.spec == v.spec && r.executeAccepted
    requires b.resource.status.state == v.status.state && b.resource.status.changeSetName == v.status.changeSetName
    ensures CallsMeant(b, r) == [Execute(spec.stackName, v.status.changeSetName, true)]
    ensures StateMeant(b, r) == Some(State.InProgress)
  {
    hide Gated, Deployed, Canonical;
  }

  /** The call of a reconcile that reads a version in this state once the execution has ended: none, unless the stack
      was rolled back to something else and the version does not know of the execution. */
  ghost function AfterEnd(spec: StackSpec, stack: AwsStack, state: State, r: Replies): seq<Call>
    requires stack.AwsStack?
  {
    if IsRollBackComplete(stack.status) && !state.InProgress?
      && !Deployed(spec, Canonical(stack.deployed.parameters), stack.deployed.template)
    then [CreateCall(spec, UPDATE, r)] else []
  }

  lemma EndedGuard(ck: Checksum, v: Resource, spec: StackSpec, stack: AwsStack, r: Replies)
    requires v.spec == Some(spec) && !Gated(ck, v) && stack.AwsStack? && HasEnded(spec, stack)
    ensures ReadCalls(ck, v, Aws(stack, NoChangeSet), r) == AfterEnd(spec, stack, v.status.state, r)
  {
    CanonicalAgrees(spec.parameters);
    hide Gated, Canonical, CreateCall, Agrees;
  }

  /** After such an execution has ended, a reconcile reads either the version behind it or, because the write was lost
      or the read is stale, the version in front of it: it proposes a further change set exactly when the stack was
      rolled back to something else and the version it reads is not InProgress. */
  lemma RepeatedAfterExecution(ck: Checksum, world: World, spec: StackSpec, aws: Aws, r1: Replies, first: World,
      stack: AwsStack, read: nat, r2: Replies)
    requires Carries(ck, world, spec, aws, r1, first) && stack.AwsStack? && HasEnded(spec, stack)
    requires |world.versions| - 1 <= read < |first.versions|
    requires Reaches(spec, r2) && Reports(Aws(stack, NoChangeSet), spec.stackName, r2)
    ensures Apply(ck, first, ReconcileAt(read, r2)).calls == world.calls + [ExecuteCall(world, spec)]
      + AfterEnd(spec, stack,
          if read == |world.versions| - 1 then Latest(world).resource.status.state else State.InProgress, r2)
  {
    hide Settled, Apply, Reports, Reaches, Carries, AfterEnd, Gated, HasEnded, ExecuteCall;
    VersionCarried(ck, world, spec, aws, r1, first, read);
    CallsAfterEnd(ck, first, spec, stack, read, r2);
  }

  lemma CallsAfterEnd(ck: Checksum, first: World, spec: StackSpec, stack: AwsStack, read: nat, r: Replies)
    requires read < |first.versions| && first.versions[read].resource.spec == Some(spec) && Settled(spec)
    requires !Gated(ck, first.versions[read].resource) && stack.AwsStack? && HasEnded(spec, stack)
    requires Reaches(spec, r) && Reports(Aws(stack, NoChangeSet), spec.stackName, r)
    ensures Apply(ck, first, ReconcileAt(read, r)).calls
         == first.calls + AfterEnd(spec, stack, first.versions[read].resource.status.state, r)
  {
    assert r.get.Found? && r.session.SessionObtained?;
    hide Settled, Apply, Reports, Reaches, AfterEnd, ReadCalls, Gated, HasEnded;
    var v := first.versions[read].resource;
    ReachesFits(spec, v, r);
    GuardedCalls(ck, first, read, spec, Aws(stack, NoChangeSet), r);
    EndedGuard(ck, v, spec, stack, r);
  }

  lemma VersionCarried(ck: Checksum, world: World, spec: StackSpec, aws: Aws, r: Replies, first: World, read: nat)
    requires Carries(ck, world, spec, aws, r, first) && |world.versions| - 1 <= read < |first.versions|
    ensures world.versions != [] && Settled(spec) && first.calls == world.calls + [ExecuteCall(world, spec)]
    ensures var v := first.versions[read].resource;
      && v.spec == Some(spec) && !Gated(ck, v)
      && v.status.state
           == if read == |world.versions| - 1 then Latest(world).resource.status.state else State.InProgress
  {
    hide Pass, Reports, Reaches, Executes, ExecuteCall, Settled;
    ExecutionVersions(ck, world, spec, aws, r, first);
  }

  /** A lost write behind an execution: after its end the next fresh pass proposes again exactly when the write was
      lost, the version in front was not InProgress, and the stack was rolled back to something else. The usual version
      in front is one that awaits an update, which is no sign of an execution. */
  lemma LostExecutionRepeats(ck: Checksum, world: World, spec: StackSpec, aws: Aws, r1: Replies, first: World,
      stack: AwsStack, r2: Replies)
    requires Carries(ck, world, spec, aws, r1, first) && stack.AwsStack? && HasEnded(spec, stack)
    requires Reaches(spec, r2) && Reports(Aws(stack, NoChangeSet), spec.stackName, r2)
    ensures first.versions != []
    ensures Pass(ck, first, r2).calls == world.calls + [ExecuteCall(world, spec)]
      + if OutcomeSite !in r1.saved && !Latest(world).resource.status.state.InProgress?
           && IsRollBackComplete(stack.status)
           && !Deployed(spec, Canonical(stack.deployed.parameters), stack.deployed.template)
        then [CreateCall(spec, UPDATE, r2)] else []
  {
    ExecutionVersions(ck, world, spec, aws, r1, first);
    hide Apply, Reports, Carries, Reaches, CreateCall, HasEnded, Deployed, ExecuteCall;
    RepeatedAfterExecution(ck, world, spec, aws, r1, first, stack, |first.versions| - 1, r2);
  }

  /** A stale read after an execution: although its write succeeded, a reconcile that still reads the version in front
      of it proposes again exactly when that one was not InProgress and the stack was rolled back to something else. */
  lemma StaleReadAfterRollback(ck: Checksum, world: World, spec: StackSpec, aws: Aws, r1: Replies, first: World,
      stack: AwsStack, r2: Replies)
    requires Carries(ck, world, spec, aws, r1, first) && stack.AwsStack? && HasEnded(spec, stack)
    requires OutcomeSite in r1.saved
    requires Reaches(spec, r2) && Reports(Aws(stack, NoChangeSet), spec.stackName, r2)
    ensures |first.versions| == |world.versions| + 1 > 1
    ensures Apply(ck, first, ReconcileAt(|world.versions| - 1, r2)).calls == world.calls + [ExecuteCall(world, spec)]
      + if !Latest(world).resource.status.state.InProgress? && IsRollBackComplete(stack.status)
           && !Deployed(spec, Canonical(stack.deployed.parameters), stack.deployed.template)
        then [CreateCall(spec, UPDATE, r2)] else []
    ensures !BoundedCalls(spec, world.calls + [ExecuteCall(world, spec), CreateCall(spec, UPDATE, r2)])
  {
    UnboundedAfterExecution(spec, world.calls, ExecuteCall(world, spec), r2);
    ExecutionVersions(ck, world, spec, aws, r1, first);
    hide Apply, Reports, Carries, Reaches, CreateCall, HasEnded, Deployed, ExecuteCall, BoundedCalls;
    RepeatedAfterExecution(ck, world, spec, aws, r1, first, stack, |world.versions| - 1, r2);
  }

  /** A proposal behind an execution is more than the bound allows. */
  lemma UnboundedAfterExecution(spec: StackSpec, calls: seq<Call>, execution: Call, r: Replies)
    requires execution.Execute?
    ensures !BoundedCalls(spec, calls + [execution, CreateCall(spec, UPDATE, r)])
  {
    hide Canonical, TagList, ChangeSetName;
    var all := calls + [execution, CreateCall(spec, UPDATE, r)];
    assert all[|calls|].Execute? && all[|calls| + 1].Create?;
  }
}
