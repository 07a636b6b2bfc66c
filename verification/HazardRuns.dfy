/** Runs that meet the hazards, for every settled spec, from a newly created resource. */
module HazardRuns {
  import opened Text
  import opened Cloud
  import opened Defaults
  import opened References
  import opened Parameters
  import opened Validations
  import opened Controller
  import opened Safety
  import opened Preparation
  import opened Runs
  import opened Convergence
  import opened BoundedWork
  import opened Hazards

  const SERVICE_ROLE := "arn:aws:iam::1:role/service"
  const EXAMPLE := StackSpec(map[], map[], "{}", "app",
    RoleProvider("arn:aws:iam::1:role/master", "", SERVICE_ROLE, "external", "1", "dev", ""), 0, "us-west-2")

  lemma ExampleIsSettled()
    ensures Settled(EXAMPLE)
  {
    var p := EXAMPLE.role;
    assert WithRoleArn(p) == WithAccountId(p) == WithServiceRoleArn(p) == WithExternalId(p) == p;
  }

  /** The writes that succeed in a pass whose write may be lost. */
  function Sites(lost: bool): set<Site> {
    if lost then {} else ALL_SITES
  }

  const REVIEWED := AwsStack(StackStatus.ReviewInProgress, Content("", map[]), Content("", map[]))

  /** A new resource whose first write is lost: CREATE is accepted, its change set becomes ready, and the second pass,
      which finds no name, closes the gate with Failure. The CREATE stays the only call for ever. */
  lemma CreateStaysUnexecuted(ck: Checksum, spec: StackSpec) returns (r1: Replies, r2: Replies)
    requires Settled(spec)
    ensures var start := Start(Some(spec)); var first := Pass(ck, start, r1);
      && CreatesAndFindsReady(ck, start, spec, r1, first, r2)
      && first.versions == start.versions
      && var second := Pass(ck, first, r2);
      && second.versions != [] && second.calls == [CreateCall(spec, CREATE, r1)]
      && Latest(second).resource.status.state == Failure && Gated(ck, Latest(second).resource)
      && forall r :: Pass(ck, second, r) == second
  {
    var start := Start(Some(spec));
    r1 := ReportingReply(spec, Aws(NoStack, NoChangeSet), "1", {});
    r2 := ReportingReply(spec, Aws(REVIEWED, ChangeSet(ChangeSetName(spec, "1"), Ready, Wanted(spec))), "2", ALL_SITES);
    var first := Pass(ck, start, r1);
    assert CreatesAndFindsReady(ck, start, spec, r1, first, r2) by {
      hide Fixed, Fillable, Pass;
    }
    UnstoredReconcile(ck, start, 0, spec, r1);
    hide Pass, Settled, CreateCall, CreatesAndFindsReady, Reports, Gated;
    LostCreateMisleads(ck, start, spec, r1, first, r2);
    var second := Pass(ck, first, r2);
    LostCreateEnds(ck, start, spec, r1, first, r2, second, []);
    forall r ensures Pass(ck, second, r) == second { GatedPass(ck, second, r); }
  }

  /* A complete stack with another template */

  function Other(spec: StackSpec): Content {
    Content(spec.template + "x", map[])
  }

  function Outdated(spec: StackSpec): AwsStack {
    AwsStack(CreateComplete, Other(spec), Other(spec))
  }

  /** The same stack after an update that was rolled back. */
  function RolledBack(spec: StackSpec): AwsStack {
    AwsStack(UpdateRollbackComplete, Other(spec), Wanted(spec))
  }

  function Head(spec: StackSpec, status: ChangeSetStatus): ChangeSet {
    ChangeSet(ChangeSetName(spec, "1"), status, Wanted(spec))
  }

  lemma OutdatedIsProposed(ck: Checksum, spec: StackSpec, lost: bool) returns (r: Replies)
    requires Settled(spec)
    ensures Updates(ck, Start(Some(spec)), spec, Aws(Outdated(spec), NoChangeSet), r, Pass(ck, Start(Some(spec)), r))
    ensures r.saved == Sites(lost) && r.uuid == "1"
  {
    r := ReportingReply(spec, Aws(Outdated(spec), NoChangeSet), "1", Sites(lost));
    hide Settled, Pass, Canonical, Agrees;
  }

  /** Two UPDATE proposals for one spec: the second reconcile reads version 0 once more, as the latest one because the
      write behind the proposal was lost, or as a stale one although it succeeded. */
  lemma ProposalComesTwice(ck: Checksum, spec: StackSpec, lost: bool) returns (r1: Replies, r2: Replies)
    requires Settled(spec)
    ensures r1.saved == Sites(lost)
    ensures var start := Start(Some(spec)); var first := Pass(ck, start, r1);
      && Updates(ck, start, spec, Aws(Outdated(spec), NoChangeSet), r1, first)
      && |first.versions| == (if lost then 1 else 2)
      && var calls := Apply(ck, first, ReconcileAt(0, r2)).calls;
      && calls == [CreateCall(spec, UPDATE, r1), CreateCall(spec, UPDATE, r2)] && !BoundedCalls(spec, calls)
  {
    var start := Start(Some(spec));
    r1 := OutdatedIsProposed(ck, spec, lost);
    r2 := ReportingReply(spec, Aws(Outdated(spec), Head(spec, Pending)), "2", ALL_SITES);
    hide Settled, Pass, Apply, Updates, CreateCall, Reports, BoundedCalls;
    var first := Pass(ck, start, r1);
    UpdateVersions(ck, start, spec, Aws(Outdated(spec), NoChangeSet), r1, first);
    RepeatedProposal(ck, start, spec, Aws(Outdated(spec), NoChangeSet), r1, first, Head(spec, Pending), 0, r2);
    TwoProposals(spec, [], r1, r2);
  }

  /** An UPDATE proposal, its execution, and after the rollback another proposal: the third reconcile reads version 1,
      as the latest one because the write behind the execution was lost, or as a stale one although it succeeded. */
  lemma ProposalAfterRollback(ck: Checksum, spec: StackSpec, lost: bool)
    returns (r1: Replies, first: World, r2: Replies, second: World, r3: Replies)
    requires Settled(spec)
    ensures r1.saved == ALL_SITES && r2.saved == Sites(lost)
    ensures first == Pass(ck, Start(Some(spec)), r1) && |first.versions| == 2
    ensures second == Pass(ck, first, r2) && |second.versions| == if lost then 2 else 3
    ensures Carries(ck, first, spec, Aws(Outdated(spec), Head(spec, Ready)), r2, second)
    ensures var calls := Apply(ck, second, ReconcileAt(1, r3)).calls;
      && calls == [CreateCall(spec, UPDATE, r1), Execute(spec.stackName, ChangeSetName(spec, "1"), true),
                   CreateCall(spec, UPDATE, r3)]
      && !BoundedCalls(spec, calls)
  {
    hide Settled, Pass, Apply, Updates, Carries, CreateCall, Reports, BoundedCalls, ChangeSetName, HasEnded, AfterEnd,
      Reaches, Outdated, RolledBack, Head;
    r1 := OutdatedIsProposed(ck, spec, false);
    first := Pass(ck, Start(Some(spec)), r1);
    UpdateVersions(ck, Start(Some(spec)), spec, Aws(Outdated(spec), NoChangeSet), r1, first);
    r2 := ReadyIsExecuted(ck, spec, first, lost);
    second := Pass(ck, first, r2);
    ghost var updating := Aws(Outdated(spec), Head(spec, Ready));
    ExecutionVersions(ck, first, spec, updating, r2, second);
    r3 := RollbackIsReported(spec);
    RepeatedAfterExecution(ck, first, spec, updating, r2, second, RolledBack(spec), 1, r3);
    var execution, again := ExecuteCall(first, spec), CreateCall(spec, UPDATE, r3);
    assert first.calls + [execution, again] == first.calls + [execution] + [again];
    UnboundedAfterExecution(spec, first.calls, execution, r3);
  }

  lemma ReadyIsExecuted(ck: Checksum, spec: StackSpec, first: World, lost: bool) returns (r: Replies)
    requires Settled(spec) && first.versions != [] && Latest(first).resource.spec == Some(spec)
    requires Latest(first).resource.status.state == State.UpdateInProgress
    requires Latest(first).resource.status.changeSetName == ChangeSetName(spec, "1")
    ensures Carries(ck, first, spec, Aws(Outdated(spec), Head(spec, Ready)), r, Pass(ck, first, r))
    ensures r.saved == Sites(lost)
  {
    r := ReportingReply(spec, Aws(Outdated(spec), Head(spec, Ready)), "2", Sites(lost));
    hide Settled, Pass, Reports;
  }

  lemma RollbackIsReported(spec: StackSpec) returns (r: Replies)
    ensures Reaches(spec, r) && Reports(Aws(RolledBack(spec), NoChangeSet), spec.stackName, r)
    ensures RolledBack(spec).AwsStack? && HasEnded(spec, RolledBack(spec))
    ensures AfterEnd(spec, RolledBack(spec), State.UpdateInProgress, r) == [CreateCall(spec, UPDATE, r)]
  {
    r := ReportingReply(spec, Aws(RolledBack(spec), NoChangeSet), "3", ALL_SITES);
    hide Reports, Canonical, Agrees, CreateCall;
  }

  /* A complete stack that differs in one parameter value */

  function Edited(spec: StackSpec, key: string, value: string): AwsStack {
    var content := Content(spec.template, spec.parameters[key := value]);
    AwsStack(UpdateComplete, content, content)
  }

  /** A new resource finds its template deployed with another value under one key: its first pass asks for an UPDATE. */
  lemma ParameterEditIsRolledOut(ck: Checksum, spec: StackSpec, key: string, value: string) returns (r: Replies)
    requires Settled(spec) && key in spec.parameters && value != spec.parameters[key]
    ensures r.describe == Stacks([StackInfo(spec.stackName, UpdateComplete,
                                            Canonical(spec.parameters[key := value]), [])])
    ensures r.template == TemplateBody(spec.template)
    ensures var first := Pass(ck, Start(Some(spec)), r);
      && first.calls == [CreateCall(spec, UPDATE, r)] && |first.versions| == 2
      && Latest(first).resource.status.state == State.UpdateInProgress
  {
    r := ReportingReply(spec, Aws(Edited(spec, key, value), NoChangeSet), "1", ALL_SITES);
    EditedIsProposed(ck, spec, key, value, r);
    hide Settled, Pass, Reports, CreateCall, Canonical, Updates, Edited;
    UpdateVersions(ck, Start(Some(spec)), spec, Aws(Edited(spec, key, value), NoChangeSet), r,
                   Pass(ck, Start(Some(spec)), r));
  }

  lemma EditedIsProposed(ck: Checksum, spec: StackSpec, key: string, value: string, r: Replies)
    requires Settled(spec) && key in spec.parameters && value != spec.parameters[key]
    requires var aws := Aws(Edited(spec, key, value), NoChangeSet);
      Reports(aws, spec.stackName, r) && Reaches(spec, r) && r.createAccepted
    ensures Updates(ck, Start(Some(spec)), spec, Aws(Edited(spec, key, value), NoChangeSet), r,
                    Pass(ck, Start(Some(spec)), r))
  {
    hide Agrees, Canonical, Settled, Reports, Pass, Reaches, Proposes;
    EditedPasses(ck, spec, key, value);
  }

  lemma EditedPasses(ck: Checksum, spec: StackSpec, key: string, value: string)
    requires key in spec.parameters && value != spec.parameters[key]
    ensures Proposes(ck, Latest(Start(Some(spec))).resource, Aws(Edited(spec, key, value), NoChangeSet))
    ensures !Gated(ck, Latest(Start(Some(spec))).resource)
  {
    EditedDiffers(spec, key, value);
    hide Agrees, Canonical;
  }

  lemma EditedDiffers(spec: StackSpec, key: string, value: string)
    requires key in spec.parameters && value != spec.parameters[key]
    ensures !Agrees(Canonical(spec.parameters[key := value]), spec.parameters)
  {
    var edited := spec.parameters[key := value];
    assert Pair(key, value) in Canonical(edited);
  }
}
