/** Runs: any sequence of reconciles, fresh or stale, of user edits and of deletion requests. */
module Runs {
  import opened Text
  import opened Cloud
  import opened Defaults
  import opened References
  import opened Parameters
  import opened Validations
  import opened Controller
  import opened Safety
  import opened Preparation

  datatype Action =
    | ReconcileAt(read: nat, replies: Replies)
    | EditSpec(spec: Option<StackSpec>)
    | RequestDeletion

  function Latest(world: World): Version
    requires world.versions != []
  {
    world.versions[|world.versions| - 1]
  }

  function Store(world: World, resource: Resource): World
    requires world.versions != []
  {
    world.(versions := world.versions + [Version(resource, Latest(world).source)])
  }

  ghost predicate Enabled(world: World, action: Action) {
    match action
    case ReconcileAt(read, replies) => Readable(world, read, replies)
    case _ => world.versions != []
  }

  /** One step; an action that is not possible changes nothing. Users write the spec and the deletion mark only. */
  ghost function Apply(ck: Checksum, world: World, action: Action): World {
    if !Enabled(world, action) then world
    else
      match action
      case ReconcileAt(read, replies) => ReconcileFrom(ck, world, read, replies).memory.world
      case EditSpec(spec) => Store(world, Latest(world).resource.(spec := spec))
      case RequestDeletion => Store(world, Latest(world).resource.(deleting := true))
  }

  ghost function Run(ck: Checksum, world: World, actions: seq<Action>): World
    decreases |actions|
  {
    if actions == [] then world else Run(ck, Apply(ck, world, actions[0]), actions[1..])
  }

  /** A freshly created resource. */
  function Start(spec: Option<StackSpec>): World {
    World([Version(Resource(spec, BLANK_STATUS, false), Unreconciled)], [], multiset{}, multiset{})
  }

  /* What a stored version proves about its past */

  predicate Proposed(calls: seq<Call>, name: string, stackName: string, kind: ChangeSetKind) {
    exists c :: c in calls && c.Create? && c.accepted && c.name == name && c.stackName == stackName && c.kind == kind
  }

  predicate Executed(calls: seq<Call>, name: string, stackName: string) {
    exists c :: c in calls && c.Execute? && c.accepted && c.name == name && c.stackName == stackName
  }

  /** Success rests on a complete stack that reported the wanted template and parameters, or on a rolled back one. */
  ghost predicate SuccessEvidence(spec: StackSpec, read: State, r: Replies) {
    && OwnStack(spec.stackName, r) && IsComplete(OwnStatus(spec.stackName, r)) && r.template.TemplateBody?
    && (Deployed(PreparedSpec(spec, r), r.describe.list[0].parameters, r.template.body)
        || (IsRollBackComplete(OwnStatus(spec.stackName, r)) && read.InProgress?))
  }

  ghost predicate Provenance(calls: seq<Call>, spec: StackSpec, status: Status) {
    var name, stack := status.changeSetName, spec.stackName;
    && (status.state.UpdateInProgress? ==> Proposed(calls, name, stack, UPDATE))
    && (status.state.InProgress? ==> Proposed(calls, name, stack, CREATE) || Executed(calls, name, stack))
  }

  /** The status of a version is blank, or comes from a reconcile whose input justifies it. */
  ghost predicate Justified(ck: Checksum, calls: seq<Call>, v: Version) {
    match v.source
    case Unreconciled => v.resource.status == BLANK_STATUS
    case Reconciled(read, r) =>
      var status := v.resource.status;
      && status.checksum == ck(read.spec)
      && read.spec.Some?
      && (status.state.Success? ==> SuccessEvidence(read.spec.value, read.status.state, r))
      && (Serviceable(read.spec.value.role) ==> Provenance(calls, read.spec.value, status))
      && status.state in {Success, Failure, State.InProgress, State.UpdateInProgress}
  }

  ghost predicate Inv(ck: Checksum, world: World) {
    && world.versions != []
    && forall k :: 0 <= k < |world.versions| ==> Justified(ck, world.calls, world.versions[k])
  }

  lemma JustifiedLater(ck: Checksum, calls: seq<Call>, later: seq<Call>, v: Version)
    requires Justified(ck, calls, v) && calls <= later
    ensures Justified(ck, later, v)
  {
    assert forall c :: c in calls ==> c in later;
  }

  /** A dispatch with a service role that ends in progress has the accepted call that it names. */
  lemma DispatchProvenance(m: Memory, r: Replies)
    requires m.resource.spec.Some? && m.resource.spec.value.role.serviceRoleArn != ""
    requires StateMeant(m, r) in {Some(State.InProgress), Some(State.UpdateInProgress)}
    ensures var o := Dispatch(m, r).memory; Provenance(o.world.calls, m.resource.spec.value, o.resource.status)
  {
    StatusTable(m, r);
    CallTable(m, r);
    hide Dispatch, MeansExecute, MeansUpdate, MeansSuccess, MeansFailed, MeansComplete, Unclaimed, OwnStack;
    var added := CallsMeant(m, r);
    assert |added| == 1;
    assert (m.world.calls + added)[|m.world.calls|] == added[0];
    assert added[0] in Dispatch(m, r).memory.world.calls;
  }

  lemma DispatchSuccess(m: Memory, r: Replies)
    requires m.resource.spec.Some? && StateMeant(m, r) == Some(Success)
    ensures var spec := m.resource.spec.value;
      && OwnStack(spec.stackName, r) && IsComplete(OwnStatus(spec.stackName, r)) && r.template.TemplateBody?
      && (Deployed(spec, r.describe.list[0].parameters, r.template.body)
          || (IsRollBackComplete(OwnStatus(spec.stackName, r)) && m.resource.status.state.InProgress?))
  {
  }

  /** The version that the dispatch stores is justified by the replies. */
  lemma DispatchJustified(ck: Checksum, read: Resource, m: Memory, r: Replies)
    requires read.spec.Some? && m.resource.spec == Some(PreparedSpec(read.spec.value, r))
    requires m.source == Reconciled(read, r) && m.resource.status.checksum == ck(read.spec)
    requires m.resource.status.state in {read.status.state, Failure}
    requires Serviceable(read.spec.value.role) ==> m.resource.spec.value.role.serviceRoleArn != ""
    ensures var o := Dispatch(m, r).memory; var n := |m.world.versions|;
      && m.world.versions <= o.world.versions && |o.world.versions| <= n + 1
      && (|o.world.versions| == n + 1 ==> Justified(ck, o.world.calls, o.world.versions[n]))
  {
    hide Dispatch, StateMeant, Deployed, Filled, FinalParameters, Serviceable, RenamesChangeSet;
    StatusTable(m, r);
    StatesMeant(m, r);
    if StateMeant(m, r) == Some(Success) {
      DispatchSuccess(m, r);
    } else if StateMeant(m, r) in {Some(State.InProgress), Some(State.UpdateInProgress)}
      && Serviceable(read.spec.value.role) {
      DispatchProvenance(m, r);
    }
  }

  lemma StatesMeant(m: Memory, r: Replies)
    requires m.resource.spec.Some?
    ensures StateMeant(m, r).None?
      || StateMeant(m, r).value in {Success, Failure, State.InProgress, State.UpdateInProgress}
  {
  }

  /** What every version stored by one reconcile has in common with the version it read. */
  ghost predicate StoredFrom(ck: Checksum, read: Resource, source: Source, v: Version) {
    && v.source == source && v.resource.status.checksum == ck(read.spec) && v.resource.deleting == read.deleting
    && read.spec.Some? && v.resource.spec.Some? && SpecKept(read.spec.value, v.resource.spec.value)
  }

  /** The memory that enters the preparation. */
  ghost function Opened(ck: Checksum, m: Memory): Memory {
    Gate(ck, m).memory
  }

  /** One reconcile adds versions behind the stored ones and calls behind the made ones; its own versions are
      justified by what it read. */
  lemma WorkStores(ck: Checksum, m: Memory, r: Replies)
    requires Fits(r, m.resource) && m.source == Reconciled(m.resource, r)
    ensures var o := Work(ck, m, r).memory;
      && m.world.versions <= o.world.versions && m.world.calls <= o.world.calls
      && forall k :: |m.world.versions| <= k < |o.world.versions| ==>
           && StoredFrom(ck, m.resource, m.source, o.world.versions[k])
           && Justified(ck, o.world.calls, o.world.versions[k])
  {
    if Gated(ck, m.resource) || m.resource.spec.None? { return; }
    var a := Opened(ck, m);
    PreparingKeeps(a, r);
    PreparationStoresFailures(a, r);
    var b := Prepare(a, r).memory;
    PreparedJustified(ck, m, a, b, r);
    if Prepare(a, r).stop.None? {
      PreparationClosedForm(a, r);
      ServiceRoleIff(m.resource.spec.value.role);
      assert Work(ck, m, r) == Dispatch(b, r);
      hide Dispatch, Prepare, Justified, SpecKept, Prepares, PreparedSpec, FillingPanics, Work, Serviceable, Filled;
      DispatchStores(ck, m, b, r);
    } else {
      assert Work(ck, m, r).memory == b;
      hide Dispatch, Prepare, Justified, SpecKept, Prepares, PreparedSpec, Work;
    }
  }

  /** A dispatch stores at most the resource it ends with, and only appends calls. */
  lemma DispatchShape(b: Memory, r: Replies)
    requires b.resource.spec.Some?
    ensures var o := Dispatch(b, r).memory;
      && b.world.calls <= o.world.calls && Untouched(b, o)
      && (|| o.world.versions == b.world.versions
          || o.world.versions == b.world.versions + [Version(o.resource, o.source)])
  {
    hide Dispatch, StateMeant, CallsMeant, RenamesChangeSet;
    StatusTable(b, r);
    CallTable(b, r);
  }

  /** The dispatch adds at most one version to those of the preparation. */
  lemma DispatchStores(ck: Checksum, m: Memory, b: Memory, r: Replies)
    requires m.resource.spec.Some? && m.source == b.source == Reconciled(m.resource, r)
    requires b.resource.spec == Some(PreparedSpec(m.resource.spec.value, r))
    requires b.resource.status.checksum == ck(m.resource.spec) && b.resource.deleting == m.resource.deleting
    requires b.resource.status.state in {m.resource.status.state, Failure}
    requires SpecKept(m.resource.spec.value, b.resource.spec.value)
    requires Serviceable(m.resource.spec.value.role) ==> b.resource.spec.value.role.serviceRoleArn != ""
    requires m.world.versions <= b.world.versions && m.world.calls == b.world.calls
    requires forall k :: |m.world.versions| <= k < |b.world.versions| ==>
      StoredFrom(ck, m.resource, m.source, b.world.versions[k]) && Justified(ck, b.world.calls, b.world.versions[k])
    ensures var o := Dispatch(b, r).memory;
      && m.world.versions <= o.world.versions && m.world.calls <= o.world.calls
      && forall k :: |m.world.versions| <= k < |o.world.versions| ==>
           && StoredFrom(ck, m.resource, m.source, o.world.versions[k])
           && Justified(ck, o.world.calls, o.world.versions[k])
  {
    hide Dispatch, Justified, SpecKept, PreparedSpec, Serviceable;
    var o := Dispatch(b, r).memory;
    DispatchJustified(ck, m.resource, b, r);
    DispatchShape(b, r);
    var n := |b.world.versions|;
    forall k | |m.world.versions| <= k < |o.world.versions|
      ensures StoredFrom(ck, m.resource, m.source, o.world.versions[k])
      ensures Justified(ck, o.world.calls, o.world.versions[k])
    {
      if k < n {
        assert o.world.versions[k] == b.world.versions[k];
        JustifiedLater(ck, b.world.calls, o.world.calls, b.world.versions[k]);
      }
    }
  }

  lemma PreparedJustified(ck: Checksum, m: Memory, a: Memory, b: Memory, r: Replies)
    requires m.resource.spec.Some? && m.source == Reconciled(m.resource, r)
    requires a == Opened(ck, m) && !Gated(ck, m.resource)
    requires Prepares(a, b)
    ensures m.world.versions <= b.world.versions
    ensures SpecKept(m.resource.spec.value, b.resource.spec.value)
    ensures forall k :: |m.world.versions| <= k < |b.world.versions| ==>
      StoredFrom(ck, m.resource, m.source, b.world.versions[k]) && Justified(ck, b.world.calls, b.world.versions[k])
  {
    hide SpecKept, Serviceable, Fixed;
    forall k | |m.world.versions| <= k < |b.world.versions|
      ensures StoredFrom(ck, m.resource, m.source, b.world.versions[k])
      ensures Justified(ck, b.world.calls, b.world.versions[k])
    {
      assert StoredBy(a, b.world.versions[k]);
    }
  }

  lemma ApplyKeeps(ck: Checksum, world: World, action: Action)
    requires Inv(ck, world)
    ensures Inv(ck, Apply(ck, world, action))
    ensures world.versions <= Apply(ck, world, action).versions && world.calls <= Apply(ck, world, action).calls
  {
    var next := Apply(ck, world, action);
    if Enabled(world, action) && action.ReconcileAt? && action.replies.get.Found? {
      var m, r := StartOf(world, action.read, action.replies), Writable(world, action.read, action.replies);
      assert next == Work(ck, m, r).memory.world;
      WorkStores(ck, m, r);
      hide Work, Justified, StoredFrom;
      forall k | 0 <= k < |next.versions| ensures Justified(ck, next.calls, next.versions[k]) {
        if k < |world.versions| {
          assert next.versions[k] == world.versions[k];
          JustifiedLater(ck, world.calls, next.calls, world.versions[k]);
        }
      }
    }
  }

  /** Every version of every run is justified: blank, or by the input of the reconcile that wrote its status. */
  lemma {:induction false} RunJustified(ck: Checksum, world: World, actions: seq<Action>)
    requires Inv(ck, world)
    ensures Inv(ck, Run(ck, world, actions))
    decreases |actions|
  {
    if actions != [] {
      ApplyKeeps(ck, world, actions[0]);
      RunJustified(ck, Apply(ck, world, actions[0]), actions[1..]);
    }
  }

  /* Readings of the invariant */

  predicate ServiceableSpec(spec: Option<StackSpec>) {
    spec.Some? ==> Serviceable(spec.value.role)
  }

  predicate ServiceableVersion(v: Version) {
    ServiceableSpec(v.resource.spec) && (v.source.Reconciled? ==> ServiceableSpec(v.source.read.spec))
  }

  ghost predicate ServiceableWorld(world: World) {
    forall k :: 0 <= k < |world.versions| ==> ServiceableVersion(world.versions[k])
  }

  predicate ServiceableEdit(action: Action) {
    action.EditSpec? ==> ServiceableSpec(action.spec)
  }

  lemma ApplyServiceable(ck: Checksum, world: World, action: Action)
    requires ServiceableWorld(world) && ServiceableEdit(action)
    ensures ServiceableWorld(Apply(ck, world, action))
  {
    var next := Apply(ck, world, action);
    if Enabled(world, action) && action.ReconcileAt? && action.replies.get.Found? {
      var m, r := StartOf(world, action.read, action.replies), Writable(world, action.read, action.replies);
      assert next == Work(ck, m, r).memory.world;
      WorkStores(ck, m, r);
      hide Work, Justified, Serviceable, Fixed;
      forall k | 0 <= k < |next.versions| ensures ServiceableVersion(next.versions[k]) {
        if k < |world.versions| {
          assert next.versions[k] == world.versions[k];
        } else {
          assert StoredFrom(ck, m.resource, m.source, next.versions[k]);
        }
      }
    }
  }

  lemma {:induction false} RunServiceable(ck: Checksum, world: World, actions: seq<Action>)
    requires ServiceableWorld(world) && forall a :: a in actions ==> ServiceableEdit(a)
    ensures ServiceableWorld(Run(ck, world, actions))
    decreases |actions|
  {
    if actions != [] {
      ApplyServiceable(ck, world, actions[0]);
      RunServiceable(ck, Apply(ck, world, actions[0]), actions[1..]);
    }
  }

  lemma StartJustified(ck: Checksum, spec: Option<StackSpec>)
    ensures Inv(ck, Start(spec))
  {
  }

  predicate IsUnderway(v: Version) {
    v.resource.status.state in {State.InProgress, State.UpdateInProgress}
  }

  /** Change-set provenance. While users submit serviceable specs, a stored "Update InProgress" names a change set
      whose UPDATE was accepted, and a stored "InProgress" one whose CREATE or whose execution was accepted, for the
      stack of the spec that was read, in every run with stale reads, refused calls and lost writes. */
  lemma RunProvenance(ck: Checksum, spec: Option<StackSpec>, actions: seq<Action>)
    requires ServiceableSpec(spec) && forall a :: a in actions ==> ServiceableEdit(a)
    ensures var world := Run(ck, Start(spec), actions);
      forall k :: 0 <= k < |world.versions| && IsUnderway(world.versions[k]) ==>
        var v := world.versions[k];
        && v.source.Reconciled? && v.source.read.spec.Some?
        && Provenance(world.calls, v.source.read.spec.value, v.resource.status)
  {
    StartJustified(ck, spec);
    RunJustified(ck, Start(spec), actions);
    RunServiceable(ck, Start(spec), actions);
    var world := Run(ck, Start(spec), actions);
    hide Run, Serviceable, Provenance, SuccessEvidence;
    forall k | 0 <= k < |world.versions| && IsUnderway(world.versions[k])
      ensures var v := world.versions[k];
        && v.source.Reconciled? && v.source.read.spec.Some?
        && Provenance(world.calls, v.source.read.spec.value, v.resource.status)
    {
      assert Justified(ck, world.calls, world.versions[k]) && ServiceableVersion(world.versions[k]);
    }
  }

  /** Checksum history and soundness of Success, in every run: a stored checksum is that of the spec which the
      reconcile that wrote the status had read; a skipped version therefore has a spec with the same checksum as that
      one; and every stored Success has its evidence in the replies of that reconcile. */
  lemma RunHistory(ck: Checksum, spec: Option<StackSpec>, actions: seq<Action>, k: nat)
    requires k < |Run(ck, Start(spec), actions).versions|
    ensures var v := Run(ck, Start(spec), actions).versions[k];
      && (v.source.Reconciled? ==> v.resource.status.checksum == ck(v.source.read.spec))
      && (Gated(ck, v.resource) ==> v.source.Reconciled? && ck(v.resource.spec) == ck(v.source.read.spec))
      && (v.resource.status.state.Success? ==>
            v.source.Reconciled? && v.source.read.spec.Some?
            && SuccessEvidence(v.source.read.spec.value, v.source.read.status.state, v.source.replies))
  {
    StartJustified(ck, spec);
    RunJustified(ck, Start(spec), actions);
    assert Justified(ck, Run(ck, Start(spec), actions).calls, Run(ck, Start(spec), actions).versions[k]);
    hide Run, SuccessEvidence, Provenance;
  }

  /** A prepared reconcile reports progress without having asked CloudFormation exactly when it wants a change set and
      has no service role. */
  lemma SilentProposal(m: Memory, r: Replies)
    requires m.resource.spec.Some?
    ensures StateMeant(m, r) in {Some(State.InProgress), Some(State.UpdateInProgress)} && CallsMeant(m, r) == []
      <==> RenamesChangeSet(m, r) && m.resource.spec.value.role.serviceRoleArn == ""
  {
    ClassificationMeaning(NameOf(m), m.resource.status.state, r);
  }

  /** The case exists: an account of blanks next to a role ARN, and no stack. The first reconcile stores "InProgress"
      and its change-set name without any call. */
  lemma SilentRun(ck: Checksum, spec: StackSpec, r: Replies)
    requires spec.role.roleArn != "" && spec.role.serviceRoleArn == ""
    requires spec.role.accountId != "" && TrimSpace(spec.role.accountId) == ""
    requires spec.region != "" && spec.parameters == map[] && spec.tags == map[]
    requires r.get.Found? && r.session.SessionObtained? && r.order == [] && r.tagOrder == []
    requires r.describe == DescribeFailed(true) && r.saved == {ServiceRoleSite, OutcomeSite}
    ensures var world := Apply(ck, Start(Some(spec)), ReconcileAt(0, r));
      && world.versions != []
      && Latest(world).resource.status.state == State.InProgress
      && Latest(world).resource.status.changeSetName == ChangeSetName(spec, r.uuid)
      && world.calls == []
  {
    hide Dispatch, Prepare, StateMeant, CallsMeant, TrimSpace;
    var m := StartOf(Start(Some(spec)), 0, r);
    var a := Gate(ck, m).memory;
    SilentPreparation(a, r);
    var b := Prepare(a, r).memory;
    SilentWork(ck, spec, m, b, r);
    SilentDispatch(b, r);
  }

  lemma SilentWork(ck: Checksum, spec: StackSpec, m: Memory, b: Memory, r: Replies)
    requires r.get.Found? && r.order == [] && r.tagOrder == [] && spec.parameters == map[] && spec.tags == map[]
    requires m == StartOf(Start(Some(spec)), 0, r)
    requires Prepare(Gate(ck, m).memory, r) == Stage(b, None) && b.resource.spec.Some?
    ensures Apply(ck, Start(Some(spec)), ReconcileAt(0, r)) == Dispatch(b, r).memory.world
  {
    hide Dispatch, Prepare;
    assert Work(ck, m, r) == Dispatch(b, r);
  }

  lemma SilentDispatch(b: Memory, r: Replies)
    requires b.resource.spec.Some? && b.resource.spec.value.role.serviceRoleArn == ""
    requires r.describe == DescribeFailed(true) && OutcomeSite in r.saved
    ensures var o := Dispatch(b, r).memory;
      && o.world.calls == b.world.calls && o.world.versions == b.world.versions + [Version(o.resource, o.source)]
      && o.resource.status.state == State.InProgress
      && o.resource.status.changeSetName == ChangeSetName(b.resource.spec.value, r.uuid)
  {
    assert !MeansExecute(NameOf(b), b.resource.status.state, r) && !MeansUpdate(b, r) && Unclaimed(NameOf(b), r);
    assert StateMeant(b, r) == Some(State.InProgress) && CallsMeant(b, r) == [] && RenamesChangeSet(b, r);
    hide Dispatch, StateMeant, CallsMeant, RenamesChangeSet;
    StatusTable(b, r);
    CallTable(b, r);
  }

  lemma SilentPreparation(a: Memory, r: Replies)
    requires a.resource.spec.Some?
    requires var spec := a.resource.spec.value;
      && spec.role.roleArn != "" && spec.role.serviceRoleArn == ""
      && spec.role.accountId != "" && TrimSpace(spec.role.accountId) == ""
      && spec.region != "" && spec.parameters == map[]
    requires r.session.SessionObtained? && r.order == [] && ServiceRoleSite in r.saved
    ensures var s := Prepare(a, r);
      && s.stop.None? && s.memory.world.calls == a.world.calls
      && s.memory.resource.spec.value.role.serviceRoleArn == ""
      && s.memory.resource.spec.value.stackName == a.resource.spec.value.stackName
  {
  }
}
