/** One reconcile as a function from memory to memory: the specification of the class in Reconcilers.dfy. */
module Controller {
  import opened Text
  import opened Cloud
  import opened Defaults
  import opened References
  import opened Parameters
  import opened Validations

  /** The label values of a Prometheus counter. */
  datatype Label = Label(account: string, stackName: string)

  datatype ChangeSetKind = CREATE | UPDATE

  /** A mutating CloudFormation call and whether it was accepted. */
  datatype Call =
    | Create(name: string, stackName: string, template: string, parameters: seq<Pair>, tags: seq<Pair>,
             roleArn: string, kind: ChangeSetKind, accepted: bool)
    | Execute(stackName: string, name: string, accepted: bool)

  /** Who wrote the status of a stored version: nobody yet, or the reconcile with this input. */
  datatype Source = Unreconciled | Reconciled(read: Resource, replies: Replies)

  datatype Version = Version(resource: Resource, source: Source)

  /** All stored versions of the resource, all mutating calls, and the counters by label. */
  datatype World = World(
    versions: seq<Version>,
    calls: seq<Call>,
    failed: multiset<Label>,
    succeeded: multiset<Label>)

  /** A reconcile at work: the resource in memory and the world around it. */
  datatype Memory = Memory(resource: Resource, source: Source, world: World)

  /** How a reconcile ends. Recovered is a panic that the deferred function swallows, Crashed one that it repeats. */
  datatype End = Ended | Requeued | Errored | Recovered | Crashed

  /** The memory after a stage, and the end of the reconcile if the stage was its last. */
  datatype Stage = Stage(memory: Memory, stop: Option<End>)

  function WithSpec(m: Memory, spec: StackSpec): Memory {
    m.(resource := m.resource.(spec := Some(spec)))
  }

  function WithRole(m: Memory, role: RoleProvider): Memory
    requires m.resource.spec.Some?
  {
    WithSpec(m, m.resource.spec.value.(role := role))
  }

  function WithState(m: Memory, state: State, message: Message): Memory {
    m.(resource := m.resource.(status := m.resource.status.(state := state, message := message)))
  }

  function WithChangeSetName(m: Memory, name: string): Memory {
    m.(resource := m.resource.(status := m.resource.status.(changeSetName := name)))
  }

  function WithCall(m: Memory, call: Call): Memory {
    m.(world := m.world.(calls := m.world.calls + [call]))
  }

  function LabelOf(m: Memory): Label
    requires m.resource.spec.Some?
  {
    Label(m.resource.spec.value.role.accountId, m.resource.spec.value.stackName)
  }

  function CountFailed(m: Memory): Memory
    requires m.resource.spec.Some?
  {
    m.(world := m.world.(failed := m.world.failed + multiset{LabelOf(m)}))
  }

  function CountSucceeded(m: Memory): Memory
    requires m.resource.spec.Some?
  {
    m.(world := m.world.(succeeded := m.world.succeeded + multiset{LabelOf(m)}))
  }

  /** Update: writes the whole resource, spec and status; a failed write leaves the store alone. */
  function Save(m: Memory, saved: bool): Memory {
    if saved then m.(world := m.world.(versions := m.world.versions + [Version(m.resource, m.source)])) else m
  }

  /** Sets the status, writes back, and ends: with the given end, or with the error of the write. */
  function Finish(m: Memory, state: State, message: Message, saved: bool, end: End): Stage {
    Stage(Save(WithState(m, state, message), saved), Some(if saved then end else Errored))
  }

  /* The checksum gate */

  predicate Gated(ck: Checksum, resource: Resource) {
    resource.status.checksum == ck(resource.spec) && IsTerminal(resource.status.state) && !resource.deleting
  }

  /** ValidateORUpdateCheckSum */
  function Gate(ck: Checksum, m: Memory): Stage {
    if Gated(ck, m.resource) then Stage(m, Some(Ended))
    else
      Stage(m.(resource := m.resource.(status := m.resource.status.(checksum := ck(m.resource.spec)))), None)
  }

  /** What filling, the session and the references leave alone. */
  ghost predicate Keeps(m: Memory, m': Memory) {
    && m.resource.spec.Some? && m'.resource.spec.Some?
    && (var s, s' := m.resource.spec.value, m'.resource.spec.value;
        && s'.parameters.Keys == s.parameters.Keys
        && (s'.tags, s'.template, s'.stackName, s'.timeout) == (s.tags, s.template, s.stackName, s.timeout))
    && m'.resource.deleting == m.resource.deleting
    && m'.resource.status.checksum == m.resource.status.checksum
    && m'.resource.status.changeSetName == m.resource.status.changeSetName
    && m'.source == m.source
    && (m'.world.calls, m'.world.failed, m'.world.succeeded) == (m.world.calls, m.world.failed, m.world.succeeded)
  }

  ghost predicate SameParameters(m: Memory, m': Memory) {
    m.resource.spec.Some? && m'.resource.spec.Some?
      && m'.resource.spec.value.parameters == m.resource.spec.value.parameters
  }

  /* SetAssumeRoleProvider */

  /** A failed filling step stores Failure. A failed write ends the reconcile quietly; otherwise filling goes on. */
  function FillingFails(m: Memory, message: Message, saved: bool): Stage {
    Stage(Save(WithState(m, Failure, message), saved), if saved then None else Some(Ended))
  }

  function FillRegion(m: Memory, region: Option<string>): (s: Stage)
    requires m.resource.spec.Some?
    ensures Keeps(m, s.memory) && SameParameters(m, s.memory)
  {
    if m.resource.spec.value.region != "" then Stage(m, None)
    else if region == None then Stage(m, Some(Ended))
    else Stage(WithSpec(m, m.resource.spec.value.(region := region.value)), None)
  }

  function FillRoleArn(m: Memory, saved: bool): (s: Stage)
    requires m.resource.spec.Some?
    ensures Keeps(m, s.memory) && SameParameters(m, s.memory)
  {
    var p := m.resource.spec.value.role;
    if p.roleArn == "" && RoleArn(p.accountId) == None then FillingFails(m, RoleArnMissing, saved)
    else Stage(WithRole(m, WithRoleArn(p)), None)
  }

  function FillAccountId(m: Memory, saved: bool): (s: Stage)
    requires m.resource.spec.Some?
    ensures Keeps(m, s.memory) && SameParameters(m, s.memory)
  {
    var p := m.resource.spec.value.role;
    if p.accountId != "" then Stage(m, None)
    else
      match AccountIdFromRoleArn(p.roleArn)
      case NoSeparator => Stage(m, Some(Recovered))
      case RoleBlank => FillingFails(m, AccountIdMissing, saved)
      case Account(_) => Stage(WithRole(m, WithAccountId(p)), None)
  }

  function FillServiceRoleArn(m: Memory, saved: bool): (s: Stage)
    requires m.resource.spec.Some?
    ensures Keeps(m, s.memory) && SameParameters(m, s.memory)
  {
    var p := m.resource.spec.value.role;
    if p.serviceRoleArn == "" && ServiceRoleArn(p.accountId) == None then
      FillingFails(m, ServiceRoleArnMissing, saved)
    else Stage(WithRole(m, WithServiceRoleArn(p)), None)
  }

  function FillExternalId(m: Memory): (s: Stage)
    requires m.resource.spec.Some?
    ensures Keeps(m, s.memory) && SameParameters(m, s.memory)
  {
    Stage(WithRole(m, WithExternalId(m.resource.spec.value.role)), None)
  }

  function SetAssumeRoleProvider(m: Memory, r: Replies): (s: Stage)
    requires m.resource.spec.Some?
    ensures Keeps(m, s.memory) && SameParameters(m, s.memory)
  {
    var a := FillRegion(m, r.region);
    if a.stop.Some? then a else
    var b := FillRoleArn(a.memory, RoleSite in r.saved);
    if b.stop.Some? then b else FillFromAccount(b.memory, r)
  }

  /** The filling steps behind the role ARN. */
  function FillFromAccount(m: Memory, r: Replies): (s: Stage)
    requires m.resource.spec.Some?
    ensures Keeps(m, s.memory) && SameParameters(m, s.memory)
  {
    var c := FillAccountId(m, AccountSite in r.saved);
    if c.stop.Some? then c else
    var d := FillServiceRoleArn(c.memory, ServiceRoleSite in r.saved);
    if d.stop.Some? then d else
    FillExternalId(d.memory)
  }

  /** GetTargetAccountSession: a missing role ARN is an error, whatever STS would have said. */
  function Session(m: Memory, r: Replies): Stage
    requires m.resource.spec.Some?
  {
    if r.session.SessionPanics? then Stage(m, Some(Recovered))
    else if r.session.SessionDenied? || m.resource.spec.value.role.roleArn == "" then Stage(m, Some(Ended))
    else Stage(m, None)
  }

  /** The reference part of Reconcile. A lookup error stores Failure, and the reconcile goes on all the same. */
  function ResolveParameters(m: Memory, r: Replies): (s: Stage)
    requires m.resource.spec.Some?
    requires forall k :: k in r.order ==> k in m.resource.spec.value.parameters
    ensures s.memory.resource.spec.Some?
  {
    var spec := m.resource.spec.value;
    if spec.parameters == map[] then Stage(m, None)
    else
      match Fetch(r.order, spec.parameters, r.stacks)
      case Panicked => Stage(m, Some(Recovered))
      case Failed =>
        var saved := ReferenceSite in r.saved;
        Stage(Save(WithState(m, Failure, ReferencesNotFetched), saved), if saved then None else Some(Errored))
      case Nothing => Stage(m, None)
      case Values(list) => Stage(WithSpec(m, spec.(parameters := WriteBack(spec.parameters, list))), None)
  }

  /** Writing references back keeps the keys, so the map orders of the replies still fit. */
  lemma ResolvingKeeps(m: Memory, r: Replies)
    requires m.resource.spec.Some? && Enumerates(r.order, m.resource.spec.value.parameters)
    ensures Keeps(m, ResolveParameters(m, r).memory)
  {
    var parameters := m.resource.spec.value.parameters;
    WriteBackKeepsKeys(r.order, parameters, r.stacks);
    var f := Fetch(r.order, parameters, r.stacks);
    if parameters != map[] && f.Values? {
      assert After(parameters, f) == WriteBack(parameters, f.list);
    }
  }

  /** Filling and resolving together. */
  lemma PreparingKeeps(m: Memory, r: Replies)
    requires m.resource.spec.Some? && Enumerates(r.order, m.resource.spec.value.parameters)
    ensures Keeps(m, Prepare(m, r).memory)
  {
    var a := SetAssumeRoleProvider(m, r);
    if a.stop.None? && Session(a.memory, r).stop.None? {
      ResolvingKeeps(a.memory, r);
    }
  }

  /* CheckForRequeue */

  const MIN_ROLE_ARN := 20

  /** CreateChangeSetInput.Validate of the AWS SDK, for the fields the controller sets. */
  predicate ValidInput(spec: StackSpec) {
    && |spec.role.serviceRoleArn| >= MIN_ROLE_ARN && spec.stackName != "" && spec.template != ""
    && forall k :: k in spec.tags ==> k != "" && spec.tags[k] != ""
  }

  /** CreateChangeSet. Without a service role it reports success and calls nobody. */
  ghost function CreateChangeSet(m: Memory, name: string, kind: ChangeSetKind, accepted: bool): (Memory, bool)
    requires m.resource.spec.Some?
  {
    var spec := m.resource.spec.value;
    if spec.role.serviceRoleArn == "" then (m, true)
    else if !ValidInput(spec) then (m, false)
    else
      (WithCall(m, Create(name, spec.stackName, spec.template, Canonical(spec.parameters), TagList(spec.tags),
                          spec.role.serviceRoleArn, kind, accepted)), accepted)
  }

  function ChangeSetName(spec: StackSpec, uuid: string): string {
    spec.stackName + "-changeset-" + uuid
  }

  /** The two branches that create a change set. */
  ghost function Propose(m: Memory, kind: ChangeSetKind, r: Replies): Stage
    requires m.resource.spec.Some?
  {
    var saved := OutcomeSite in r.saved;
    var name := ChangeSetName(m.resource.spec.value, r.uuid);
    var (m', ok) := CreateChangeSet(WithChangeSetName(m, name), name, kind, r.createAccepted);
    if !ok then Finish(CountFailed(m'), Failure, ChangeSetNotCreated, saved, Errored)
    else if kind == UPDATE then Finish(m', State.UpdateInProgress, UpdateChangeSetInProgress, saved, Requeued)
    else Finish(m', State.InProgress, CreateChangeSetInProgress, saved, Requeued)
  }

  /** ExecuteChangeSetInput.Validate of the AWS SDK: an empty name is refused before anything is sent. */
  predicate ExecutionLeaves(stackName: string, name: string) {
    stackName != "" && name != ""
  }

  function ExecuteChangeSet(m: Memory, accepted: bool): (Memory, bool)
    requires m.resource.spec.Some?
  {
    var stackName, name := m.resource.spec.value.stackName, m.resource.status.changeSetName;
    if !ExecutionLeaves(stackName, name) then (m, false)
    else (WithCall(m, Execute(stackName, name, accepted)), accepted)
  }

  /** The branch that executes the change set named in the status. */
  function Carry(m: Memory, r: Replies): Stage
    requires m.resource.spec.Some?
  {
    var saved := OutcomeSite in r.saved;
    var (m', ok) := ExecuteChangeSet(m, r.executeAccepted);
    if !ok then Finish(CountFailed(m'), Failure, ChangeSetNotExecuted, saved, Errored)
    else Finish(m', State.InProgress, ExecuteChangeSetInProgress, saved, Requeued)
  }

  /** The part of CheckForRequeue behind the comparison with the deployed stack. */
  ghost function Act(m: Memory, c: CfnResult, r: Replies): Stage
    requires m.resource.spec.Some?
  {
    if c.rollbackComplete then Finish(m, Success, StackId(c.stackId), OutcomeSite in r.saved, Requeued)
    else if c.present && !c.exech then Propose(m, UPDATE, r)
    else if !c.present && !c.exech then Propose(m, CREATE, r)
    else if c.present && c.exech then Carry(m, r)
    else Stage(m, Some(Requeued))
  }

  /** The deployed stack is the wanted one: same template, same values under the common parameter keys. */
  ghost predicate Deployed(spec: StackSpec, reported: seq<Pair>, body: string) {
    body == spec.template && Agrees(reported, spec.parameters)
  }

  ghost function CheckForRequeue(m: Memory, c: CfnResult, reported: seq<Pair>, r: Replies): Stage
    requires m.resource.spec.Some?
  {
    var saved := OutcomeSite in r.saved;
    var spec := m.resource.spec.value;
    if c.requeue then Stage(m, Some(Requeued))
    else if c.present && c.status == Verdict.Failed then
      Finish(CountFailed(m), Failure, StackFailed(spec.stackName, c.messages), saved, Errored)
    else if c.present && c.status == Complete then
      match r.template
      case TemplateFailed => Finish(CountFailed(m), Failure, TemplateNotRead, saved, Recovered)
      case TemplateAbsent => Stage(m, Some(Recovered))
      case TemplateBody(body) =>
        if Deployed(spec, reported, body) then
          Finish(CountSucceeded(m), Success, StackId(c.stackId), saved, Requeued)
        else Act(m, c, r)
    else Act(m, c, r)
  }

  /* Reconcile */

  /** Everything up to the classification: filling, session, references. */
  function Prepare(m: Memory, r: Replies): (s: Stage)
    requires m.resource.spec.Some?
    requires forall k :: k in r.order ==> k in m.resource.spec.value.parameters
    ensures s.memory.resource.spec.Some?
  {
    var a := SetAssumeRoleProvider(m, r);
    if a.stop.Some? then a else
    var b := Session(a.memory, r);
    if b.stop.Some? then b else
    ResolveParameters(b.memory, r)
  }

  /** Classification and dispatch. */
  ghost function Dispatch(m: Memory, r: Replies): Stage
    requires m.resource.spec.Some?
  {
    match Classify(m.resource.spec.value.stackName, m.resource.status.state, r)
    case Panicked => Stage(m, Some(Recovered))
    case Answer(c, reported) => CheckForRequeue(m, c, reported, r)
  }

  /** Reconcile of a resource that was read. */
  ghost function Work(ck: Checksum, m: Memory, r: Replies): Stage
    requires Fits(r, m.resource)
  {
    var a := Gate(ck, m);
    if a.stop.Some? then a
    else if m.resource.spec == None then Stage(a.memory, Some(Crashed))
    else
      var b := Prepare(a.memory, r);
      if b.stop.Some? then b else Dispatch(b.memory, r)
  }

  ghost function Reconcile(ck: Checksum, m: Memory, r: Replies): Stage
    requires Fits(r, m.resource)
  {
    match r.get
    case NotFound => Stage(m, Some(Ended))
    case GetFailed => Stage(m, Some(Errored))
    case Found => Work(ck, m, r)
  }

  /** A read may be stale; the API server then refuses every write of that reconcile. */
  function Writable(world: World, read: nat, r: Replies): Replies {
    if read + 1 == |world.versions| then r else r.(saved := {})
  }

  ghost predicate Readable(world: World, read: nat, r: Replies) {
    read < |world.versions| && Fits(r, world.versions[read].resource)
  }

  function StartOf(world: World, read: nat, r: Replies): Memory
    requires read < |world.versions|
  {
    var resource := world.versions[read].resource;
    Memory(resource, Reconciled(resource, Writable(world, read, r)), world)
  }

  /** One reconcile that reads the given version. */
  ghost function ReconcileFrom(ck: Checksum, world: World, read: nat, r: Replies): Stage
    requires Readable(world, read, r)
  {
    Reconcile(ck, StartOf(world, read, r), Writable(world, read, r))
  }
}
