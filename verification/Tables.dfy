/** One reconcile as a decision table over its input, with every state, text, message and condition written out. No
    function of the controller is used here; TableProofs shows that the controller does exactly this. */
module Tables {
  import opened Text
  import opened Cloud
  import opened References
  import opened Parameters
  import opened Controller

  /* Stack states */

  const BUSY: set<StackStatus> := {
    CreateInProgress, RollbackInProgress, DeleteInProgress, StackStatus.UpdateInProgress, UpdateRollbackInProgress,
    ImportInProgress, ImportRollbackInProgress, UpdateCompleteCleanupInProgress,
    UpdateRollbackCompleteCleanupInProgress
  }

  const BROKEN: set<StackStatus> := {
    CreateFailed, DeleteFailed, RollbackFailed, UpdateRollbackFailed, ImportRollbackFailed, ImportRollbackComplete
  }

  const FINISHED: set<StackStatus> := {
    CreateComplete, DeleteComplete, RollbackComplete, UpdateComplete, UpdateRollbackComplete, ImportComplete
  }

  /* What a reconcile decides once it has reached CloudFormation */

  /** Nothing but a panic, nothing but a wait, a conclusion without a call, a request for a change set, or the execution
      of the stored one. */
  datatype Decision =
    | Panic
    | Wait
    | Conclude(state: State, message: Message, end: End, failed: bool, succeeded: bool)
    | Ask(kind: ChangeSetKind)
    | Launch

  function Decide(v: Resource, r: Replies): Decision
    requires v.spec.Some?
  {
    var name := v.spec.value.stackName;
    match r.describe
    case DescribeFailed(_) => Ask(CREATE)
    case NoStackList => Panic
    case Stacks(list) =>
      if list == [] then Panic
      else if list[0].name != name then Ask(CREATE)
      else if name == "" || r.events.EventsFailed? then Panic
      else DecideOwn(v, list[0], if r.events.list == [] then StackEvent("", "") else r.events.list[0], r)
  }

  /** The stack is there; event is its newest one. */
  function DecideOwn(v: Resource, stack: StackInfo, event: StackEvent, r: Replies): Decision
    requires v.spec.Some?
  {
    var name := v.spec.value.stackName;
    var newest := if r.changeSets.ListFailed? || r.changeSets.list == [] then NoStatus else r.changeSets.list[0];
    if stack.status in BUSY then Wait
    else if stack.status in BROKEN then Failing(name, [StackInFailedState(event.resourceStatus)])
    else if stack.status == StackStatus.ReviewInProgress then
      if r.changeSets.ListFailed? then Failing(name, [ChangeSetsNotListed])
      else if newest == Ready then Launch
      else if newest == Unsuccessful then Failing(name, [ChangeSetUnsuccessful])
      else Wait
    else if stack.status in FINISHED then
      if v.status.state != State.UpdateInProgress then Compare(v, stack, event, r)
      else if r.changeSets.ListFailed? then Failing(name, [ExecutionCompleted, ChangeSetsNotListed])
      else if newest == Ready then Launch
      else if newest == Unsuccessful then Failing(name, [ExecutionCompleted, ChangeSetUnsuccessful])
      else if newest in {Pending, BeingCreated} then Wait
      else Compare(v, stack, event, r)
    else Ask(UPDATE)
  }

  function Failing(name: string, reasons: seq<Reason>): Decision {
    Conclude(Failure, StackFailed(name, reasons), Errored, true, false)
  }

  /** A finished stack against the spec: the same template, and no reported parameter with another value. */
  function Compare(v: Resource, stack: StackInfo, event: StackEvent, r: Replies): Decision
    requires v.spec.Some?
  {
    var spec := v.spec.value;
    match r.template
    case TemplateFailed => Conclude(Failure, TemplateNotRead, Recovered, true, false)
    case TemplateAbsent => Panic
    case TemplateBody(body) =>
      if body == spec.template
        && forall a :: a in stack.parameters && a.key in spec.parameters ==> a.value == spec.parameters[a.key]
      then Conclude(Success, StackId(event.physicalId), Requeued, false, true)
      else if v.status.state == State.InProgress && stack.status in {RollbackComplete, UpdateRollbackComplete}
      then Conclude(Success, StackId(event.physicalId), Requeued, false, false)
      else Ask(UPDATE)
  }

  /** Status, calls and counts at the end of a reconcile, stored as far as its last write succeeds. */
  ghost function Effect(m: Memory, status: Status, calls: seq<Call>, failed: bool, succeeded: bool, end: End,
                        r: Replies): Stage
    requires m.resource.spec.Some?
  {
    var saved, spec := OutcomeSite in r.saved, m.resource.spec.value;
    var counted := multiset{Label(spec.role.accountId, spec.stackName)};
    var resource := Resource(m.resource.spec, status, m.resource.deleting);
    var world := World(
      m.world.versions + (if saved then [Version(resource, m.source)] else []),
      m.world.calls + calls,
      m.world.failed + (if failed then counted else multiset{}),
      m.world.succeeded + (if succeeded then counted else multiset{}));
    Stage(Memory(resource, m.source, world), Some(if saved then end else Errored))
  }

  /** What the AWS SDK lets pass: a service role of twenty characters, a stack name, a template, and no empty tag. */
  predicate Passes(spec: StackSpec) {
    && |spec.role.serviceRoleArn| >= 20 && spec.stackName != "" && spec.template != ""
    && forall k :: k in spec.tags ==> k != "" && spec.tags[k] != ""
  }

  ghost function AskingCall(spec: StackSpec, kind: ChangeSetKind, r: Replies): Call {
    Create(spec.stackName + "-changeset-" + r.uuid, spec.stackName, spec.template, Canonical(spec.parameters),
           Canonical(spec.tags) + [Pair("CreatedBy", "CloudResource-Controller")], spec.role.serviceRoleArn, kind,
           r.createAccepted)
  }

  /** Without a service role nothing is sent, and yet progress is reported. */
  ghost function Asked(m: Memory, kind: ChangeSetKind, r: Replies): Stage
    requires m.resource.spec.Some?
  {
    var spec, before := m.resource.spec.value, m.resource.status;
    var status := before.(changeSetName := spec.stackName + "-changeset-" + r.uuid);
    var sent := spec.role.serviceRoleArn != "" && Passes(spec);
    var calls := if sent then [AskingCall(spec, kind, r)] else [];
    if spec.role.serviceRoleArn == "" || (sent && r.createAccepted) then
      var started :=
        if kind == UPDATE then status.(state := State.UpdateInProgress, message := UpdateChangeSetInProgress)
        else status.(state := State.InProgress, message := CreateChangeSetInProgress);
      Effect(m, started, calls, false, false, Requeued, r)
    else
      Effect(m, status.(state := Failure, message := ChangeSetNotCreated), calls, true, false, Errored, r)
  }

  ghost function Launched(m: Memory, r: Replies): Stage
    requires m.resource.spec.Some?
  {
    var stack, before := m.resource.spec.value.stackName, m.resource.status;
    var sent := stack != "" && before.changeSetName != "";
    var calls := if sent then [Execute(stack, before.changeSetName, r.executeAccepted)] else [];
    if sent && r.executeAccepted then
      var started := before.(state := State.InProgress, message := ExecuteChangeSetInProgress);
      Effect(m, started, calls, false, false, Requeued, r)
    else
      Effect(m, before.(state := Failure, message := ChangeSetNotExecuted), calls, true, false, Errored, r)
  }

  ghost function Result(m: Memory, d: Decision, r: Replies): Stage
    requires m.resource.spec.Some?
  {
    match d
    case Panic => Stage(m, Some(Recovered))
    case Wait => Stage(m, Some(Requeued))
    case Conclude(state, message, end, failed, succeeded) =>
      Effect(m, m.resource.status.(state := state, message := message), [], failed, succeeded, end, r)
    case Ask(kind) => Asked(m, kind, r)
    case Launch => Launched(m, r)
  }

  /* The stages before: what is missing in the assume-role section, and how far they come */

  predicate RegionFound(spec: StackSpec, r: Replies) {
    spec.region != "" || r.region.Some?
  }

  predicate RoleMissing(p: RoleProvider) {
    p.roleArn == "" && TrimSpace(p.accountId) == ""
  }

  predicate AccountMissing(p: RoleProvider) {
    p.accountId == "" && TrimSpace(p.roleArn) == ""
  }

  ghost predicate AccountUnreadable(p: RoleProvider) {
    p.accountId == "" && TrimSpace(p.roleArn) != "" && !Occurs(TrimSpace(p.roleArn), "::")
  }

  /** The text between the first "::" of a role ARN and the next colon. */
  function AccountIn(roleArn: string): string {
    var role := TrimSpace(roleArn);
    if Find(role, "::") == -1 then "" else Before(role[Find(role, "::") + 2..], ":")
  }

  function FullAccount(p: RoleProvider): string {
    if p.accountId != "" then p.accountId else AccountIn(p.roleArn)
  }

  function FullRole(p: RoleProvider): string {
    if p.roleArn != "" || TrimSpace(p.accountId) == "" then p.roleArn
    else "arn:aws:iam::" + TrimSpace(p.accountId) + ":role/cfn-master-role"
  }

  predicate ServiceRoleMissing(p: RoleProvider) {
    p.serviceRoleArn == "" && TrimSpace(FullAccount(p)) == ""
  }

  /** The section as far as the account is filled in. */
  function WithAccount(p: RoleProvider): RoleProvider {
    p.(roleArn := FullRole(p), accountId := FullAccount(p))
  }

  /** The section with everything that can be filled in. */
  function FullSection(p: RoleProvider): RoleProvider {
    WithAccount(p).(
      serviceRoleArn :=
        if p.serviceRoleArn != "" || TrimSpace(FullAccount(p)) == "" then p.serviceRoleArn
        else "arn:aws:iam::" + TrimSpace(FullAccount(p)) + ":role/clf-service-role",
      externalId :=
        if p.externalId != "" then p.externalId else "cloudresource-" + FullAccount(p) + "-" + p.environment)
  }

  predicate AccountReached(spec: StackSpec, r: Replies) {
    RegionFound(spec, r) && (RoleMissing(spec.role) ==> RoleSite in r.saved)
  }

  ghost predicate ServiceRoleReached(spec: StackSpec, r: Replies) {
    && AccountReached(spec, r) && !AccountUnreadable(spec.role)
    && (AccountMissing(spec.role) ==> AccountSite in r.saved)
  }

  ghost predicate SessionReached(spec: StackSpec, r: Replies) {
    ServiceRoleReached(spec, r) && (ServiceRoleMissing(spec.role) ==> ServiceRoleSite in r.saved)
  }

  ghost predicate ReferencesReached(spec: StackSpec, r: Replies) {
    SessionReached(spec, r) && r.session.SessionObtained? && FullRole(spec.role) != ""
  }

  /** In this map order, the value at position i fails in this way, and all values in front of it can be resolved. */
  ghost predicate FailsAt(order: seq<string>, m: map<string, string>, stacks: map<string, DescribeReply>,
                          failure: Resolution, i: nat)
    requires forall k :: k in order ==> k in m
  {
    && i < |order| && Resolve(m[order[i]], stacks) == failure
    && forall j :: 0 <= j < i ==> Resolve(m[order[j]], stacks) !in {Unavailable, Refused, OutOfRange}
  }

  ghost predicate FirstFailure(order: seq<string>, m: map<string, string>, stacks: map<string, DescribeReply>,
                               failure: Resolution)
    requires forall k :: k in order ==> k in m
  {
    exists i: nat :: FailsAt(order, m, stacks, failure, i)
  }

  ghost predicate FailsFirst(spec: StackSpec, r: Replies, failure: Resolution)
    requires forall k :: k in r.order ==> k in spec.parameters
  {
    FirstFailure(r.order, spec.parameters, r.stacks, failure)
  }

  /** The end of a reconcile that does not reach CloudFormation. */
  ghost function EarlyEnd(spec: StackSpec, r: Replies): Option<End>
    requires forall k :: k in r.order ==> k in spec.parameters
  {
    if !AccountReached(spec, r) then Some(Ended)
    else if AccountUnreadable(spec.role) then Some(Recovered)
    else if !SessionReached(spec, r) then Some(Ended)
    else if r.session.SessionPanics? then Some(Recovered)
    else if !ReferencesReached(spec, r) then Some(Ended)
    else if FailsFirst(spec, r, OutOfRange) then Some(Recovered)
    else if FailsFirst(spec, r, Refused) && ReferenceSite !in r.saved then Some(Errored)
    else None
  }

  /** A version with the status Failure and this message, if the condition holds. */
  function FailureIf(stored: bool, m: Memory, spec: StackSpec, message: Message): seq<Version> {
    var status := m.resource.status.(state := Failure, message := message);
    if stored then [Version(Resource(Some(spec), status, m.resource.deleting), m.source)] else []
  }

  function WithRegion(spec: StackSpec, r: Replies): StackSpec {
    if spec.region == "" && r.region.Some? then spec.(region := r.region.value) else spec
  }

  /** The versions that are stored on the way: at most one for each step, and each is a Failure with the spec as far as
      it was filled. */
  ghost function EarlyVersions(m: Memory, r: Replies): seq<Version>
    requires m.resource.spec.Some? && forall k :: k in r.order ==> k in m.resource.spec.value.parameters
  {
    var spec := m.resource.spec.value;
    var p, found := spec.role, WithRegion(spec, r);
    FailureIf(RegionFound(spec, r) && RoleMissing(p) && RoleSite in r.saved, m, found, RoleArnMissing)
    + FailureIf(AccountReached(spec, r) && AccountMissing(p) && AccountSite in r.saved,
                m, found, AccountIdMissing)
    + FailureIf(ServiceRoleReached(spec, r) && ServiceRoleMissing(p) && ServiceRoleSite in r.saved,
                m, found.(role := WithAccount(p)), ServiceRoleArnMissing)
    + FailureIf(ReferencesReached(spec, r) && FailsFirst(spec, r, Refused) && ReferenceSite in r.saved,
                m, found.(role := FullSection(p)), ReferencesNotFetched)
  }

  /** The resource with which CloudFormation is asked. */
  ghost function PreparedResource(v: Resource, r: Replies): Resource
    requires v.spec.Some? && forall k :: k in r.order ==> k in v.spec.value.parameters
  {
    var spec, before := v.spec.value, v.status;
    var prepared := WithRegion(spec, r).(
      role := FullSection(spec.role), parameters := FinalParameters(spec.parameters, r.stacks));
    Resource(
      Some(prepared),
      if FailsFirst(spec, r, Refused) then before.(state := Failure, message := ReferencesNotFetched)
      else if ServiceRoleMissing(spec.role) then before.(state := Failure, message := ServiceRoleArnMissing)
      else if AccountMissing(spec.role) then before.(state := Failure, message := AccountIdMissing)
      else before,
      v.deleting)
  }

  /* The whole reconcile */

  /** Success or Failure was stored for this very spec, and no deletion is requested. */
  predicate AlreadyDone(ck: Checksum, v: Resource) {
    v.status.checksum == ck(v.spec) && (v.status.state == Success || v.status.state == Failure) && !v.deleting
  }

  function Rechecked(ck: Checksum, m: Memory): Memory {
    m.(resource := m.resource.(status := m.resource.status.(checksum := ck(m.resource.spec))))
  }

  /** The memory with which CloudFormation is asked. */
  ghost function PreparedMemory(ck: Checksum, m: Memory, r: Replies): Memory
    requires m.resource.spec.Some? && Fits(r, m.resource)
  {
    var a := Rechecked(ck, m);
    Memory(PreparedResource(a.resource, r), m.source,
           m.world.(versions := m.world.versions + EarlyVersions(a, r)))
  }

  /** How the world looks afterwards, and how the reconcile ends. */
  ghost function Expected(ck: Checksum, m: Memory, r: Replies): (World, End)
    requires Fits(r, m.resource)
  {
    if r.get == NotFound then (m.world, Ended)
    else if r.get == GetFailed then (m.world, Errored)
    else if AlreadyDone(ck, m.resource) then (m.world, Ended)
    else if m.resource.spec == None then (m.world, Crashed)
    else
      var b, early := PreparedMemory(ck, m, r), EarlyEnd(m.resource.spec.value, r);
      if early.Some? then (b.world, early.value)
      else
        var s := Result(b, Decide(b.resource, r), r);
        (s.memory.world, s.stop.GetOr(Ended))
  }

  /* Ends */

  ghost predicate Works(ck: Checksum, m: Memory, r: Replies) {
    r.get == Found && !AlreadyDone(ck, m.resource) && m.resource.spec.Some?
  }

  /** The call that this decision needs was accepted, or it needs none. */
  predicate Succeeds(v: Resource, d: Decision, r: Replies)
    requires v.spec.Some?
  {
    var spec := v.spec.value;
    match d
    case Conclude(_, _, end, _, _) => end == Requeued
    case Ask(_) => spec.role.serviceRoleArn == "" || (Passes(spec) && r.createAccepted)
    case Launch => spec.stackName != "" && v.status.changeSetName != "" && r.executeAccepted
    case _ => false
  }
}
