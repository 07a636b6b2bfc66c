/** The controller does what the decision table says: every value in it, in both directions and for all inputs. */
module TableProofs {
  import opened Text
  import opened Cloud
  import opened Defaults
  import opened References
  import opened Parameters
  import opened Validations
  import opened Controller
  import opened Safety
  import opened Preparation
  import opened Tables

  /* Stack states */

  /** The five groups of stack states. */
  lemma StatusGroups(status: StackStatus)
    ensures IsInProgress(status) <==> status in BUSY || status == StackStatus.ReviewInProgress
    ensures IsFailed(status) <==> status in BROKEN
    ensures IsComplete(status) <==> status in FINISHED
    ensures IsRollBackComplete(status) <==> status in {RollbackComplete, UpdateRollbackComplete}
    ensures !(status in BUSY && status in BROKEN) && !(status in BUSY && status in FINISHED)
    ensures !(status in BROKEN && status in FINISHED)
    ensures StackStatus.ReviewInProgress !in BUSY + BROKEN + FINISHED
  {
  }

  /* Dispatch */

  /** Finishing is the effect of the status in memory and of the calls made so far. */
  lemma EffectIsFinish(m: Memory, o: Memory, calls: seq<Call>, state: State, message: Message, end: End, r: Replies)
    requires m.resource.spec.Some? && o.resource == m.resource.(status := o.resource.status) && o.source == m.source
    requires o.world == m.world.(calls := m.world.calls + calls)
    ensures var status, saved := o.resource.status.(state := state, message := message), OutcomeSite in r.saved;
      && Finish(o, state, message, saved, end) == Effect(m, status, calls, false, false, end, r)
      && Finish(CountFailed(o), state, message, saved, end) == Effect(m, status, calls, true, false, end, r)
  {
  }

  lemma AskedIsPropose(m: Memory, kind: ChangeSetKind, r: Replies)
    requires m.resource.spec.Some?
    ensures Propose(m, kind, r) == Asked(m, kind, r)
  {
    var spec := m.resource.spec.value;
    var name := spec.stackName + "-changeset-" + r.uuid;
    var sent := spec.role.serviceRoleArn != "" && Passes(spec);
    var calls := if sent then [AskingCall(spec, kind, r)] else [];
    var named := WithChangeSetName(m, name);
    var o := if sent then WithCall(named, AskingCall(spec, kind, r)) else named;
    assert ChangeSetName(spec, r.uuid) == name && m.world.calls + [] == m.world.calls;
    AskedInput(named, name, kind, r);
    EffectIsFinish(m, o, calls, Failure, ChangeSetNotCreated, Errored, r);
    EffectIsFinish(m, o, calls, State.UpdateInProgress, UpdateChangeSetInProgress, Requeued, r);
    EffectIsFinish(m, o, calls, State.InProgress, CreateChangeSetInProgress, Requeued, r);
    hide Effect, Finish, CountFailed, CreateChangeSet, AskingCall, Passes, ChangeSetName;
  }

  lemma AskedInput(m: Memory, name: string, kind: ChangeSetKind, r: Replies)
    requires m.resource.spec.Some? && name == m.resource.spec.value.stackName + "-changeset-" + r.uuid
    ensures var spec := m.resource.spec.value;
      var sent := spec.role.serviceRoleArn != "" && Passes(spec);
      CreateChangeSet(m, name, kind, r.createAccepted)
        == (if sent then WithCall(m, AskingCall(spec, kind, r)) else m,
            spec.role.serviceRoleArn == "" || (sent && r.createAccepted))
  {
    hide Canonical, WithCall;
  }

  lemma LaunchedIsCarry(m: Memory, r: Replies)
    requires m.resource.spec.Some?
    ensures Carry(m, r) == Launched(m, r)
  {
    var stack, name := m.resource.spec.value.stackName, m.resource.status.changeSetName;
    var calls := if stack != "" && name != "" then [Execute(stack, name, r.executeAccepted)] else [];
    var o := if stack != "" && name != "" then WithCall(m, Execute(stack, name, r.executeAccepted)) else m;
    assert m.world.calls + [] == m.world.calls;
    EffectIsFinish(m, o, calls, Failure, ChangeSetNotExecuted, Errored, r);
    EffectIsFinish(m, o, calls, State.InProgress, ExecuteChangeSetInProgress, Requeued, r);
    hide Effect, Finish, CountFailed;
  }

  /** Concluding, with or without a count. */
  lemma ConcludedIsFinish(m: Memory, state: State, message: Message, end: End, r: Replies)
    requires m.resource.spec.Some?
    ensures var saved := OutcomeSite in r.saved;
      && Result(m, Conclude(state, message, end, false, false), r) == Finish(m, state, message, saved, end)
      && Result(m, Conclude(state, message, end, true, false), r)
           == Finish(CountFailed(m), state, message, saved, end)
      && Result(m, Conclude(state, message, end, false, true), r)
           == Finish(CountSucceeded(m), state, message, saved, end)
  {
  }

  /** The dispatch table: memory, world and end, for every input. */
  lemma DispatchTable(m: Memory, r: Replies)
    requires m.resource.spec.Some?
    ensures Dispatch(m, r) == Result(m, Decide(m.resource, r), r)
  {
    var name := m.resource.spec.value.stackName;
    AskedIsPropose(m, CREATE, r);
    hide Propose, Asked, Effect, JudgeStack, DecideOwn, Launched, CountFailed, CountSucceeded;
    if r.describe.Stacks? && r.describe.list != [] && r.describe.list[0].name == name && name != ""
      && r.events.Events? {
      hide CheckForRequeue, Result;
      OwnTable(m, r.describe.list[0], NewestEvent(name, r.events).value, r);
    }
  }

  /** What the dispatch makes of the stack's own classification. */
  ghost function OwnDispatch(m: Memory, stack: StackInfo, event: StackEvent, r: Replies): Stage
    requires m.resource.spec.Some?
  {
    var name := m.resource.spec.value.stackName;
    var c := JudgeStack(stack.status, event, m.resource.status.state, HeadOf(name, r.changeSets));
    CheckForRequeue(m, c, stack.parameters, r)
  }

  lemma OwnTable(m: Memory, stack: StackInfo, event: StackEvent, r: Replies)
    requires m.resource.spec.Some? && m.resource.spec.value.stackName != ""
    ensures OwnDispatch(m, stack, event, r) == Result(m, DecideOwn(m.resource, stack, event, r), r)
  {
    var name := m.resource.spec.value.stackName;
    var c := JudgeStack(stack.status, event, m.resource.status.state, HeadOf(name, r.changeSets));
    OwnDecision(m.resource, stack, event, r);
    OwnFields(m.resource, stack, event, r);
    hide JudgeStack, DecideOwn, HeadOf, Compare, Result;
    if c.status == Verdict.Complete {
      CompareTable(m, c, stack, event, r);
    } else {
      FlagTable(m, c, stack.parameters, r);
    }
  }

  /** What the flags of the classification mean for the decision. */
  ghost function FlagDecision(name: string, c: CfnResult, compared: Decision): Decision {
    if c.requeue then Wait
    else if c.status == Verdict.Failed then Failing(name, c.messages)
    else if c.status == Verdict.Complete then compared
    else if c.exech then Launch
    else Ask(UPDATE)
  }

  lemma OwnDecision(v: Resource, stack: StackInfo, event: StackEvent, r: Replies)
    requires v.spec.Some? && v.spec.value.stackName != ""
    ensures var name := v.spec.value.stackName;
      var c := JudgeStack(stack.status, event, v.status.state, HeadOf(name, r.changeSets));
      DecideOwn(v, stack, event, r) == FlagDecision(name, c, Compare(v, stack, event, r))
  {
    var head := HeadOf(v.spec.value.stackName, r.changeSets);
    var c := JudgeStack(stack.status, event, v.status.state, head);
    StatusGroups(stack.status);
    JudgeMeaning(stack.status, event, v.status.state, head);
    HeadMeaning(v.spec.value.stackName, r);
    if c.status == Verdict.Failed {
      FailedDecision(v, stack, event, r);
    } else {
      hide JudgeStack, IsInProgress, IsFailed, IsComplete, IsRollBackComplete, Compare, HeadOf;
    }
  }

  lemma FailedDecision(v: Resource, stack: StackInfo, event: StackEvent, r: Replies)
    requires v.spec.Some? && v.spec.value.stackName != ""
    requires JudgeStack(stack.status, event, v.status.state, HeadOf(v.spec.value.stackName, r.changeSets)).status
      == Verdict.Failed
    ensures var name := v.spec.value.stackName;
      var c := JudgeStack(stack.status, event, v.status.state, HeadOf(name, r.changeSets));
      DecideOwn(v, stack, event, r) == Failing(name, c.messages) && !c.requeue
  {
    var head := HeadOf(v.spec.value.stackName, r.changeSets);
    StatusGroups(stack.status);
    JudgeMeaning(stack.status, event, v.status.state, head);
    HeadMeaning(v.spec.value.stackName, r);
    FailureReasons(stack.status, event, v.status.state, head);
    hide JudgeStack, IsInProgress, IsFailed, IsComplete, IsRollBackComplete, Compare, HeadOf;
    forall x { OneReason(x); }
  }

  lemma OneReason(x: Reason)
    ensures [] + [x] == [x] && [ExecutionCompleted] + [x] == [ExecutionCompleted, x]
  {
  }

  /** The other fields of a classification that the dispatch reads. */
  lemma OwnFields(v: Resource, stack: StackInfo, event: StackEvent, r: Replies)
    requires v.spec.Some? && v.spec.value.stackName != ""
    ensures var c := JudgeStack(stack.status, event, v.status.state, HeadOf(v.spec.value.stackName, r.changeSets));
      && c.present
      && (c.rollbackComplete <==>
            v.status.state == State.InProgress && stack.status in {RollbackComplete, UpdateRollbackComplete})
      && (c.rollbackComplete ==> c.status == Verdict.Complete)
      && (c.status == Verdict.Complete ==>
            stack.status in FINISHED && !c.requeue && !c.exech && c.stackId == event.physicalId)
  {
    StatusGroups(stack.status);
    JudgeMeaning(stack.status, event, v.status.state, HeadOf(v.spec.value.stackName, r.changeSets));
    hide JudgeStack, IsInProgress, IsFailed, IsComplete, IsRollBackComplete, HeadOf;
  }

  lemma FlagTable(m: Memory, c: CfnResult, reported: seq<Pair>, r: Replies)
    requires m.resource.spec.Some? && c.present && !c.rollbackComplete && c.status != Verdict.Complete
    ensures var name := m.resource.spec.value.stackName;
      CheckForRequeue(m, c, reported, r) == Result(m, FlagDecision(name, c, Wait), r)
  {
    AskedIsPropose(m, UPDATE, r);
    LaunchedIsCarry(m, r);
    ConcludedIsFinish(m, Failure, StackFailed(m.resource.spec.value.stackName, c.messages), Errored, r);
    hide Propose, Carry, Asked, Launched, Effect, Finish, CountFailed;
  }

  lemma SameIsDeployed(spec: StackSpec, reported: seq<Pair>, r: Replies)
    requires r.template.TemplateBody?
    ensures Deployed(spec, reported, r.template.body) <==>
      r.template.body == spec.template
        && forall a :: a in reported && a.key in spec.parameters ==> a.value == spec.parameters[a.key]
  {
  }

  lemma CompareTable(m: Memory, c: CfnResult, stack: StackInfo, event: StackEvent, r: Replies)
    requires m.resource.spec.Some? && stack.status in FINISHED
    requires c.present && c.status == Verdict.Complete && !c.requeue && !c.exech && c.stackId == event.physicalId
    requires c.rollbackComplete
        <==> m.resource.status.state == State.InProgress && stack.status in {RollbackComplete, UpdateRollbackComplete}
    ensures CheckForRequeue(m, c, stack.parameters, r) == Result(m, Compare(m.resource, stack, event, r), r)
  {
    AskedIsPropose(m, UPDATE, r);
    ConcludedIsFinish(m, Failure, TemplateNotRead, Recovered, r);
    ConcludedIsFinish(m, Success, StackId(event.physicalId), Requeued, r);
    if r.template.TemplateBody? { SameIsDeployed(m.resource.spec.value, stack.parameters, r); }
    hide Propose, Carry, Asked, Launched, Effect, Finish, CountFailed, CountSucceeded, Deployed;
  }

  /* Preparation */

  /** How a preparation that started in m stands: the spec so far, the last failure if there was one, and the versions
      stored since. */
  ghost predicate At(m: Memory, x: Memory, spec: StackSpec, last: Option<Message>, stored: seq<Version>) {
    x == Memory(Resource(Some(spec), StatusAfter(m.resource.status, last), m.resource.deleting), m.source,
                m.world.(versions := m.world.versions + stored))
  }

  function StatusAfter(status: Status, last: Option<Message>): Status {
    match last
    case None => status
    case Some(message) => status.(state := Failure, message := message)
  }

  lemma NoFailures()
    ensures forall stored, m, spec, message :: !stored ==> FailureIf(stored, m, spec, message) == []
  {
  }

  lemma Nil(versions: seq<Version>)
    ensures versions + [] == versions && [] + versions == versions
  {
  }

  lemma FailureAt(m: Memory, x: Memory, spec: StackSpec, last: Option<Message>, stored: seq<Version>, message: Message,
      saved: bool)
    requires At(m, x, spec, last, stored)
    ensures x.resource.spec == Some(spec)
    ensures FillingFails(x, message, saved).stop == if saved then None else Some(Ended)
    ensures FillingFails(x, message, saved).memory == Save(WithState(x, Failure, message), saved)
    ensures At(m, Save(WithState(x, Failure, message), saved), spec, Some(message),
               stored + FailureIf(saved, m, spec, message))
  {
    assert stored + [] == stored;
  }

  lemma SpecAt(m: Memory, x: Memory, spec: StackSpec, last: Option<Message>, stored: seq<Version>, next: StackSpec)
    requires At(m, x, spec, last, stored)
    ensures At(m, WithSpec(x, next), next, last, stored)
  {
  }

  lemma RegionStep(m: Memory, spec: StackSpec, r: Replies)
    requires m.resource.spec == Some(spec)
    ensures var s := FillRegion(m, r.region);
      && s.stop == (if RegionFound(spec, r) then None else Some(Ended))
      && At(m, s.memory, WithRegion(spec, r), None, [])
  {
    assert m.world.versions + [] == m.world.versions;
  }

  lemma RoleReading(p: RoleProvider)
    ensures RoleMissing(p) <==> p.roleArn == "" && RoleArn(p.accountId) == None
    ensures WithRoleArn(p) == p.(roleArn := FullRole(p))
  {
    hide TrimSpace;
  }

  lemma ServiceRoleReading(p: RoleProvider)
    ensures var q := WithAccount(p);
      && (ServiceRoleMissing(p) <==> q.serviceRoleArn == "" && ServiceRoleArn(q.accountId) == None)
      && WithServiceRoleArn(q) == q.(serviceRoleArn := FullSection(p).serviceRoleArn)
      && (ServiceRoleMissing(p) ==> WithServiceRoleArn(q) == q)
  {
    hide TrimSpace, FullAccount, FullRole;
  }

  lemma RoleStep(m: Memory, x: Memory, spec: StackSpec, r: Replies)
    requires At(m, x, spec, None, [])
    ensures var s, p, saved := FillRoleArn(x, RoleSite in r.saved), spec.role, RoleSite in r.saved;
      if RoleMissing(p) then
        && s.stop == (if saved then None else Some(Ended))
        && At(m, s.memory, spec, Some(RoleArnMissing),
              [] + FailureIf(saved, m, spec, RoleArnMissing))
      else s.stop == None && At(m, s.memory, spec.(role := p.(roleArn := FullRole(p))), None, [])
  {
    hide At, Save, FailureIf, RoleMissing, FillingFails, WithRoleArn, FullRole, RoleArnOf, WithState, WithSpec;
    var p, saved := spec.role, RoleSite in r.saved;
    RoleReading(p);
    FailureAt(m, x, spec, None, [], RoleArnMissing, saved);
    SpecAt(m, x, spec, None, [], spec.(role := p.(roleArn := FullRole(p))));
  }

  /** The account behind "::", read by one cut instead of two. */
  lemma AccountReading(roleArn: string)
    ensures AccountIdFromRoleArn(roleArn)
      == if TrimSpace(roleArn) == "" then RoleBlank
         else if !Occurs(TrimSpace(roleArn), "::") then NoSeparator
         else Account(AccountIn(roleArn))
  {
    var role := TrimSpace(roleArn);
    hide TrimSpace;
    if Occurs(role, "::") {
      assert |Split(role, "::")| >= 2;
      SplitTwo(role, "::");
      hide Split, Before;
      BeforeColons(role[Find(role, "::") + 2..]);
    } else {
      SplitNone(role, "::");
    }
  }

  lemma AccountStep(m: Memory, x: Memory, spec: StackSpec, last: Option<Message>, stored: seq<Version>, p: RoleProvider,
      r: Replies)
    requires At(m, x, spec, last, stored) && spec.role == p.(roleArn := FullRole(p))
    ensures var s, saved := FillAccountId(x, AccountSite in r.saved), AccountSite in r.saved;
      if AccountMissing(p) then
        && s.stop == (if saved then None else Some(Ended))
        && At(m, s.memory, spec.(role := WithAccount(p)), Some(AccountIdMissing),
              stored + FailureIf(saved, m, spec, AccountIdMissing))
      else if AccountUnreadable(p) then s.stop == Some(Recovered) && s.memory == x
      else s.stop == None && At(m, s.memory, spec.(role := WithAccount(p)), last, stored)
  {
    hide At, Save, FailureIf, TrimSpace, AccountIdFromRoleArn, AccountIn, FillingFails, WithState, WithSpec,
      FullRole, WithAccount, AccountMissing, AccountUnreadable;
    AccountCases(p);
    FailureAt(m, x, spec, last, stored, AccountIdMissing, AccountSite in r.saved);
    SpecAt(m, x, spec, last, stored, spec.(role := WithAccount(p)));
    assert spec.(role := spec.role) == spec;
  }

  lemma AccountCases(p: RoleProvider)
    ensures var q := p.(roleArn := FullRole(p));
      && (p.accountId != "" ==> !AccountMissing(p) && !AccountUnreadable(p) && WithAccount(p) == q)
      && (p.accountId == "" ==>
            match AccountIdFromRoleArn(q.roleArn)
            case RoleBlank => AccountMissing(p) && WithAccount(p) == q
            case NoSeparator => !AccountMissing(p) && AccountUnreadable(p)
            case Account(id) =>
              !AccountMissing(p) && !AccountUnreadable(p) && WithAccount(p) == q.(accountId := id))
  {
    AccountReading(p.roleArn);
    BlankRole(p);
    hide TrimSpace, AccountIdFromRoleArn, AccountIn;
  }

  lemma BlankRole(p: RoleProvider)
    ensures TrimSpace("") == "" && (p.accountId == "" ==> FullRole(p) == p.roleArn)
    ensures AccountMissing(p) ==> AccountIn(p.roleArn) == "" && WithAccount(p) == p.(roleArn := FullRole(p))
  {
    if AccountMissing(p) {
      assert !OccursAt("", "::", Find("", "::"));
    }
  }

  lemma ServiceRoleStep(m: Memory, x: Memory, spec: StackSpec, last: Option<Message>, stored: seq<Version>,
      p: RoleProvider, r: Replies)
    requires At(m, x, spec, last, stored) && spec.role == WithAccount(p)
    ensures var s, saved := FillServiceRoleArn(x, ServiceRoleSite in r.saved), ServiceRoleSite in r.saved;
      var q := WithAccount(p).(serviceRoleArn := FullSection(p).serviceRoleArn);
      if ServiceRoleMissing(p) then
        && s.stop == (if saved then None else Some(Ended))
        && At(m, s.memory, spec.(role := q), Some(ServiceRoleArnMissing),
              stored + FailureIf(saved, m, spec, ServiceRoleArnMissing))
      else s.stop == None && At(m, s.memory, spec.(role := q), last, stored)
  {
    hide At, Save, FailureIf, ServiceRoleMissing, FillingFails, WithServiceRoleArn, FullSection, WithAccount,
      RoleArnOf, WithState, WithSpec;
    ServiceRoleReading(p);
    assert spec.(role := spec.role) == spec;
    FailureAt(m, x, spec, last, stored, ServiceRoleArnMissing, ServiceRoleSite in r.saved);
    SpecAt(m, x, spec, last, stored, spec.(role := WithServiceRoleArn(spec.role)));
  }

  lemma ExternalIdStep(m: Memory, x: Memory, spec: StackSpec, last: Option<Message>, stored: seq<Version>,
      p: RoleProvider)
    requires At(m, x, spec, last, stored)
    requires spec.role == WithAccount(p).(serviceRoleArn := FullSection(p).serviceRoleArn)
    ensures FillExternalId(x).stop == None
    ensures At(m, FillExternalId(x).memory, spec.(role := FullSection(p)), last, stored)
  {
    SpecAt(m, x, spec, last, stored, spec.(role := WithExternalId(spec.role)));
    assert WithExternalId(spec.role) == FullSection(p) by { hide TrimSpace, FullAccount, FullRole; }
    hide FullSection, WithAccount, WithExternalId;
  }

  /** The last failure among the filling steps. */
  function LastMissing(p: RoleProvider): Option<Message> {
    if ServiceRoleMissing(p) then Some(ServiceRoleArnMissing)
    else if AccountMissing(p) then Some(AccountIdMissing)
    else if RoleMissing(p) then Some(RoleArnMissing)
    else None
  }

  /** The versions of the filling steps alone. */
  ghost function FillingVersions(m: Memory, r: Replies): seq<Version>
    requires m.resource.spec.Some?
  {
    var spec := m.resource.spec.value;
    var p, found := spec.role, WithRegion(spec, r);
    FailureIf(RegionFound(spec, r) && RoleMissing(p) && RoleSite in r.saved, m, found, RoleArnMissing)
    + FailureIf(AccountReached(spec, r) && AccountMissing(p) && AccountSite in r.saved,
                m, found, AccountIdMissing)
    + FailureIf(ServiceRoleReached(spec, r) && ServiceRoleMissing(p) && ServiceRoleSite in r.saved,
                m, found.(role := WithAccount(p)), ServiceRoleArnMissing)
  }

  /** The filling steps behind the account. */
  function FillServiceRole(x: Memory, r: Replies): Stage
    requires x.resource.spec.Some?
  {
    var d := FillServiceRoleArn(x, ServiceRoleSite in r.saved);
    if d.stop.Some? then d else FillExternalId(d.memory)
  }

  lemma ServiceRoleTable(m: Memory, x: Memory, filled: StackSpec, last: Option<Message>, stored: seq<Version>,
      p: RoleProvider, r: Replies)
    requires filled.role == WithAccount(p) && At(m, x, filled, last, stored)
    ensures x.resource.spec == Some(filled)
    ensures var s := FillServiceRole(x, r);
      var versions := stored + FailureIf(ServiceRoleMissing(p) && ServiceRoleSite in r.saved,
                                         m, filled, ServiceRoleArnMissing);
      && s.stop == (if ServiceRoleMissing(p) && ServiceRoleSite !in r.saved then Some(Ended) else None)
      && s.memory.world == m.world.(versions := m.world.versions + versions)
      && (s.stop == None ==>
            At(m, s.memory, filled.(role := FullSection(p)),
               if ServiceRoleMissing(p) then Some(ServiceRoleArnMissing) else last, versions))
  {
    hide FillServiceRoleArn, FillExternalId, ServiceRoleMissing, FullSection, FailureIf, WithAccount, At;
    AtWorld(m, x);
    ServiceRoleStep(m, x, filled, last, stored, p, r);
    var c := FillServiceRoleArn(x, ServiceRoleSite in r.saved);
    AtWorld(m, c.memory);
    NoFailures();
    Nil(stored);
    if c.stop.None? {
      var q := WithAccount(p).(serviceRoleArn := FullSection(p).serviceRoleArn);
      var next := if ServiceRoleMissing(p) then Some(ServiceRoleArnMissing) else last;
      var versions := stored + FailureIf(ServiceRoleMissing(p) && ServiceRoleSite in r.saved,
                                         m, filled, ServiceRoleArnMissing);
      ExternalIdStep(m, c.memory, filled.(role := q), next, versions, p);
      AtWorld(m, FillExternalId(c.memory).memory);
    }
  }

  /** The filling steps behind the role ARN. */
  lemma AccountTable(m: Memory, x: Memory, found: StackSpec, last: Option<Message>, stored: seq<Version>,
      p: RoleProvider, r: Replies)
    requires found.role == p && At(m, x, found.(role := p.(roleArn := FullRole(p))), last, stored)
    ensures x.resource.spec.Some?
    ensures var s := FillFromAccount(x, r);
      var passed := !AccountUnreadable(p) && (AccountMissing(p) ==> AccountSite in r.saved);
      var versions := stored
        + FailureIf(AccountMissing(p) && AccountSite in r.saved, m, found, AccountIdMissing)
        + FailureIf(passed && ServiceRoleMissing(p) && ServiceRoleSite in r.saved,
                    m, found.(role := WithAccount(p)), ServiceRoleArnMissing);
      && s.stop == (if AccountUnreadable(p) then Some(Recovered)
                    else if passed && (ServiceRoleMissing(p) ==> ServiceRoleSite in r.saved) then None
                    else Some(Ended))
      && s.memory.world == m.world.(versions := m.world.versions + versions)
      && (s.stop == None ==>
            At(m, s.memory, found.(role := FullSection(p)),
               if ServiceRoleMissing(p) then Some(ServiceRoleArnMissing)
               else if AccountMissing(p) then Some(AccountIdMissing) else last,
               versions))
  {
    var spec := found.(role := p.(roleArn := FullRole(p)));
    AccountKeepsSpec(found, p);
    TailOfFilling(x, r);
    hide FillAccountId, FillServiceRole, FillFromAccount, ServiceRoleMissing, FullSection, FullRole, FailureIf,
      WithAccount, At, AccountMissing, AccountUnreadable;
    AtWorld(m, x);
    AccountStep(m, x, spec, last, stored, p, r);
    var b := FillAccountId(x, AccountSite in r.saved);
    AtWorld(m, b.memory);
    NoFailures();
    Nil(stored);
    Nil(stored + FailureIf(AccountMissing(p) && AccountSite in r.saved, m, found, AccountIdMissing));
    if b.stop.None? {
      var next := if AccountMissing(p) then Some(AccountIdMissing) else last;
      var versions := stored
        + FailureIf(AccountMissing(p) && AccountSite in r.saved, m, found, AccountIdMissing);
      ServiceRoleTable(m, b.memory, found.(role := WithAccount(p)), next, versions, p, r);
    }
  }

  lemma TailOfFilling(x: Memory, r: Replies)
    ensures x.resource.spec.Some? ==>
      var b := FillAccountId(x, AccountSite in r.saved);
      FillFromAccount(x, r) == if b.stop.Some? then b else FillServiceRole(b.memory, r)
  {
    hide FillAccountId, FillServiceRoleArn, FillExternalId;
  }

  lemma AccountKeepsSpec(found: StackSpec, p: RoleProvider)
    requires found.role == p
    ensures AccountMissing(p) ==> found.(role := p.(roleArn := FullRole(p))) == found
    ensures !(AccountMissing(p) && AccountUnreadable(p))
  {
    BlankRole(p);
    assert p.(roleArn := p.roleArn) == p && found.(role := found.role) == found;
    hide TrimSpace, FullRole;
  }

  lemma AtWorld(m: Memory, x: Memory)
    ensures forall spec, last, stored :: At(m, x, spec, last, stored) ==>
      x.resource.spec == Some(spec) && x.world == m.world.(versions := m.world.versions + stored)
  {
  }

  /** Filling: where it stops, what it has stored by then, and how it ends otherwise. */
  lemma FillingTable(m: Memory, spec: StackSpec, r: Replies)
    requires m.resource.spec == Some(spec)
    ensures var s := SetAssumeRoleProvider(m, r);
      && s.stop == (if !AccountReached(spec, r) then Some(Ended)
                    else if AccountUnreadable(spec.role) then Some(Recovered)
                    else if !SessionReached(spec, r) then Some(Ended) else None)
      && s.memory.world == m.world.(versions := m.world.versions + FillingVersions(m, r))
      && (s.stop == None ==> At(m, s.memory, WithRegion(spec, r).(role := FullSection(spec.role)),
                                LastMissing(spec.role), FillingVersions(m, r)))
  {
    var p, found := spec.role, WithRegion(spec, r);
    assert found.role == p;
    NoFailures();
    Nil([]);
    StagesOfFilling(m, r);
    hide LastMissing, FillRegion, FillRole, SetAssumeRoleProvider, RoleMissing, AccountMissing, AccountUnreadable,
      ServiceRoleMissing, FullSection, FullRole, FailureIf, WithAccount, At, WithRegion, RegionFound;
    RegionStep(m, spec, r);
    var a := FillRegion(m, r.region);
    AtWorld(m, a.memory);
    if a.stop.None? {
      RoleTable(m, a.memory, found, p, r);
    }
  }

  lemma StagesOfFilling(m: Memory, r: Replies)
    ensures m.resource.spec.Some? ==>
      var a := FillRegion(m, r.region);
      SetAssumeRoleProvider(m, r) == if a.stop.Some? then a else FillRole(a.memory, r)
  {
    hide FillRegion, FillRoleArn, FillFromAccount;
  }

  /** The filling steps behind the region. */
  function FillRole(x: Memory, r: Replies): Stage
    requires x.resource.spec.Some?
  {
    var b := FillRoleArn(x, RoleSite in r.saved);
    if b.stop.Some? then b else FillFromAccount(b.memory, r)
  }

  lemma RoleTable(m: Memory, x: Memory, found: StackSpec, p: RoleProvider, r: Replies)
    requires found.role == p && At(m, x, found, None, [])
    ensures x.resource.spec.Some?
    ensures var s := FillRole(x, r);
      var reached := RoleMissing(p) ==> RoleSite in r.saved;
      var passed := reached && !AccountUnreadable(p) && (AccountMissing(p) ==> AccountSite in r.saved);
      var versions :=
        FailureIf(RoleMissing(p) && RoleSite in r.saved, m, found, RoleArnMissing)
        + FailureIf(reached && AccountMissing(p) && AccountSite in r.saved, m, found, AccountIdMissing)
        + FailureIf(passed && ServiceRoleMissing(p) && ServiceRoleSite in r.saved,
                    m, found.(role := WithAccount(p)), ServiceRoleArnMissing);
      && s.stop == (if !reached then Some(Ended)
                    else if AccountUnreadable(p) then Some(Recovered)
                    else if passed && (ServiceRoleMissing(p) ==> ServiceRoleSite in r.saved) then None
                    else Some(Ended))
      && s.memory.world == m.world.(versions := m.world.versions + versions)
      && (s.stop == None ==> At(m, s.memory, found.(role := FullSection(p)), LastMissing(p), versions))
  {
    RoleKeepsSpec(found, p);
    hide FillRoleArn, FillFromAccount, RoleMissing, AccountMissing, AccountUnreadable, ServiceRoleMissing, FullSection,
      FullRole, FailureIf, WithAccount, At;
    AtWorld(m, x);
    RoleStep(m, x, found, r);
    var b := FillRoleArn(x, RoleSite in r.saved);
    AtWorld(m, b.memory);
    var stored := FailureIf(RoleMissing(p) && RoleSite in r.saved, m, found, RoleArnMissing);
    NoFailures();
    Nil(stored);
    if b.stop.None? {
      var last := if RoleMissing(p) then Some(RoleArnMissing) else None;
      AccountTable(m, b.memory, found, last, stored, p, r);
    }
  }

  lemma RoleKeepsSpec(found: StackSpec, p: RoleProvider)
    requires found.role == p
    ensures RoleMissing(p) ==> found.(role := p.(roleArn := FullRole(p))) == found
  {
    assert p.(roleArn := p.roleArn) == p && found.(role := found.role) == found;
    hide TrimSpace;
  }

  /** The loop over the references ends as its first failing value does. */
  lemma {:induction false} FetchFirst(order: seq<string>, m: map<string, string>, stacks: map<string, DescribeReply>)
    requires forall k :: k in order ==> k in m
    ensures Fetch(order, m, stacks) == Fetched.Panicked <==> FirstFailure(order, m, stacks, OutOfRange)
    ensures Fetch(order, m, stacks) == Fetched.Failed <==> FirstFailure(order, m, stacks, Refused)
  {
    hide Resolve;
    if order != [] {
      FetchFirst(order[1..], m, stacks);
      FirstFailureOf(order, m, stacks, OutOfRange);
      FirstFailureOf(order, m, stacks, Refused);
      hide FirstFailure;
    }
  }

  lemma FirstFailureOf(order: seq<string>, m: map<string, string>, stacks: map<string, DescribeReply>,
      failure: Resolution)
    requires order != [] && (forall k :: k in order ==> k in m) && failure in {Refused, OutOfRange}
    ensures FirstFailure(order, m, stacks, failure) <==>
      if Available(Resolve(m[order[0]], stacks)) then FirstFailure(order[1..], m, stacks, failure)
      else Resolve(m[order[0]], stacks) == failure
  {
    hide FailsAt, Available;
    var rest := order[1..];
    FailsNow(order, m, stacks, failure);
    if FirstFailure(order, m, stacks, failure) {
      var i: nat :| FailsAt(order, m, stacks, failure, i);
      if i > 0 {
        FailsLater(order, m, stacks, failure, i - 1);
        assert FailsAt(rest, m, stacks, failure, i - 1);
      }
    }
    if Available(Resolve(m[order[0]], stacks)) && FirstFailure(rest, m, stacks, failure) {
      var i: nat :| FailsAt(rest, m, stacks, failure, i);
      FailsLater(order, m, stacks, failure, i);
      assert FailsAt(order, m, stacks, failure, i + 1);
    }
  }

  lemma FailsLater(order: seq<string>, m: map<string, string>, stacks: map<string, DescribeReply>,
      failure: Resolution, i: nat)
    requires order != [] && (forall k :: k in order ==> k in m) && failure in {Refused, OutOfRange}
    ensures FailsAt(order, m, stacks, failure, i + 1)
       <==> Available(Resolve(m[order[0]], stacks)) && FailsAt(order[1..], m, stacks, failure, i)
  {
    hide Resolve;
    var rest := order[1..];
    assert forall j :: 0 <= j < |rest| ==> order[j + 1] == rest[j];
    assert forall j :: 0 < j < |order| ==> order[j] == rest[j - 1];
  }

  lemma FailsNow(order: seq<string>, m: map<string, string>, stacks: map<string, DescribeReply>, failure: Resolution)
    requires order != [] && forall k :: k in order ==> k in m
    ensures FailsAt(order, m, stacks, failure, 0) <==> Resolve(m[order[0]], stacks) == failure
    ensures failure in {Refused, OutOfRange} && Resolve(m[order[0]], stacks) == failure ==>
      !Available(Resolve(m[order[0]], stacks))
  {
  }

  lemma ReferenceTable(m: Memory, x: Memory, spec: StackSpec, last: Option<Message>, stored: seq<Version>, r: Replies)
    requires At(m, x, spec, last, stored) && Enumerates(r.order, spec.parameters)
    ensures x.resource.spec == Some(spec)
    ensures var s, saved := ResolveParameters(x, r), ReferenceSite in r.saved;
      if FailsFirst(spec, r, OutOfRange) then s == Stage(x, Some(Recovered))
      else if FailsFirst(spec, r, Refused) then
        && s.stop == (if saved then None else Some(Errored))
        && At(m, s.memory, spec.(parameters := FinalParameters(spec.parameters, r.stacks)), Some(ReferencesNotFetched),
              stored + FailureIf(saved, m, spec, ReferencesNotFetched))
      else
        && s.stop == None
        && At(m, s.memory, spec.(parameters := FinalParameters(spec.parameters, r.stacks)), last, stored)
  {
    var parameters, stacks := spec.parameters, r.stacks;
    ResolutionAllOrNothing(r.order, parameters, stacks);
    FetchFirst(r.order, parameters, stacks);
    FailureAt(m, x, spec, last, stored, ReferencesNotFetched, ReferenceSite in r.saved);
    SpecAt(m, x, spec, last, stored, spec.(parameters := FinalParameters(parameters, stacks)));
    assert spec.(parameters := parameters) == spec;
    assert !Fetch(r.order, parameters, stacks).Values? ==> FinalParameters(parameters, stacks) == parameters;
    hide Fetch, FinalParameters, AllAvailable, FirstFailure, Resolve, At, Save, WithState, FailureIf;
    var f := Fetch(r.order, parameters, stacks);
    if parameters == map[] {
      NothingFails(r.order, parameters, stacks);
      assert FinalParameters(parameters, stacks) == map[] by { assert FinalParameters(parameters, stacks).Keys == {}; }
      SpecItself(x, spec);
    } else if f.Nothing? {
      SpecItself(x, spec);
    }
  }

  lemma FirstKey(order: seq<string>)
    ensures order == [] || exists k :: k in order
  {
    assert order == [] || order[0] in order;
  }

  lemma NothingFails(order: seq<string>, m: map<string, string>, stacks: map<string, DescribeReply>)
    requires m == map[] && forall k :: k in order ==> k in m
    ensures order == []
    ensures !FirstFailure(order, m, stacks, OutOfRange) && !FirstFailure(order, m, stacks, Refused)
  {
    FirstKey(order);
  }

  lemma SpecItself(x: Memory, spec: StackSpec)
    requires x.resource.spec == Some(spec)
    ensures WithSpec(x, spec) == x
  {
  }

  /** The version of a failed resolution. */
  ghost function ReferenceVersions(m: Memory, r: Replies): seq<Version>
    requires m.resource.spec.Some? && forall k :: k in r.order ==> k in m.resource.spec.value.parameters
  {
    var spec := m.resource.spec.value;
    FailureIf(ReferencesReached(spec, r) && FailsFirst(spec, r, Refused) && ReferenceSite in r.saved,
              m, WithRegion(spec, r).(role := FullSection(spec.role)), ReferencesNotFetched)
  }

  lemma EarlyParts(m: Memory, r: Replies)
    requires m.resource.spec.Some? && forall k :: k in r.order ==> k in m.resource.spec.value.parameters
    ensures EarlyVersions(m, r) == FillingVersions(m, r) + ReferenceVersions(m, r)
  {
    hide FullSection, FailureIf, WithAccount, FailsFirst, AccountReached, ServiceRoleReached, ReferencesReached,
      AccountMissing, RoleMissing, ServiceRoleMissing, WithRegion, RegionFound;
  }

  /** The session and the references, behind the filling. */
  lemma ResolutionTable(m: Memory, x: Memory, spec: StackSpec, last: Option<Message>, stored: seq<Version>, r: Replies)
    requires At(m, x, spec, last, stored) && Enumerates(r.order, spec.parameters)
    ensures x.resource.spec == Some(spec)
    ensures var a := Session(x, r);
      var s := if a.stop.Some? then a else ResolveParameters(x, r);
      var reached := r.session.SessionObtained? && spec.role.roleArn != "";
      var refused := FailsFirst(spec, r, Refused);
      var versions := stored + FailureIf(reached && refused && ReferenceSite in r.saved,
                                         m, spec, ReferencesNotFetched);
      && a.memory == x
      && s.stop == (if r.session.SessionPanics? then Some(Recovered)
                    else if !reached then Some(Ended)
                    else if FailsFirst(spec, r, OutOfRange) then Some(Recovered)
                    else if refused && ReferenceSite !in r.saved then Some(Errored)
                    else None)
      && s.memory.world == m.world.(versions := m.world.versions + versions)
      && (s.stop == None ==>
            At(m, s.memory, spec.(parameters := FinalParameters(spec.parameters, r.stacks)),
               if refused then Some(ReferencesNotFetched) else last, versions))
  {
    AtWorld(m, x);
    OneAtATime(r.order, spec.parameters, r.stacks);
    NoFailures();
    Nil(stored);
    hide At, ResolveParameters, FinalParameters, FailureIf, FirstFailure;
    if Session(x, r).stop.None? {
      ReferenceTable(m, x, spec, last, stored, r);
      AtWorld(m, ResolveParameters(x, r).memory);
    }
  }

  lemma OneAtATime(order: seq<string>, m: map<string, string>, stacks: map<string, DescribeReply>)
    requires forall k :: k in order ==> k in m
    ensures !(FirstFailure(order, m, stacks, OutOfRange) && FirstFailure(order, m, stacks, Refused))
  {
    FetchFirst(order, m, stacks);
    hide Fetch, FirstFailure, Resolve;
  }

  lemma PreparedAt(m: Memory, y: Memory, spec: StackSpec, stored: seq<Version>, r: Replies)
    requires m.resource.spec == Some(spec) && (forall k :: k in r.order ==> k in spec.parameters)
    requires !RoleMissing(spec.role)
    requires At(m, y, WithRegion(spec, r).(role := FullSection(spec.role), parameters :=
                        FinalParameters(spec.parameters, r.stacks)),
                if FailsFirst(spec, r, Refused) then Some(ReferencesNotFetched) else LastMissing(spec.role), stored)
    ensures y.resource == PreparedResource(m.resource, r) && y.source == m.source
  {
    hide FailsFirst, FinalParameters, FullSection, AccountMissing, RoleMissing, ServiceRoleMissing, WithRegion;
  }

  lemma SectionParts(spec: StackSpec, r: Replies)
    ensures FullSection(spec.role).roleArn == FullRole(spec.role)
    ensures RoleMissing(spec.role) ==> FullRole(spec.role) == ""
    ensures WithRegion(spec, r).parameters == spec.parameters
    ensures !(AccountMissing(spec.role) && AccountUnreadable(spec.role))
  {
    hide TrimSpace, FullAccount;
  }

  /** The preparation table: where it stops, everything it stores, and the resource it arrives at. */
  lemma PreparationTable(m: Memory, spec: StackSpec, r: Replies)
    requires m.resource.spec == Some(spec) && Enumerates(r.order, spec.parameters)
    ensures var s := Prepare(m, r);
      && s.stop == EarlyEnd(spec, r)
      && s.memory.world == m.world.(versions := m.world.versions + EarlyVersions(m, r))
      && (s.stop == None ==> s.memory.resource == PreparedResource(m.resource, r) && s.memory.source == m.source)
  {
    var filled, stored := WithRegion(spec, r).(role := FullSection(spec.role)), FillingVersions(m, r);
    SectionParts(spec, r);
    EarlyParts(m, r);
    NoFailures();
    Nil(stored);
    assert forall f :: f in {Refused, OutOfRange} ==> FailsFirst(filled, r, f) == FailsFirst(spec, r, f);
    hide SetAssumeRoleProvider, ResolveParameters, FullSection, FailureIf, At, FailsFirst, FinalParameters,
      AccountReached, AccountUnreadable, AccountMissing, RoleMissing, ServiceRoleMissing, WithRegion, FullRole,
      PreparedResource, EarlyVersions, FillingVersions, LastMissing, Session;
    FillingTable(m, spec, r);
    var a := SetAssumeRoleProvider(m, r);
    if a.stop.None? {
      ResolutionTable(m, a.memory, filled, LastMissing(spec.role), stored, r);
      var s := Prepare(m, r);
      if s.stop.None? {
        PreparedAt(m, s.memory, spec, EarlyVersions(m, r), r);
      }
    }
  }

  /* The whole reconcile */

  lemma GateTable(ck: Checksum, m: Memory)
    ensures Gate(ck, m) == if AlreadyDone(ck, m.resource) then Stage(m, Some(Ended)) else Stage(Rechecked(ck, m), None)
  {
  }

  lemma RecheckedEarly(ck: Checksum, m: Memory, r: Replies)
    requires m.resource.spec.Some? && Fits(r, m.resource)
    ensures Rechecked(ck, m).resource.spec == m.resource.spec && Rechecked(ck, m).source == m.source
    ensures Rechecked(ck, m).world == m.world
  {
  }

  /** The reconcile table: the world afterwards and the end, for every checksum, resource, world and input. */
  lemma ReconcileTable(ck: Checksum, m: Memory, r: Replies)
    requires Fits(r, m.resource)
    ensures var s := Reconcile(ck, m, r); (s.memory.world, s.stop.GetOr(Ended)) == Expected(ck, m, r) && s.stop.Some?
  {
    GateTable(ck, m);
    if r.get.Found? && !AlreadyDone(ck, m.resource) && m.resource.spec.Some? {
      RecheckedEarly(ck, m, r);
      hide Prepare, Dispatch, Result, Decide, EarlyEnd, EarlyVersions, PreparedResource, Gate, Rechecked, AlreadyDone;
      var a, spec := Rechecked(ck, m), m.resource.spec.value;
      PreparationTable(a, spec, r);
      if EarlyEnd(spec, r).None? {
        var b := PreparedMemory(ck, m, r);
        assert Prepare(a, r).memory == b;
        DispatchTable(b, r);
        AlwaysStops(b, r);
      }
    }
  }

  lemma AlwaysStops(b: Memory, r: Replies)
    requires b.resource.spec.Some?
    ensures Result(b, Decide(b.resource, r), r).stop.Some?
  {
    hide Decide;
  }

  /** The end of a dispatch, by its decision. */
  lemma ResultEnds(b: Memory, d: Decision, r: Replies)
    requires b.resource.spec.Some? && (d.Conclude? ==> d.end in {Requeued, Errored, Recovered})
    ensures var stop, saved := Result(b, d, r).stop, OutcomeSite in r.saved;
      && (stop == Some(Requeued) <==> d.Wait? || (Succeeds(b.resource, d, r) && saved))
      && (stop == Some(Recovered) <==> d.Panic? || (d.Conclude? && d.end == Recovered && saved))
      && (stop == Some(Errored) <==>
            !d.Wait? && !d.Panic?
            && (!saved || (!Succeeds(b.resource, d, r) && !(d.Conclude? && d.end == Recovered))))
      && stop in {Some(Requeued), Some(Recovered), Some(Errored)}
  {
    hide Canonical;
  }

  lemma DecidedEnds(v: Resource, r: Replies)
    requires v.spec.Some?
    ensures var d := Decide(v, r); d.Conclude? ==> d.end in {Requeued, Errored, Recovered}
  {
  }

  /** The five ends of a whole reconcile, each with its condition. */
  lemma ReconcileEnds(ck: Checksum, m: Memory, r: Replies)
    requires Fits(r, m.resource)
    ensures var end := Reconcile(ck, m, r).stop;
      && (end == Some(Crashed) <==>
            r.get == Found && !AlreadyDone(ck, m.resource) && m.resource.spec == None)
      && (end == Some(Ended) <==>
            || r.get == NotFound
            || (r.get == Found && AlreadyDone(ck, m.resource))
            || (Works(ck, m, r) &&
                  var spec := m.resource.spec.value;
                  || !AccountReached(spec, r)
                  || (!AccountUnreadable(spec.role) && !SessionReached(spec, r))
                  || (SessionReached(spec, r) && !r.session.SessionPanics? && !ReferencesReached(spec, r))))
  {
    ReconcileTable(ck, m, r);
    hide Reconcile, AlreadyDone, AccountReached, AccountUnreadable, FailsFirst, Result, Decide, PreparedMemory;
    if Works(ck, m, r) {
      var spec := m.resource.spec.value;
      var b := PreparedMemory(ck, m, r);
      if EarlyEnd(spec, r).None? { DecidedResult(b, r); }
    }
  }

  lemma DecidedResult(b: Memory, r: Replies)
    requires b.resource.spec.Some?
    ensures Result(b, Decide(b.resource, r), r).stop in {Some(Requeued), Some(Recovered), Some(Errored)}
  {
    DecidedEnds(b.resource, r);
    ResultEnds(b, Decide(b.resource, r), r);
    hide Result, Decide;
  }

  /** The other three ends; the last decision is taken on the prepared resource. */
  lemma ReconcileOutcomes(ck: Checksum, m: Memory, r: Replies)
    requires Fits(r, m.resource)
    ensures var end, saved := Reconcile(ck, m, r).stop, OutcomeSite in r.saved;
      if !Works(ck, m, r) then end == Some(Errored) <==> r.get == GetFailed
      else
        var spec, b := m.resource.spec.value, PreparedMemory(ck, m, r).resource;
        var reached, d := EarlyEnd(spec, r) == None, Decide(b, r);
        && (end == Some(Requeued) <==> reached && (d.Wait? || (Succeeds(b, d, r) && saved)))
        && (end == Some(Recovered) <==>
              || (AccountReached(spec, r) && AccountUnreadable(spec.role))
              || (SessionReached(spec, r) && r.session.SessionPanics?)
              || (ReferencesReached(spec, r) && FailsFirst(spec, r, OutOfRange))
              || (reached && (d.Panic? || (d.Conclude? && d.end == Recovered && saved))))
        && (end == Some(Errored) <==>
              || (ReferencesReached(spec, r) && FailsFirst(spec, r, Refused) && ReferenceSite !in r.saved)
              || (reached && !d.Wait? && !d.Panic?
                    && (!saved || (!Succeeds(b, d, r) && !(d.Conclude? && d.end == Recovered)))))
  {
    ReconcileTable(ck, m, r);
    if Works(ck, m, r) {
      var spec := m.resource.spec.value;
      OneAtATime(r.order, spec.parameters, r.stacks);
      assert m.resource.spec.Some?;
      hide Reconcile, AlreadyDone, AccountReached, AccountUnreadable, FirstFailure, Result, Decide, PreparedMemory,
        Succeeds;
      var b := PreparedMemory(ck, m, r);
      DecidedEnds(b.resource, r);
      ResultEnds(b, Decide(b.resource, r), r);
    }
  }

  /* Readings of the tables */

  /** The named stack is reported, with its events. */
  predicate Reported(m: Memory, r: Replies, status: StackStatus)
    requires m.resource.spec.Some?
  {
    && m.resource.spec.value.stackName != "" && r.events.Events? && r.describe.Stacks? && r.describe.list != []
    && r.describe.list[0].name == m.resource.spec.value.stackName && r.describe.list[0].status == status
  }

  /** The template is the wanted one, and no reported parameter has another value than the spec. */
  predicate Same(spec: StackSpec, stack: StackInfo, body: string) {
    body == spec.template
      && forall a :: a in stack.parameters && a.key in spec.parameters ==> a.value == spec.parameters[a.key]
  }

  /** A complete stack nobody waits for: Success exactly when the template is the wanted one and no common parameter has
      another value, and otherwise an UPDATE with the whole spec. */
  lemma DeploymentDecides(m: Memory, status: StackStatus, r: Replies)
    requires m.resource.spec.Some? && status in FINISHED && Reported(m, r, status)
    requires m.resource.status.state !in {State.InProgress, State.UpdateInProgress} && r.template.TemplateBody?
    ensures var o, spec := Dispatch(m, r).memory, m.resource.spec.value;
      var same := Same(spec, r.describe.list[0], r.template.body);
      && (o.resource.status.state == Success <==> same)
      && o.world.calls == m.world.calls
           + if !same && Passes(spec) then [AskingCall(spec, UPDATE, r)] else []
  {
    DispatchTable(m, r);
    DeploymentDecision(m, status, r);
    hide Dispatch, Decide, AskingCall, Same, Passes;
    assert m.world.calls + [] == m.world.calls;
  }

  lemma DeploymentDecision(m: Memory, status: StackStatus, r: Replies)
    requires m.resource.spec.Some? && status in FINISHED && Reported(m, r, status)
    requires m.resource.status.state !in {State.InProgress, State.UpdateInProgress} && r.template.TemplateBody?
    ensures if Same(m.resource.spec.value, r.describe.list[0], r.template.body)
      then exists id :: Decide(m.resource, r) == Conclude(Success, StackId(id), Requeued, false, true)
      else Decide(m.resource, r) == Ask(UPDATE)
    ensures Passes(m.resource.spec.value) ==> m.resource.spec.value.role.serviceRoleArn != ""
  {
    StatusGroups(status);
  }

  /** Busy stacks are left alone, and failed ones conclude with Failure, without a call. */
  lemma StatesDecide(m: Memory, status: StackStatus, r: Replies)
    requires m.resource.spec.Some? && Reported(m, r, status)
    ensures status in BUSY ==> Dispatch(m, r) == Stage(m, Some(Requeued))
    ensures status in BROKEN ==>
      Dispatch(m, r).memory.resource.status.state == Failure && Dispatch(m, r).memory.world.calls == m.world.calls
  {
    DispatchTable(m, r);
    StatusGroups(status);
    hide Dispatch, Canonical, IsInProgress, IsComplete, IsFailed;
  }
}
