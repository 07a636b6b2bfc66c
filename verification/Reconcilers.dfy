/** The controller as it runs: it changes the resource in memory, writes versions, and records calls and counts.
    Every method is tied to the function of Controller that specifies it. */
module Reconcilers {
  import opened Text
  import opened Cloud
  import opened Defaults
  import opened References
  import opened Parameters
  import opened Validations
  import opened Controller

  /** The resource as one reconcile holds it in memory. */
  class CloudResource {
    var spec: Option<StackSpec>
    var status: Status
    const deleting: bool
    /** What this reconcile read; recorded with every version it writes. */
    const source: Source

    function Value(): Resource
      reads this
    {
      Resource(spec, status, deleting)
    }

    constructor (resource: Resource, source: Source)
      ensures Value() == resource && this.source == source
    {
      spec, status, deleting := resource.spec, resource.status, resource.deleting;
      this.source := source;
    }
  }

  class CloudResourceDeploymentReconciler {
    var versions: seq<Version>
    var calls: seq<Call>
    var failed: multiset<Label>
    var succeeded: multiset<Label>

    function WorldNow(): World
      reads this
    {
      World(versions, calls, failed, succeeded)
    }

    function MemoryNow(w: CloudResource): Memory
      reads this, w
    {
      Memory(w.Value(), w.source, WorldNow())
    }

    constructor (resource: Resource)
      ensures WorldNow() == World([Version(resource, Unreconciled)], [], multiset{}, multiset{})
    {
      versions, calls, failed, succeeded := [Version(resource, Unreconciled)], [], multiset{}, multiset{};
    }

    /** Writes the whole resource back, spec and status; err tells that the API server refused. */
    method Update(w: CloudResource, saved: bool) returns (err: bool)
      modifies this`versions
      ensures MemoryNow(w) == Save(old(MemoryNow(w)), saved) && err == !saved
    {
      if saved {
        versions := versions + [Version(w.Value(), w.source)];
      }
      err := !saved;
    }

    method SetStatus(w: CloudResource, state: State, message: Message)
      modifies w`status
      ensures MemoryNow(w) == WithState(old(MemoryNow(w)), state, message)
    {
      w.status := w.status.(message := message);
      w.status := w.status.(state := state);
    }

    method IncFailed(w: CloudResource)
      requires w.spec.Some?
      modifies this`failed
      ensures MemoryNow(w) == CountFailed(old(MemoryNow(w)))
    {
      failed := failed + multiset{Label(w.spec.value.role.accountId, w.spec.value.stackName)};
    }

    method IncSucceeded(w: CloudResource)
      requires w.spec.Some?
      modifies this`succeeded
      ensures MemoryNow(w) == CountSucceeded(old(MemoryNow(w)))
    {
      succeeded := succeeded + multiset{Label(w.spec.value.role.accountId, w.spec.value.stackName)};
    }

    method ValidateOrUpdateChecksum(ck: Checksum, w: CloudResource) returns (updated: bool)
      modifies w`status
      ensures Gate(ck, old(MemoryNow(w))) == Stage(MemoryNow(w), if updated then None else Some(Ended))
    {
      var newChecksum := ck(w.spec);
      if w.status.checksum == newChecksum {
        if IsTerminal(w.status.state) && !w.deleting {
          return false;
        }
      }
      w.status := w.status.(checksum := newChecksum);
      updated := true;
    }

    /** The failure block that each filling step repeats; goOn is false when the write was refused. */
    method FillingFailed(w: CloudResource, message: Message, saved: bool) returns (goOn: bool)
      modifies this`versions, w`status
      ensures FillingFails(old(MemoryNow(w)), message, saved) == Stage(MemoryNow(w), if goOn then None else Some(Ended))
    {
      SetStatus(w, Failure, message);
      var err := Update(w, saved);
      goOn := !err;
    }

    method RegionStep(w: CloudResource, region: Option<string>) returns (stop: Option<End>)
      requires w.spec.Some?
      modifies w`spec
      ensures FillRegion(old(MemoryNow(w)), region) == Stage(MemoryNow(w), stop)
    {
      if w.spec.value.region == "" {
        if region == None {
          return Some(Ended);
        }
        w.spec := Some(w.spec.value.(region := region.value));
      }
      stop := None;
    }

    method RoleArnStep(w: CloudResource, saved: bool) returns (stop: Option<End>)
      requires w.spec.Some?
      modifies this`versions, w`status, w`spec
      ensures FillRoleArn(old(MemoryNow(w)), saved) == Stage(MemoryNow(w), stop)
    {
      var p := w.spec.value.role;
      if p.roleArn == "" {
        var arn := RoleArn(p.accountId);
        if arn == None {
          var goOn := FillingFailed(w, RoleArnMissing, saved);
          return if goOn then None else Some(Ended);
        }
        w.spec := Some(w.spec.value.(role := p.(roleArn := arn.value)));
      }
      stop := None;
    }

    method AccountIdStep(w: CloudResource, saved: bool) returns (stop: Option<End>)
      requires w.spec.Some?
      modifies this`versions, w`status, w`spec
      ensures FillAccountId(old(MemoryNow(w)), saved) == Stage(MemoryNow(w), stop)
    {
      var p := w.spec.value.role;
      if p.accountId == "" {
        var answer := AccountIdFromRoleArn(p.roleArn);
        match answer
        case NoSeparator =>
          return Some(Recovered);
        case RoleBlank =>
          var goOn := FillingFailed(w, AccountIdMissing, saved);
          return if goOn then None else Some(Ended);
        case Account(id) =>
          w.spec := Some(w.spec.value.(role := p.(accountId := id)));
      }
      stop := None;
    }

    method ServiceRoleArnStep(w: CloudResource, saved: bool) returns (stop: Option<End>)
      requires w.spec.Some?
      modifies this`versions, w`status, w`spec
      ensures FillServiceRoleArn(old(MemoryNow(w)), saved) == Stage(MemoryNow(w), stop)
    {
      var p := w.spec.value.role;
      if p.serviceRoleArn == "" {
        var arn := ServiceRoleArn(p.accountId);
        if arn == None {
          var goOn := FillingFailed(w, ServiceRoleArnMissing, saved);
          return if goOn then None else Some(Ended);
        }
        w.spec := Some(w.spec.value.(role := p.(serviceRoleArn := arn.value)));
      }
      stop := None;
    }

    method FillAssumeRoleProvider(w: CloudResource, r: Replies) returns (stop: Option<End>)
      requires w.spec.Some?
      modifies this`versions, w`status, w`spec
      ensures SetAssumeRoleProvider(old(MemoryNow(w)), r) == Stage(MemoryNow(w), stop)
    {
      stop := RegionStep(w, r.region);
      if stop.Some? { return; }
      stop := RoleArnStep(w, RoleSite in r.saved);
      if stop.Some? { return; }
      stop := AccountIdStep(w, AccountSite in r.saved);
      if stop.Some? { return; }
      stop := ServiceRoleArnStep(w, ServiceRoleSite in r.saved);
      if stop.Some? { return; }
      var p := w.spec.value.role;
      if p.externalId == "" {
        w.spec := Some(w.spec.value.(role := p.(externalId := "cloudresource-" + p.accountId + "-" + p.environment)));
      }
    }

    /** Fetches the referenced outputs and writes them into the parameter map, one key at a time. */
    method ResolveReferences(w: CloudResource, r: Replies) returns (stop: Option<End>)
      requires w.spec.Some?
      requires forall k :: k in r.order ==> k in w.spec.value.parameters
      modifies this`versions, w`status, w`spec
      ensures ResolveParameters(old(MemoryNow(w)), r) == Stage(MemoryNow(w), stop)
    {
      if w.spec.value.parameters == map[] {
        return None;
      }
      var fetched := FetchReferenceResources(r.order, w.spec.value.parameters, r.stacks);
      match fetched
      case Panicked =>
        stop := Some(Recovered);
      case Failed =>
        SetStatus(w, Failure, ReferencesNotFetched);
        var err := Update(w, ReferenceSite in r.saved);
        stop := if err then Some(Errored) else None;
      case Nothing =>
        stop := None;
      case Values(list) =>
        ghost var before := w.spec.value;
        for i := 0 to |list|
          invariant w.spec.Some? && w.spec.value == before.(parameters := w.spec.value.parameters)
          invariant WriteBack(before.parameters, list) == WriteBack(w.spec.value.parameters, list[i..])
          modifies w`spec
        {
          assert list[i..][0] == list[i] && list[i..][1..] == list[i + 1..];
          w.spec := Some(w.spec.value.(parameters := w.spec.value.parameters[list[i].key := list[i].value]));
        }
        stop := None;
    }

    /** CreateChangeSet; the call is recorded only when it leaves the controller. */
    method CreateChangeSetCall(w: CloudResource, name: string, kind: ChangeSetKind, r: Replies) returns (ok: bool)
      requires w.spec.Some? && Fits(r, w.Value())
      modifies this`calls
      ensures CreateChangeSet(old(MemoryNow(w)), name, kind, r.createAccepted) == (MemoryNow(w), ok)
    {
      var spec := w.spec.value;
      var parameters := StackParameters(r.order, spec.parameters);
      var tags := StackTags(r.tagOrder, spec.tags);
      if spec.role.serviceRoleArn == "" {
        return true;
      }
      if !ValidInput(spec) {
        return false;
      }
      calls := calls + [Create(name, spec.stackName, spec.template, parameters, tags, spec.role.serviceRoleArn, kind,
                               r.createAccepted)];
      ok := r.createAccepted;
    }

    method Propose(w: CloudResource, kind: ChangeSetKind, r: Replies) returns (end: End)
      requires w.spec.Some? && Fits(r, w.Value())
      modifies this, w`status
      ensures Controller.Propose(old(MemoryNow(w)), kind, r) == Stage(MemoryNow(w), Some(end))
    {
      var name := ChangeSetName(w.spec.value, r.uuid);
      w.status := w.status.(changeSetName := name);
      var ok := CreateChangeSetCall(w, name, kind, r);
      if !ok {
        SetStatus(w, Failure, ChangeSetNotCreated);
        IncFailed(w);
        var _ := Update(w, OutcomeSite in r.saved);
        return Errored;
      }
      if kind == UPDATE {
        SetStatus(w, State.UpdateInProgress, UpdateChangeSetInProgress);
      } else {
        SetStatus(w, State.InProgress, CreateChangeSetInProgress);
      }
      var err := Update(w, OutcomeSite in r.saved);
      end := if err then Errored else Requeued;
    }

    method ExecuteChangeSetCall(w: CloudResource, accepted: bool) returns (ok: bool)
      requires w.spec.Some?
      modifies this`calls
      ensures ExecuteChangeSet(old(MemoryNow(w)), accepted) == (MemoryNow(w), ok)
    {
      if !ExecutionLeaves(w.spec.value.stackName, w.status.changeSetName) {
        return false;
      }
      calls := calls + [Execute(w.spec.value.stackName, w.status.changeSetName, accepted)];
      ok := accepted;
    }

    method Carry(w: CloudResource, r: Replies) returns (end: End)
      requires w.spec.Some?
      modifies this, w`status
      ensures Controller.Carry(old(MemoryNow(w)), r) == Stage(MemoryNow(w), Some(end))
    {
      var ok := ExecuteChangeSetCall(w, r.executeAccepted);
      if !ok {
        SetStatus(w, Failure, ChangeSetNotExecuted);
        IncFailed(w);
        var _ := Update(w, OutcomeSite in r.saved);
        return Errored;
      }
      SetStatus(w, State.InProgress, ExecuteChangeSetInProgress);
      var err := Update(w, OutcomeSite in r.saved);
      end := if err then Errored else Requeued;
    }

    method CheckForRequeue(w: CloudResource, c: CfnValidationResult, reported: seq<Pair>, r: Replies) returns (end: End)
      requires w.spec.Some? && Fits(r, w.Value())
      modifies this, w`status
      ensures Controller.CheckForRequeue(old(MemoryNow(w)), c.Value(), reported, r) == Stage(MemoryNow(w), Some(end))
    {
      if c.requeue {
        return Requeued;
      }
      var saved := OutcomeSite in r.saved;
      if c.present && c.status == Verdict.Failed {
        SetStatus(w, Failure, StackFailed(w.spec.value.stackName, c.messages));
        IncFailed(w);
        var _ := Update(w, saved);
        return Errored;
      }
      if c.present && c.status == Complete {
        match r.template {
          case TemplateFailed =>
            IncFailed(w);
            SetStatus(w, Failure, TemplateNotRead);
            var err := Update(w, saved);
            return if err then Errored else Recovered;
          case TemplateAbsent =>
            return Recovered;
          case TemplateBody(body) =>
            if body == w.spec.value.template {
              var wanted := StackParameters(r.order, w.spec.value.parameters);
              var equal := CompareStackParams(reported, wanted);
              ComparisonIsAgreement(reported, w.spec.value.parameters);
              if equal {
                SetStatus(w, Success, StackId(c.stackId));
                IncSucceeded(w);
                var err := Update(w, saved);
                return if err then Errored else Requeued;
              }
            }
        }
      }
      if c.rollbackComplete {
        SetStatus(w, Success, StackId(c.stackId));
        var err := Update(w, saved);
        return if err then Errored else Requeued;
      }
      if c.present && !c.exech {
        end := Propose(w, UPDATE, r);
      } else if !c.present && !c.exech {
        end := Propose(w, CREATE, r);
      } else if c.present && c.exech {
        end := Carry(w, r);
      } else {
        end := Requeued;
      }
    }

    /** Reconcile, reading one stored version out of a cache that may be stale. */
    method Reconcile(ck: Checksum, read: nat, r: Replies) returns (end: End)
      requires Readable(WorldNow(), read, r)
      modifies this
      ensures ReconcileFrom(ck, old(WorldNow()), read, r).memory.world == WorldNow()
      ensures ReconcileFrom(ck, old(WorldNow()), read, r).stop == Some(end)
    {
      var replies := Writable(WorldNow(), read, r);
      match r.get
      case NotFound =>
        return Ended;
      case GetFailed =>
        return Errored;
      case Found =>
        var w := new CloudResource(versions[read].resource, Reconciled(versions[read].resource, replies));
        end := Work(ck, w, replies);
    }

    method Prepare(w: CloudResource, r: Replies) returns (stop: Option<End>)
      requires w.spec.Some? && Fits(r, w.Value())
      modifies this`versions, w`status, w`spec
      ensures Controller.Prepare(old(MemoryNow(w)), r) == Stage(MemoryNow(w), stop)
      ensures Keeps(old(MemoryNow(w)), MemoryNow(w))
    {
      PreparingKeeps(MemoryNow(w), r);
      stop := FillAssumeRoleProvider(w, r);
      if stop.Some? {
        return;
      }
      if r.session.SessionPanics? {
        return Some(Recovered);
      }
      if r.session.SessionDenied? || w.spec.value.role.roleArn == "" {
        return Some(Ended);
      }
      stop := ResolveReferences(w, r);
    }

    method Work(ck: Checksum, w: CloudResource, r: Replies) returns (end: End)
      requires Fits(r, w.Value())
      modifies this, w
      ensures Controller.Work(ck, old(MemoryNow(w)), r) == Stage(MemoryNow(w), Some(end))
    {
      var updated := ValidateOrUpdateChecksum(ck, w);
      if !updated {
        return Ended;
      }
      if w.spec == None {
        return Crashed;
      }
      var stop := Prepare(w, r);
      if stop.Some? {
        return stop.value;
      }
      var c, reported := ValidateIfStackExistsWithSameName(w.spec.value.stackName, w.status.state, r);
      if c == null {
        return Recovered;
      }
      end := CheckForRequeue(w, c, reported, r);
    }
  }
}
