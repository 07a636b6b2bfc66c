/** When the reconcile loop comes to rest. */
module Convergence {
  import opened Text
  import opened Cloud
  import opened Defaults
  import opened References
  import opened Parameters
  import opened Validations
  import opened Controller
  import opened Safety
  import opened Preparation
  import opened Runs

  /* Quiescence */

  lemma GatedReconcileRests(ck: Checksum, world: World, read: nat, r: Replies)
    requires read < |world.versions| && Gated(ck, world.versions[read].resource)
    ensures Apply(ck, world, ReconcileAt(read, r)) == world
  {
  }

  /** A refused write stores nothing, so a reconcile without writes leaves the store alone. */
  lemma UnsavedStoresNothing(ck: Checksum, m: Memory, r: Replies)
    requires Fits(r, m.resource) && r.saved == {}
    ensures Reconcile(ck, m, r).memory.world.versions == m.world.versions
  {
    if r.get.Found? && !Gated(ck, m.resource) && m.resource.spec.Some? {
      var a := Gate(ck, m).memory;
      UnsavedPreparation(a, r);
      if Prepare(a, r).stop.None? {
        StatusTable(Prepare(a, r).memory, r);
        hide Dispatch, Prepare, StateMeant;
      }
    }
  }

  lemma UnsavedPreparation(m: Memory, r: Replies)
    requires m.resource.spec.Some? && r.saved == {}
    requires forall k :: k in r.order ==> k in m.resource.spec.value.parameters
    ensures Prepare(m, r).memory.world.versions == m.world.versions
  {
    hide AccountIdFromRoleArn, RoleArnOf, Fetch, WriteBack, WithAccountId, WithRoleArn, WithServiceRoleArn,
      WithExternalId;
  }

  lemma StaleStoresNothing(ck: Checksum, world: World, read: nat, r: Replies)
    requires read + 1 < |world.versions|
    ensures Apply(ck, world, ReconcileAt(read, r)).versions == world.versions
  {
    if Readable(world, read, r) {
      UnsavedStoresNothing(ck, StartOf(world, read, r), Writable(world, read, r));
    }
  }

  /** A reconcile of a fixed spec that stored a terminal status has closed the gate behind it. */
  lemma FixedSpecCloses(ck: Checksum, world: World, r: Replies)
    requires world.versions != [] && Fits(r, Latest(world).resource)
    requires var v := Latest(world).resource; v.spec.Some? && Fixed(v.spec.value) && !v.deleting
    ensures var next := Apply(ck, world, ReconcileAt(|world.versions| - 1, r));
      && next.versions != []
      && (next.versions != world.versions && IsTerminal(Latest(next).resource.status.state) ==>
            Gated(ck, Latest(next).resource) && Latest(next).resource.spec == Latest(world).resource.spec)
  {
    hide Work, Justified, Filled, Serviceable, ReferenceFree, Fits;
    var read := |world.versions| - 1;
    var next := Apply(ck, world, ReconcileAt(read, r));
    if r.get.Found? {
      var m := StartOf(world, read, r);
      assert next == Work(ck, m, r).memory.world;
      WorkStores(ck, m, r);
      if next.versions != world.versions {
        assert StoredFrom(ck, m.resource, m.source, Latest(next));
      }
    }
  }

  /** Quiescence. When a reconcile of a fixed, reference-free spec stores a terminal status, no later reconcile stores
      anything, however stale its read, and one that reads the latest version does nothing at all, until the spec is
      edited or deletion is requested. */
  lemma Quiescence(ck: Checksum, world: World, r: Replies, later: seq<Action>)
    requires world.versions != [] && Fits(r, Latest(world).resource)
    requires var v := Latest(world).resource; v.spec.Some? && Fixed(v.spec.value) && !v.deleting
    requires var next := Apply(ck, world, ReconcileAt(|world.versions| - 1, r));
      next.versions != [] && next.versions != world.versions && IsTerminal(Latest(next).resource.status.state)
    requires forall a :: a in later ==> a.ReconcileAt?
    ensures var next := Apply(ck, world, ReconcileAt(|world.versions| - 1, r));
      && Run(ck, next, later).versions == next.versions
      && ((forall a :: a in later ==> a.read + 1 == |next.versions|) ==> Run(ck, next, later) == next)
  {
    FixedSpecCloses(ck, world, r);
    hide Apply, Run, Fixed;
    AtRest(ck, Apply(ck, world, ReconcileAt(|world.versions| - 1, r)), later);
  }

  lemma {:induction false} AtRest(ck: Checksum, world: World, later: seq<Action>)
    requires world.versions != [] && Gated(ck, Latest(world).resource)
    requires forall a :: a in later ==> a.ReconcileAt?
    ensures Run(ck, world, later).versions == world.versions
    ensures (forall a :: a in later ==> a.read + 1 == |world.versions|) ==> Run(ck, world, later) == world
    decreases |later|
  {
    hide Apply, Gated;
    if later != [] {
      RestStep(ck, world, later[0]);
      AtRest(ck, Apply(ck, world, later[0]), later[1..]);
    }
  }

  lemma RestStep(ck: Checksum, world: World, a: Action)
    requires world.versions != [] && Gated(ck, Latest(world).resource) && a.ReconcileAt?
    ensures Apply(ck, world, a).versions == world.versions
    ensures a.read + 1 == |world.versions| ==> Apply(ck, world, a) == world
  {
    if a.read + 1 < |world.versions| {
      StaleStoresNothing(ck, world, a.read, a.replies);
    } else if a.read + 1 == |world.versions| {
      GatedReconcileRests(ck, world, a.read, a.replies);
    }
  }

  /* Convergence against a stack that already is what the spec asks for */

  const ALL_SITES := {RoleSite, AccountSite, ServiceRoleSite, ReferenceSite, OutcomeSite}

  /** No lookup fails or is malformed, and no output is a reference again. */
  ghost predicate StableReferences(m: map<string, string>, stacks: map<string, DescribeReply>) {
    forall k :: k in m ==>
      var r := Resolve(m[k], stacks);
      r.Literal? || r.Unavailable? || (r.Resolved? && ParseReference(r.value).Plain?)
  }

  predicate CallsSucceed(r: Replies) {
    r.get.Found? && r.session.SessionObtained? && r.saved == ALL_SITES && r.events.Events?
  }

  /** All calls succeed, and the named stack is complete with the wanted template and the wanted values. */
  ghost predicate Agreeing(spec: StackSpec, r: Replies) {
    && CallsSucceed(r)
    && (spec.region == "" ==> r.region.Some? && r.region.value != "")
    && OwnStack(spec.stackName, r) && IsComplete(OwnStatus(spec.stackName, r))
    && r.template == TemplateBody(spec.template)
    && StableReferences(spec.parameters, r.stacks)
    && Agrees(r.describe.list[0].parameters, FinalParameters(spec.parameters, r.stacks))
  }

  predicate WellFormed(parameters: map<string, string>) {
    forall k :: k in parameters ==> !ParseReference(parameters[k]).Malformed?
  }

  /** Outputs that resolve every reference to one plain text. */
  function PlainOutputs(order: seq<string>, m: map<string, string>): (outputs: seq<Pair>)
    requires forall k :: k in order ==> k in m
    ensures forall e :: e in outputs ==> e.value == "v"
    ensures forall k :: k in order && ParseReference(m[k]).Reference? ==>
      Pair(ParseReference(m[k]).output, "v") in outputs
  {
    if order == [] then []
    else
      var reference := ParseReference(m[order[0]]);
      (if reference.Reference? then [Pair(reference.output, "v")] else []) + PlainOutputs(order[1..], m)
  }

  /** There are stacks against which every reference of a well-formed map resolves. */
  lemma ResolvingStacks(m: map<string, string>) returns (stacks: map<string, DescribeReply>)
    requires WellFormed(m)
    ensures StableReferences(m, stacks) && AllAvailable(m, stacks)
  {
    var order := Enumeration(m);
    var outputs := PlainOutputs(order, m);
    stacks := map k | k in m && ParseReference(m[k]).Reference? ::
      ParseReference(m[k]).stack := Stacks([StackInfo(ParseReference(m[k]).stack, CreateComplete, [], outputs)]);
    assert ParseReference("v").Plain? by { assert !Occurs("v", SEPARATOR); }
    hide ParseReference, PlainOutputs, FirstValue, Resolve;
    forall k | k in m ensures Resolve(m[k], stacks) in {Literal, Resolved("v")} {
      assert k in order;
      PlainResolution(m[k], stacks, outputs);
    }
  }

  lemma PlainResolution(value: string, stacks: map<string, DescribeReply>, outputs: seq<Pair>)
    requires !ParseReference(value).Malformed? && forall e :: e in outputs ==> e.value == "v"
    requires ParseReference(value).Reference? ==>
      var reference := ParseReference(value);
      && Pair(reference.output, "v") in outputs
      && Describe(stacks, reference.stack) == Stacks([StackInfo(reference.stack, CreateComplete, [], outputs)])
    ensures Resolve(value, stacks) in {Literal, Resolved("v")}
  {
    hide ParseReference;
  }

  /** A spec has an agreeing stack exactly when it names one and none of its references is malformed. */
  lemma AgreeingIff(spec: StackSpec)
    ensures (exists r :: Agreeing(spec, r)) <==> spec.stackName != "" && WellFormed(spec.parameters)
  {
    if r :| Agreeing(spec, r) {
      forall k | k in spec.parameters ensures !ParseReference(spec.parameters[k]).Malformed? {
        hide ParseReference, Agrees;
        assert !Resolve(spec.parameters[k], r.stacks).OutOfRange?;
      }
    }
    if spec.stackName != "" && WellFormed(spec.parameters) {
      var r := AgreeingReply(spec);
      assert Agreeing(spec, r);
    }
  }

  /** An agreeing stack that also resolves every reference. */
  lemma AgreeingReply(spec: StackSpec) returns (r: Replies)
    requires spec.stackName != "" && WellFormed(spec.parameters)
    ensures Agreeing(spec, r) && AllAvailable(spec.parameters, r.stacks)
    ensures Enumerates(r.order, spec.parameters) && Enumerates(r.tagOrder, spec.tags)
  {
    var order := Enumeration(spec.parameters);
    var tagOrder := Enumeration(spec.tags);
    var stacks := ResolvingStacks(spec.parameters);
    hide ParseReference, Canonical, Agrees, StableReferences, FinalParameters, AllAvailable, Enumerates;
    var final := FinalParameters(spec.parameters, stacks);
    CanonicalAgrees(final);
    var stack := StackInfo(spec.stackName, CreateComplete, Canonical(final), []);
    r := Replies(Found, Some("us-west-2"), SessionObtained, order, tagOrder, stacks, Stacks([stack]), Events([]),
      Summaries([]), TemplateBody(spec.template), "", true, true, ALL_SITES);
  }

  /** What CloudFormation says stays the same between two passes. */
  predicate SameStacks(r: Replies, s: Replies) {
    r.stacks == s.stacks && r.describe == s.describe && r.template == s.template
  }

  /** Resolving twice is resolving once. */
  lemma FinalParametersIdempotent(m: map<string, string>, stacks: map<string, DescribeReply>)
    requires StableReferences(m, stacks)
    ensures FinalParameters(FinalParameters(m, stacks), stacks) == FinalParameters(m, stacks)
    ensures StableReferences(FinalParameters(m, stacks), stacks)
  {
    var n := FinalParameters(m, stacks);
    hide ParseReference, StackOutput;
    if AllAvailable(m, stacks) {
      forall k | k in n ensures Resolve(n[k], stacks).Literal? {
        var r := Resolve(m[k], stacks);
        assert Available(r);
      }
    }
  }

  /** Filling and resolving reach a fixed point in one pass, and the stack agrees with that as well. */
  lemma PreparedOnce(spec: StackSpec, r: Replies, s: Replies)
    requires Fillable(spec.role) && Agreeing(spec, r) && CallsSucceed(s) && SameStacks(r, s)
    ensures Agreeing(PreparedSpec(spec, r), s)
    ensures PreparedSpec(PreparedSpec(spec, r), s) == PreparedSpec(spec, r)
    ensures Fillable(PreparedSpec(spec, r).role)
  {
    FillingCompleteIff(spec.role);
    FillingIdempotent(spec.role);
    FillingCompleteIff(Filled(spec.role));
    FinalParametersIdempotent(spec.parameters, r.stacks);
    hide Filled, FillingPanics, FinalParameters, StableReferences, Agrees, IsComplete;
  }

  /** The spec that the passes arrive at needs no further pass exactly when all of its references were resolved. */
  lemma PreparedIsFixed(spec: StackSpec, r: Replies)
    requires Fillable(spec.role) && Agreeing(spec, r)
    ensures Fixed(PreparedSpec(spec, r)) <==> AllAvailable(spec.parameters, r.stacks)
  {
    FillingCompleteIff(spec.role);
    FillingIdempotent(spec.role);
    hide Filled, FillingPanics, ParseReference, StackOutput, Agrees, IsComplete;
    var final := FinalParameters(spec.parameters, r.stacks);
    if AllAvailable(spec.parameters, r.stacks) {
      forall k | k in final ensures ParseReference(final[k]).Plain? {
        assert Available(Resolve(spec.parameters[k], r.stacks));
      }
    } else {
      var k :| k in spec.parameters && !Available(Resolve(spec.parameters[k], r.stacks));
      assert !ParseReference(final[k]).Plain?;
    }
  }

  /** Preparing a fillable spec while all calls succeed stores nothing. */
  lemma CleanPreparation(m: Memory, r: Replies)
    requires m.resource.spec.Some? && Enumerates(r.order, m.resource.spec.value.parameters)
    requires Fillable(m.resource.spec.value.role) && r.session.SessionObtained?
    requires m.resource.spec.value.region == "" ==> r.region.Some?
    requires StableReferences(m.resource.spec.value.parameters, r.stacks)
    ensures Prepare(m, r) == Stage(WithSpec(m, PreparedSpec(m.resource.spec.value, r)), None)
  {
    hide Filled, FillingPanics, Fillable, FinalParameters, StableReferences, SetAssumeRoleProvider, ResolveParameters,
      Enumerates;
    var spec := m.resource.spec.value;
    FillingCompleteIff(spec.role);
    CleanFilling(m, r);
    CleanResolving(WithSpec(m, spec.(
      region := if spec.region == "" then r.region.GetOr("") else spec.region, role := Filled(spec.role))), r);
  }

  lemma CleanFilling(m: Memory, r: Replies)
    requires m.resource.spec.Some? && Fillable(m.resource.spec.value.role)
    requires m.resource.spec.value.region == "" ==> r.region.Some?
    ensures var spec := m.resource.spec.value;
      SetAssumeRoleProvider(m, r) == Stage(WithSpec(m, spec.(
        region := if spec.region == "" then r.region.GetOr("") else spec.region, role := Filled(spec.role))), None)
  {
    var p := m.resource.spec.value.role;
    FillingCompleteIff(p);
    var q := WithRoleArn(p);
    var t := WithAccountId(q);
    var a := FillRegion(m, r.region).memory;
    CleanRoleArn(a, RoleSite in r.saved);
    var b := WithRole(a, q);
    CleanAccountId(b, AccountSite in r.saved);
    var c := WithRole(b, t);
    CleanServiceRoleArn(c, ServiceRoleSite in r.saved);
    hide AccountIdFromRoleArn, RoleArnOf, FillRoleArn, FillAccountId, FillServiceRoleArn, WithRoleArn, WithAccountId,
      WithServiceRoleArn;
  }

  lemma CleanRoleArn(m: Memory, saved: bool)
    requires m.resource.spec.Some? && WithRoleArn(m.resource.spec.value.role).roleArn != ""
    ensures FillRoleArn(m, saved) == Stage(WithRole(m, WithRoleArn(m.resource.spec.value.role)), None)
  {
    hide RoleArnOf;
  }

  lemma CleanAccountId(m: Memory, saved: bool)
    requires m.resource.spec.Some? && WithAccountId(m.resource.spec.value.role).accountId != ""
    ensures FillAccountId(m, saved) == Stage(WithRole(m, WithAccountId(m.resource.spec.value.role)), None)
  {
    hide AccountIdFromRoleArn;
  }

  lemma CleanServiceRoleArn(m: Memory, saved: bool)
    requires m.resource.spec.Some? && WithServiceRoleArn(m.resource.spec.value.role).serviceRoleArn != ""
    ensures FillServiceRoleArn(m, saved) == Stage(WithRole(m, WithServiceRoleArn(m.resource.spec.value.role)), None)
  {
    hide RoleArnOf;
  }

  lemma CleanResolving(m: Memory, r: Replies)
    requires m.resource.spec.Some? && Enumerates(r.order, m.resource.spec.value.parameters)
    requires StableReferences(m.resource.spec.value.parameters, r.stacks)
    ensures var spec := m.resource.spec.value;
      ResolveParameters(m, r)
        == Stage(WithSpec(m, spec.(parameters := FinalParameters(spec.parameters, r.stacks))), None)
  {
    var spec := m.resource.spec.value;
    ResolutionAllOrNothing(r.order, spec.parameters, r.stacks);
    FetchEnding(r.order, spec.parameters, r.stacks);
    var fetched := Fetch(r.order, spec.parameters, r.stacks);
    assert After(spec.parameters, fetched) == FinalParameters(spec.parameters, r.stacks);
  }

  /** A reconcile that reads the latest version. */
  ghost function Pass(ck: Checksum, world: World, r: Replies): World
    requires world.versions != []
  {
    Apply(ck, world, ReconcileAt(|world.versions| - 1, r))
  }

  lemma PassIsWork(ck: Checksum, world: World, r: Replies)
    requires world.versions != [] && Fits(r, Latest(world).resource) && r.get.Found?
    ensures Pass(ck, world, r) == Work(ck, StartOf(world, |world.versions| - 1, r), r).memory.world
  {
    hide Work;
  }

  lemma GatedPass(ck: Checksum, world: World, r: Replies)
    requires world.versions != [] && Gated(ck, Latest(world).resource)
    ensures Pass(ck, world, r) == world
  {
    hide Apply, Gated;
    GatedReconcileRests(ck, world, |world.versions| - 1, r);
  }

  /** No change set stands in the way: either no update is awaited, or the listing succeeds and starts with none that
      is pending, being created, ready or failed. */
  predicate Unawaited(state: State, r: Replies) {
    state.UpdateInProgress? ==>
      r.changeSets.Summaries? && forall s :: s in {Pending, BeingCreated, Ready, Unsuccessful} ==> !HeadIs(r, s)
  }

  /** An agreeing stack counts as deployed exactly when no change set stands in the way. */
  lemma AgreeingMeansDeployed(spec: StackSpec, b: Memory, r: Replies)
    requires Agreeing(spec, r) && b.resource.spec == Some(PreparedSpec(spec, r))
    ensures MeansDeployed(b, r) <==> Unawaited(b.resource.status.state, r)
  {
    hide Filled, FinalParameters, StableReferences;
  }

  /** The dispatch of one pass over an agreeing stack. */
  lemma AgreeingDispatch(b: Memory, r: Replies)
    requires b.resource.spec.Some? && MeansDeployed(b, r) && OutcomeSite in r.saved
    ensures var o := Dispatch(b, r).memory;
      && o.world.calls == b.world.calls && o.world.versions == b.world.versions + [Version(o.resource, o.source)]
      && o.resource.spec == b.resource.spec && o.resource.deleting == b.resource.deleting
      && o.resource.status.state == Success && o.resource.status.checksum == b.resource.status.checksum
  {
    StatusTable(b, r);
    CallTable(b, r);
    hide Dispatch;
  }

  /** One pass over an agreeing stack: it stores Success with the prepared spec, under the checksum of the spec that
      was read, and asks CloudFormation for nothing. */
  lemma AgreeingPass(ck: Checksum, world: World, spec: StackSpec, r: Replies)
    requires world.versions != [] && Fits(r, Latest(world).resource) && Latest(world).resource.spec == Some(spec)
    requires Fillable(spec.role) && Agreeing(spec, r)
    requires var v := Latest(world).resource;
      !v.deleting && Unawaited(v.status.state, r) && !Gated(ck, v)
    ensures var next := Pass(ck, world, r);
      && next.calls == world.calls && |next.versions| == |world.versions| + 1
      && Latest(next).resource.spec == Some(PreparedSpec(spec, r)) && !Latest(next).resource.deleting
      && Latest(next).resource.status.state == Success && Latest(next).resource.status.checksum == ck(Some(spec))
  {
    PassIsWork(ck, world, r);
    hide Work, Pass, Agreeing, PreparedSpec, Fillable;
    AgreeingWork(ck, StartOf(world, |world.versions| - 1, r), spec, r);
  }

  lemma AgreeingWork(ck: Checksum, m: Memory, spec: StackSpec, r: Replies)
    requires Fits(r, m.resource) && m.resource.spec == Some(spec) && Fillable(spec.role) && Agreeing(spec, r)
    requires Unawaited(m.resource.status.state, r) && !Gated(ck, m.resource)
    ensures var o := Work(ck, m, r).memory;
      && o.world.calls == m.world.calls && o.world.versions == m.world.versions + [Version(o.resource, o.source)]
      && o.resource.spec == Some(PreparedSpec(spec, r)) && o.resource.deleting == m.resource.deleting
      && o.resource.status.state == Success && o.resource.status.checksum == ck(Some(spec))
  {
    hide Dispatch, Prepare, PreparedSpec, Fillable, MeansDeployed, StableReferences;
    var a := Gate(ck, m).memory;
    CleanPreparation(a, r);
    var b := WithSpec(a, PreparedSpec(spec, r));
    assert Work(ck, m, r) == Dispatch(b, r);
    AgreeingMeansDeployed(spec, b, r);
    AgreeingDispatch(b, r);
  }

  /** Convergence. Against an unchanging complete stack that agrees with the resolved spec, the third reconcile does
      nothing, whatever it would be told: filling and resolving change the spec after its checksum was taken, but only
      once. The second pass acts exactly when that change shows in the checksum. A resource whose gate is closed at the
      start rests from the first pass on. */
  lemma ThreePasses(ck: Checksum, world: World, spec: StackSpec, r1: Replies, r2: Replies, r3: Replies)
    requires world.versions != [] && Fits(r1, Latest(world).resource) && Latest(world).resource.spec == Some(spec)
    requires Fillable(spec.role) && Agreeing(spec, r1) && CallsSucceed(r2) && SameStacks(r1, r2)
    requires var v := Latest(world).resource;
      && !v.deleting && Unawaited(v.status.state, r1)
      && Fits(r2, v.(spec := Some(PreparedSpec(spec, r1))))
    ensures var first := Pass(ck, world, r1);
      && first.versions != []
      && var second := Pass(ck, first, r2);
      && second.versions != []
      && second.calls == world.calls
      && Pass(ck, second, r3) == second
      && if Gated(ck, Latest(world).resource) then second == world
         else
           && Latest(second).resource.status.state == Success
           && Latest(second).resource.spec == Some(PreparedSpec(spec, r1))
           && (second == first <==> ck(Some(PreparedSpec(spec, r1))) == ck(Some(spec)))
  {
    if Gated(ck, Latest(world).resource) {
      GatedPass(ck, world, r1);
      GatedPass(ck, world, r2);
      GatedPass(ck, world, r3);
    } else {
      AgreeingPasses(ck, world, spec, r1, r2);
      GatedPass(ck, Pass(ck, Pass(ck, world, r1), r2), r3);
    }
    hide Pass, PreparedSpec, Agreeing, Fillable;
  }

  lemma AgreeingPasses(ck: Checksum, world: World, spec: StackSpec, r1: Replies, r2: Replies)
    requires world.versions != [] && Fits(r1, Latest(world).resource) && Latest(world).resource.spec == Some(spec)
    requires Fillable(spec.role) && Agreeing(spec, r1) && CallsSucceed(r2) && SameStacks(r1, r2)
    requires var v := Latest(world).resource;
      && !v.deleting && Unawaited(v.status.state, r1) && !Gated(ck, v)
      && Fits(r2, v.(spec := Some(PreparedSpec(spec, r1))))
    ensures var first := Pass(ck, world, r1);
      && first.versions != []
      && var second := Pass(ck, first, r2);
      && second.versions != [] && second.calls == world.calls
      && Gated(ck, Latest(second).resource)
      && Latest(second).resource.status.state == Success
      && Latest(second).resource.spec == Some(PreparedSpec(spec, r1))
      && (second == first <==> ck(Some(PreparedSpec(spec, r1))) == ck(Some(spec)))
  {
    AgreeingPass(ck, world, spec, r1);
    hide Pass, PreparedSpec, Agreeing, Fillable;
    var first := Pass(ck, world, r1);
    PreparedOnce(spec, r1, r2);
    if Gated(ck, Latest(first).resource) {
      GatedPass(ck, first, r2);
    } else {
      AgreeingPass(ck, first, PreparedSpec(spec, r1), r2);
    }
  }

  /** Such passes exist for every fillable spec that has an agreeing stack, however many references it holds: a new
      resource arrives at Success with all of them resolved, and stays there. */
  lemma ConvergenceHappens(ck: Checksum, spec: StackSpec) returns (r: Replies)
    requires Fillable(spec.role) && spec.stackName != "" && WellFormed(spec.parameters)
    ensures Agreeing(spec, r) && Fixed(PreparedSpec(spec, r))
    ensures var first := Pass(ck, Start(Some(spec)), r);
      && first.versions != []
      && var second := Pass(ck, first, r);
      && second.versions != [] && second.calls == []
      && Latest(second).resource.status.state == Success
      && Latest(second).resource.spec == Some(PreparedSpec(spec, r))
      && Pass(ck, second, r) == second
  {
    r := AgreeingReply(spec);
    ResolutionAllOrNothing(r.order, spec.parameters, r.stacks);
    assert Fits(r, Resource(Some(PreparedSpec(spec, r)), BLANK_STATUS, false));
    hide Pass, PreparedSpec, Fillable, Fixed, Enumerates;
    PreparedIsFixed(spec, r);
    ThreePasses(ck, Start(Some(spec)), spec, r, r, r);
  }
}
