/** The stages before the dispatch: their closed form on the spec, and the versions they store. */
module Preparation {
  import opened Text
  import opened Cloud
  import opened Defaults
  import opened References
  import opened Parameters
  import opened Controller

  /** Filling and resolving in one step. */
  ghost function PreparedSpec(spec: StackSpec, r: Replies): StackSpec {
    spec.(
      region := if spec.region == "" then r.region.GetOr("") else spec.region,
      role := Filled(spec.role),
      parameters := FinalParameters(spec.parameters, r.stacks))
  }

  predicate ReferenceFree(parameters: map<string, string>) {
    forall k :: k in parameters ==> ParseReference(parameters[k]).Plain?
  }

  /** The spec is a fixed point of filling and holds no reference. */
  predicate Fixed(spec: StackSpec) {
    spec.region != "" && Filled(spec.role) == spec.role && ReferenceFree(spec.parameters)
  }

  /** What keeps the service role from staying empty: a service role, a non-blank account, or no account next to a
      role ARN that yields one. Without any role ARN the session fails first. */
  predicate Serviceable(p: RoleProvider) {
    || p.serviceRoleArn != ""
    || TrimSpace(p.accountId) != ""
    || (p.accountId == "" && (p.roleArn == "" || match AccountIdFromRoleArn(p.roleArn)
          case RoleBlank => false
          case NoSeparator => true
          case Account(id) => TrimSpace(id) != ""))
  }

  /** When a session is possible, the filled service role is empty exactly for sections that are not serviceable. */
  lemma ServiceRoleIff(p: RoleProvider)
    requires !FillingPanics(p) && Filled(p).roleArn != ""
    ensures Filled(p).serviceRoleArn != "" <==> Serviceable(p)
  {
    assert TrimSpace("") == "";
    var q := WithAccountId(WithRoleArn(p));
    assert Filled(p).serviceRoleArn == WithServiceRoleArn(q).serviceRoleArn;
    if p.accountId == "" { assert WithRoleArn(p) == p; }
  }

  lemma ServiceableFields(p: RoleProvider, q: RoleProvider)
    requires (q.serviceRoleArn, q.accountId, q.roleArn) == (p.serviceRoleArn, p.accountId, p.roleArn)
    ensures Serviceable(p) == Serviceable(q)
  {
  }

  lemma ServiceableKept(p: RoleProvider)
    requires Serviceable(p)
    ensures Serviceable(WithRoleArn(p)) && Serviceable(WithAccountId(p))
    ensures Serviceable(WithServiceRoleArn(p)) && Serviceable(WithExternalId(p))
  {
    hide AccountIdFromRoleArn, TrimSpace, WithAccountId;
    AccountServiceable(p);
    ServiceableFields(p, WithExternalId(p));
    var q := WithServiceRoleArn(p);
    if q != p { assert q.serviceRoleArn != ""; }
    assert p.accountId == "" ==> WithRoleArn(p) == p;
  }

  lemma AccountServiceable(p: RoleProvider)
    requires Serviceable(p)
    ensures Serviceable(WithAccountId(p))
    ensures RoleArn("") == None
  {
    hide AccountIdFromRoleArn, TrimSpace;
    EmptyTexts();
  }

  lemma EmptyTexts()
    ensures TrimSpace("") == "" && AccountIdFromRoleArn("").RoleBlank?
  {
  }

  lemma FixedSteps(p: RoleProvider)
    requires Filled(p) == p
    ensures WithRoleArn(p) == p && WithAccountId(p) == p && WithServiceRoleArn(p) == p && WithExternalId(p) == p
  {
    var a := WithRoleArn(p);
    var b := WithAccountId(a);
    var c := WithServiceRoleArn(b);
    assert a.roleArn == b.roleArn == c.roleArn == p.roleArn;
    assert b.accountId == c.accountId == p.accountId;
    assert c.serviceRoleArn == p.serviceRoleArn;
  }

  /** How one stage leads from m to o: the state stays or becomes Failure, every version it stores is a Failure with
      the checksum and the source of m, and serviceable or fixed specs stay so. */
  ghost predicate Prepares(m: Memory, o: Memory) {
    && m.resource.spec.Some? && o.resource.spec.Some?
    && (o.resource.status.state == m.resource.status.state || o.resource.status.state == Failure)
    && SpecKept(m.resource.spec.value, o.resource.spec.value)
    && m.world.versions <= o.world.versions
    && forall k :: |m.world.versions| <= k < |o.world.versions| ==> StoredBy(m, o.world.versions[k])
  }

  ghost predicate SpecKept(s: StackSpec, t: StackSpec) {
    && (Serviceable(s.role) ==> Serviceable(t.role))
    && (Fixed(s) ==> t == s)
  }

  ghost predicate StoredBy(m: Memory, v: Version)
    requires m.resource.spec.Some?
  {
    && v.source == m.source && v.resource.status.state == Failure
    && v.resource.status.checksum == m.resource.status.checksum
    && v.resource.deleting == m.resource.deleting
    && v.resource.spec.Some? && SpecKept(m.resource.spec.value, v.resource.spec.value)
  }

  lemma PreparesTransitive(a: Memory, b: Memory, c: Memory)
    requires Prepares(a, b) && Prepares(b, c) && Keeps(a, b)
    ensures Prepares(a, c)
  {
    forall k | |a.world.versions| <= k < |c.world.versions| ensures StoredBy(a, c.world.versions[k]) {
      if k < |b.world.versions| { assert c.world.versions[k] == b.world.versions[k]; }
    }
  }

  lemma RoleKept(s: StackSpec, role: RoleProvider)
    requires role in {WithRoleArn(s.role), WithAccountId(s.role), WithServiceRoleArn(s.role), WithExternalId(s.role)}
    ensures SpecKept(s, s.(role := role))
  {
    if Serviceable(s.role) { ServiceableKept(s.role); }
    if Fixed(s) { FixedSteps(s.role); }
  }

  lemma RolePrepares(m: Memory, role: RoleProvider)
    requires m.resource.spec.Some?
    requires SpecKept(m.resource.spec.value, m.resource.spec.value.(role := role))
    ensures Prepares(m, WithRole(m, role))
  {
  }

  lemma FailurePrepares(m: Memory, message: Message, saved: bool)
    requires m.resource.spec.Some?
    ensures Prepares(m, Save(WithState(m, Failure, message), saved))
  {
  }

  lemma FillRegionPrepares(m: Memory, region: Option<string>)
    requires m.resource.spec.Some?
    ensures Prepares(m, FillRegion(m, region).memory)
  {
  }

  lemma FillRoleArnPrepares(m: Memory, saved: bool)
    requires m.resource.spec.Some?
    ensures Prepares(m, FillRoleArn(m, saved).memory)
  {
    var spec := m.resource.spec.value;
    FailurePrepares(m, RoleArnMissing, saved);
    RoleKept(spec, WithRoleArn(spec.role));
    RolePrepares(m, WithRoleArn(spec.role));
  }

  lemma FillAccountIdPrepares(m: Memory, saved: bool)
    requires m.resource.spec.Some?
    ensures Prepares(m, FillAccountId(m, saved).memory)
  {
    hide AccountIdFromRoleArn, Prepares, SpecKept;
    var spec := m.resource.spec.value;
    FailurePrepares(m, AccountIdMissing, saved);
    RoleKept(spec, WithAccountId(spec.role));
    RolePrepares(m, WithAccountId(spec.role));
  }

  lemma FillServiceRoleArnPrepares(m: Memory, saved: bool)
    requires m.resource.spec.Some?
    ensures Prepares(m, FillServiceRoleArn(m, saved).memory)
  {
    var spec := m.resource.spec.value;
    FailurePrepares(m, ServiceRoleArnMissing, saved);
    RoleKept(spec, WithServiceRoleArn(spec.role));
    RolePrepares(m, WithServiceRoleArn(spec.role));
  }

  lemma FillExternalIdPrepares(m: Memory)
    requires m.resource.spec.Some?
    ensures Prepares(m, FillExternalId(m).memory)
  {
    var spec := m.resource.spec.value;
    RoleKept(spec, WithExternalId(spec.role));
    RolePrepares(m, WithExternalId(spec.role));
  }

  lemma FillingPrepares(m: Memory, r: Replies)
    requires m.resource.spec.Some?
    ensures Prepares(m, SetAssumeRoleProvider(m, r).memory)
  {
    var a := FillRegion(m, r.region);
    FillRegionPrepares(m, r.region);
    if a.stop.Some? { return; }
    var b := FillRoleArn(a.memory, RoleSite in r.saved);
    FillRoleArnPrepares(a.memory, RoleSite in r.saved);
    PreparesTransitive(m, a.memory, b.memory);
    if b.stop.Some? { return; }
    var c := FillAccountId(b.memory, AccountSite in r.saved);
    FillAccountIdPrepares(b.memory, AccountSite in r.saved);
    PreparesTransitive(m, b.memory, c.memory);
    if c.stop.Some? { return; }
    var d := FillServiceRoleArn(c.memory, ServiceRoleSite in r.saved);
    FillServiceRoleArnPrepares(c.memory, ServiceRoleSite in r.saved);
    PreparesTransitive(m, c.memory, d.memory);
    if d.stop.Some? { return; }
    FillExternalIdPrepares(d.memory);
    PreparesTransitive(m, d.memory, FillExternalId(d.memory).memory);
  }

  /** Without references nothing is fetched. */
  lemma {:induction false} NothingToFetch(order: seq<string>, m: map<string, string>,
      stacks: map<string, DescribeReply>)
    requires ReferenceFree(m) && forall k :: k in order ==> k in m
    ensures Fetch(order, m, stacks) == Values([])
  {
    if order != [] { NothingToFetch(order[1..], m, stacks); }
  }

  lemma ResolvingPrepares(m: Memory, r: Replies)
    requires m.resource.spec.Some? && forall k :: k in r.order ==> k in m.resource.spec.value.parameters
    ensures Prepares(m, ResolveParameters(m, r).memory)
  {
    var spec := m.resource.spec.value;
    FailurePrepares(m, ReferencesNotFetched, ReferenceSite in r.saved);
    if ReferenceFree(spec.parameters) { NothingToFetch(r.order, spec.parameters, r.stacks); }
    hide Fetch, ReferenceFree, Prepares, WriteBack;
    var f := Fetch(r.order, spec.parameters, r.stacks);
    ParametersPrepare(m, spec.parameters);
    if f.Values? { ParametersPrepare(m, WriteBack(spec.parameters, f.list)); }
  }

  lemma ParametersPrepare(m: Memory, parameters: map<string, string>)
    requires m.resource.spec.Some?
    requires ReferenceFree(m.resource.spec.value.parameters) ==> parameters == m.resource.spec.value.parameters
    ensures Prepares(m, WithSpec(m, m.resource.spec.value.(parameters := parameters)))
  {
  }

  /** Whatever happens before the dispatch, only Failures with the new checksum are stored, and a fixed spec is
      stored unchanged. */
  lemma PreparationStoresFailures(m: Memory, r: Replies)
    requires m.resource.spec.Some? && forall k :: k in r.order ==> k in m.resource.spec.value.parameters
    ensures Prepares(m, Prepare(m, r).memory)
  {
    FillingPrepares(m, r);
    var a := SetAssumeRoleProvider(m, r);
    if a.stop.None? && Session(a.memory, r).stop.None? {
      ResolvingPrepares(a.memory, r);
      PreparesTransitive(m, a.memory, ResolveParameters(a.memory, r).memory);
    }
  }

  /** A preparation that reaches its end has computed the closed form, through all its intermediate writes. */
  lemma PreparationClosedForm(m: Memory, r: Replies)
    requires m.resource.spec.Some? && Enumerates(r.order, m.resource.spec.value.parameters)
    requires Prepare(m, r).stop.None?
    ensures Prepare(m, r).memory.resource.spec == Some(PreparedSpec(m.resource.spec.value, r))
    ensures !FillingPanics(m.resource.spec.value.role)
    ensures PreparedSpec(m.resource.spec.value, r).role.roleArn != ""
  {
    hide Filled, FillingPanics, Fetch, FinalParameters, FillRegion, FillRoleArn, FillAccountId, FillServiceRoleArn;
    FillingClosedForm(m, r);
    var a := SetAssumeRoleProvider(m, r);
    ResolvingClosedForm(a.memory, r);
  }

  /** When a resolution lets the reconcile go on. */
  ghost predicate ResolutionGoesOn(spec: StackSpec, r: Replies)
    requires forall k :: k in r.order ==> k in spec.parameters
  {
    spec.parameters == map[] || match Fetch(r.order, spec.parameters, r.stacks)
      case Panicked => false
      case Failed => ReferenceSite in r.saved
      case _ => true
  }

  /** The dispatch is reached exactly when there is a region and a session, no step panics, and every Failure that was
      to be stored on the way was stored. */
  lemma DispatchReachedIff(m: Memory, r: Replies)
    requires m.resource.spec.Some? && forall k :: k in r.order ==> k in m.resource.spec.value.parameters
    ensures var spec := m.resource.spec.value;
      Prepare(m, r).stop.None? <==>
        && (spec.region != "" || r.region.Some?)
        && !FillingPanics(spec.role) && Filled(spec.role).roleArn != ""
        && (spec.role.accountId == "" && AccountIdFromRoleArn(spec.role.roleArn).RoleBlank? ==> AccountSite in r.saved)
        && (Filled(spec.role).serviceRoleArn == "" ==> ServiceRoleSite in r.saved)
        && r.session.SessionObtained? && ResolutionGoesOn(spec, r)
  {
    FillingReachedIff(m, r);
    if SetAssumeRoleProvider(m, r).stop.None? {
      FillingClosedForm(m, r);
    }
    hide SetAssumeRoleProvider, Filled, FillingPanics, AccountIdFromRoleArn, Fetch;
  }

  lemma FillingReachedIff(m: Memory, r: Replies)
    requires m.resource.spec.Some?
    ensures var spec := m.resource.spec.value;
      SetAssumeRoleProvider(m, r).stop.None? <==>
        && (spec.region != "" || r.region.Some?)
        && !FillingPanics(spec.role)
        && (Filled(spec.role).roleArn == "" ==> RoleSite in r.saved)
        && (spec.role.accountId == "" && AccountIdFromRoleArn(spec.role.roleArn).RoleBlank? ==> AccountSite in r.saved)
        && (Filled(spec.role).serviceRoleArn == "" ==> ServiceRoleSite in r.saved)
  {
    var p := m.resource.spec.value.role;
    hide AccountIdFromRoleArn, RoleArnOf, Filled, FillRoleArn, FillAccountId, FillServiceRoleArn, WithRoleArn,
      WithAccountId, WithServiceRoleArn, FillFromAccount;
    FilledParts(p);
    var a := FillRegion(m, r.region).memory;
    RoleArnReachedIff(a, RoleSite in r.saved);
    var b := FillRoleArn(a, RoleSite in r.saved);
    if b.stop.None? {
      RoleArnStage(a, RoleSite in r.saved);
      TailReachedIff(b.memory, r);
    }
  }

  lemma TailReachedIff(b: Memory, r: Replies)
    requires b.resource.spec.Some?
    ensures var p := b.resource.spec.value.role;
      FillFromAccount(b, r).stop.None? <==>
        && !FillingPanics(p)
        && (p.accountId == "" && AccountIdFromRoleArn(p.roleArn).RoleBlank? ==> AccountSite in r.saved)
        && (WithServiceRoleArn(WithAccountId(p)).serviceRoleArn == "" ==> ServiceRoleSite in r.saved)
  {
    hide AccountIdFromRoleArn, RoleArnOf, FillAccountId, FillServiceRoleArn, WithAccountId, WithServiceRoleArn;
    AccountIdReachedIff(b, AccountSite in r.saved);
    var c := FillAccountId(b, AccountSite in r.saved);
    if c.stop.None? {
      AccountIdStage(b, AccountSite in r.saved);
      ServiceRoleArnReachedIff(c.memory, ServiceRoleSite in r.saved);
    }
  }

  lemma FilledParts(p: RoleProvider)
    ensures Filled(p).roleArn == WithRoleArn(p).roleArn
    ensures Filled(p).serviceRoleArn == WithServiceRoleArn(WithAccountId(WithRoleArn(p))).serviceRoleArn
    ensures WithRoleArn(p).accountId == p.accountId && (p.accountId == "" ==> WithRoleArn(p) == p)
  {
    assert RoleArn("") == None;
    hide AccountIdFromRoleArn, RoleArnOf;
  }

  lemma RoleArnReachedIff(m: Memory, saved: bool)
    requires m.resource.spec.Some?
    ensures FillRoleArn(m, saved).stop.None? <==> (WithRoleArn(m.resource.spec.value.role).roleArn == "" ==> saved)
  {
  }

  lemma AccountIdReachedIff(m: Memory, saved: bool)
    requires m.resource.spec.Some?
    ensures var p := m.resource.spec.value.role;
      FillAccountId(m, saved).stop.None? <==>
        !FillingPanics(p) && (p.accountId == "" && AccountIdFromRoleArn(p.roleArn).RoleBlank? ==> saved)
  {
    hide AccountIdFromRoleArn;
  }

  lemma ServiceRoleArnReachedIff(m: Memory, saved: bool)
    requires m.resource.spec.Some?
    ensures FillServiceRoleArn(m, saved).stop.None?
      <==> (WithServiceRoleArn(m.resource.spec.value.role).serviceRoleArn == "" ==> saved)
  {
  }

  lemma FillingClosedForm(m: Memory, r: Replies)
    requires m.resource.spec.Some? && SetAssumeRoleProvider(m, r).stop.None?
    ensures var spec := m.resource.spec.value;
      SetAssumeRoleProvider(m, r).memory.resource.spec == Some(spec.(
        region := if spec.region == "" then r.region.GetOr("") else spec.region, role := Filled(spec.role)))
    ensures !FillingPanics(m.resource.spec.value.role)
  {
    assert RoleArn("") == None;
    hide AccountIdFromRoleArn, RoleArnOf;
    var p := m.resource.spec.value.role;
    var a := FillRegion(m, r.region).memory;
    RoleArnStage(a, RoleSite in r.saved);
    var b := FillRoleArn(a, RoleSite in r.saved).memory;
    AccountIdStage(b, AccountSite in r.saved);
    var c := FillAccountId(b, AccountSite in r.saved).memory;
    ServiceRoleArnStage(c, ServiceRoleSite in r.saved);
    hide FillRoleArn, FillAccountId, FillServiceRoleArn;
  }

  lemma RoleArnStage(m: Memory, saved: bool)
    requires m.resource.spec.Some? && FillRoleArn(m, saved).stop.None?
    ensures FillRoleArn(m, saved).memory.resource.spec
      == Some(m.resource.spec.value.(role := WithRoleArn(m.resource.spec.value.role)))
  {
  }

  lemma AccountIdStage(m: Memory, saved: bool)
    requires m.resource.spec.Some? && FillAccountId(m, saved).stop.None?
    ensures FillAccountId(m, saved).memory.resource.spec
      == Some(m.resource.spec.value.(role := WithAccountId(m.resource.spec.value.role)))
    ensures !FillingPanics(m.resource.spec.value.role)
  {
    hide AccountIdFromRoleArn;
  }

  lemma ServiceRoleArnStage(m: Memory, saved: bool)
    requires m.resource.spec.Some? && FillServiceRoleArn(m, saved).stop.None?
    ensures FillServiceRoleArn(m, saved).memory.resource.spec
      == Some(m.resource.spec.value.(role := WithServiceRoleArn(m.resource.spec.value.role)))
  {
  }

  lemma ResolvingClosedForm(m: Memory, r: Replies)
    requires m.resource.spec.Some? && Enumerates(r.order, m.resource.spec.value.parameters)
    requires ResolveParameters(m, r).stop.None?
    ensures var spec := m.resource.spec.value;
      ResolveParameters(m, r).memory.resource.spec
        == Some(spec.(parameters := FinalParameters(spec.parameters, r.stacks)))
  {
    var spec := m.resource.spec.value;
    ResolutionAllOrNothing(r.order, spec.parameters, r.stacks);
    var fetched := Fetch(r.order, spec.parameters, r.stacks);
    assert After(spec.parameters, fetched) == FinalParameters(spec.parameters, r.stacks);
  }
}
