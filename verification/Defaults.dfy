/** Default filling of the assume-role section, and the ARN texts it is made of. */
module Defaults {
  import opened Text
  import opened Cloud

  const ARN_HEAD := "arn:aws:iam"
  const ARN_PREFIX := ARN_HEAD + "::"
  const MASTER_ROLE := ":role/cfn-master-role"
  const SERVICE_ROLE := ":role/clf-service-role"

  function RoleArnOf(accountId: string, role: string): Option<string> {
    var account := TrimSpace(accountId);
    if account == "" then None else Some(ARN_PREFIX + account + role)
  }

  /** getRoleArn */
  function RoleArn(accountId: string): Option<string> {
    RoleArnOf(accountId, MASTER_ROLE)
  }

  /** getServiceRoleArn */
  function ServiceRoleArn(accountId: string): Option<string> {
    RoleArnOf(accountId, SERVICE_ROLE)
  }

  /** The answer of getAccountidFromRoleArn; NoSeparator is its index out of range. */
  datatype AccountAnswer = RoleBlank | NoSeparator | Account(id: string)

  /** getAccountidFromRoleArn */
  function AccountIdFromRoleArn(roleArn: string): AccountAnswer {
    var role := TrimSpace(roleArn);
    if role == "" then RoleBlank
    else
      var pieces := Split(role, "::");
      if |pieces| < 2 then NoSeparator else Account(Split(pieces[1], ":")[0])
  }

  /** Cutting at "::" first and at ":" afterwards finds the same piece as cutting at ":" at once. */
  lemma BeforeColons(s: string)
    ensures Before(Before(s, "::"), ":") == Before(s, ":")
  {
    var d, c := Before(s, "::"), Before(s, ":");
    BeforeIsClean(s, ":");
    assert d == s[0..|d|] && c == s[0..|c|];
    if Occurs(d, ":") {
      var i := Find(d, ":");
      OccursInSlice(s, 0, |d|, ":", i);
      forall j | 0 <= j < i ensures !OccursAt(s, ":", j) { OccursInSlice(s, 0, |d|, ":", j); }
      SplitAt(s, ":", i);
    } else if |d| < |s| {
      var k := Find(s, "::");
      assert s[k..k + 1] == s[k..k + 2][..1] == ":";
      forall j | 0 <= j < k ensures !OccursAt(s, ":", j) { OccursInSlice(s, 0, |d|, ":", j); }
      SplitAt(s, ":", k);
    }
  }

  /** From a generated ARN the account comes back up to its first colon. */
  lemma AccountOfGeneratedArn(account: string, role: string)
    requires account != "" && TrimSpace(account) == account
    requires role in {MASTER_ROLE, SERVICE_ROLE}
    ensures AccountIdFromRoleArn(ARN_PREFIX + account + role) == Account(Before(account, ":"))
  {
    hide AccountIdFromRoleArn, Before, Split, TrimSpace, IsSpace;
    var rest := account + role;
    LastCharacter(role);
    assert rest[|rest| - 1] == role[|role| - 1];
    ArnPieces(rest);
    assert ARN_PREFIX + account + role == ARN_PREFIX + rest;
    BeforeColons(rest);
    FirstColon(account, role);
  }

  lemma LastCharacter(role: string)
    requires role in {MASTER_ROLE, SERVICE_ROLE}
    ensures role != "" && role[0] == ':' && !IsSpace(role[|role| - 1])
  {
  }

  /** A text behind the ARN prefix is what the first "::" leaves. */
  lemma ArnPieces(rest: string)
    requires rest != "" && !IsSpace(rest[|rest| - 1])
    ensures AccountIdFromRoleArn(ARN_PREFIX + rest) == Account(Before(Before(rest, "::"), ":"))
  {
    TrimSpaceFixed(ARN_PREFIX + rest);
    assert ARN_PREFIX + rest == ARN_HEAD + "::" + rest;
    assert !Occurs(ARN_HEAD, "::") by {
      forall j | OccursAt(ARN_HEAD, "::", j) ensures false {
        CharAt(ARN_HEAD, "::", j, j);
        CharAt(ARN_HEAD, "::", j, j + 1);
      }
    }
    SplitAfterHead(ARN_HEAD, rest);
  }

  lemma FirstColon(account: string, role: string)
    requires role != "" && role[0] == ':'
    ensures Before(account + role, ":") == Before(account, ":")
  {
    var rest := account + role;
    var n := |account|;
    assert rest[0..n] == account;
    forall j | 0 <= j < n ensures OccursAt(rest, ":", j) <==> OccursAt(account, ":", j) {
      OccursInSlice(rest, 0, n, ":", j);
    }
    var k := if Occurs(account, ":") then Find(account, ":") else n;
    assert OccursAt(rest, ":", k) by {
      if k == n { assert rest[n..n + 1] == [role[0]]; }
    }
    SplitAt(rest, ":", k);
  }

  lemma ColonFree(s: string)
    ensures Before(s, ":") == s <==> ':' !in s
  {
    BeforeIsClean(s, ":");
    if ':' in s {
      var i :| 0 <= i < |s| && s[i] == ':';
      assert s[i..i + 1] == ":";
      assert OccursAt(s, ":", i);
    } else {
      assert forall i :: OccursAt(s, ":", i) ==> s[i..i + 1][0] in s;
    }
  }

  /** Both generated ARNs give back the trimmed account exactly when it has no colon. */
  lemma ArnRoundTrip(accountId: string)
    requires TrimSpace(accountId) != ""
    ensures AccountIdFromRoleArn(RoleArn(accountId).value) == Account(TrimSpace(accountId))
       <==> ':' !in TrimSpace(accountId)
    ensures AccountIdFromRoleArn(ServiceRoleArn(accountId).value) == Account(TrimSpace(accountId))
       <==> ':' !in TrimSpace(accountId)
  {
    var account := TrimSpace(accountId);
    TrimSpaceIdempotent(accountId);
    AccountOfGeneratedArn(account, MASTER_ROLE);
    AccountOfGeneratedArn(account, SERVICE_ROLE);
    ColonFree(account);
  }

  /* The four filling steps. A failed step leaves its field empty. */

  function WithRoleArn(p: RoleProvider): RoleProvider {
    if p.roleArn == "" && RoleArn(p.accountId).Some? then p.(roleArn := RoleArn(p.accountId).value) else p
  }

  function WithAccountId(p: RoleProvider): RoleProvider {
    if p.accountId == "" && AccountIdFromRoleArn(p.roleArn).Account?
    then p.(accountId := AccountIdFromRoleArn(p.roleArn).id) else p
  }

  function WithServiceRoleArn(p: RoleProvider): RoleProvider {
    if p.serviceRoleArn == "" && ServiceRoleArn(p.accountId).Some?
    then p.(serviceRoleArn := ServiceRoleArn(p.accountId).value) else p
  }

  function WithExternalId(p: RoleProvider): RoleProvider {
    if p.externalId == "" then p.(externalId := "cloudresource-" + p.accountId + "-" + p.environment) else p
  }

  function Filled(p: RoleProvider): RoleProvider {
    WithExternalId(WithServiceRoleArn(WithAccountId(WithRoleArn(p))))
  }

  /** A role ARN without "::" in it is read out of range when the account is to be taken from it. */
  predicate FillingPanics(p: RoleProvider) {
    p.accountId == "" && AccountIdFromRoleArn(p.roleArn).NoSeparator?
  }

  predicate AllFilled(p: RoleProvider) {
    p.roleArn != "" && p.accountId != "" && p.serviceRoleArn != "" && p.externalId != ""
  }

  /** Filling twice is filling once, whether it succeeds or not. */
  lemma FillingIdempotent(p: RoleProvider)
    requires !FillingPanics(p)
    ensures Filled(Filled(p)) == Filled(p) && !FillingPanics(Filled(p))
  {
    if p.accountId == "" && AccountIdFromRoleArn(p.roleArn).Account? && p.serviceRoleArn == "" {
      assert Filled(p).accountId == AccountIdFromRoleArn(p.roleArn).id;
    }
  }

  /** No field the user supplied is overwritten, and the fields that are not filled never change. */
  lemma FillingKeepsSupplied(p: RoleProvider)
    ensures var q := Filled(p);
      && (p.roleArn != "" ==> q.roleArn == p.roleArn)
      && (p.accountId != "" ==> q.accountId == p.accountId)
      && (p.serviceRoleArn != "" ==> q.serviceRoleArn == p.serviceRoleArn)
      && (p.externalId != "" ==> q.externalId == p.externalId)
      && (q.roleSessionName, q.environment, q.unread) == (p.roleSessionName, p.environment, p.unread)
  {
    hide AccountIdFromRoleArn, RoleArnOf;
  }

  /** What the user has to supply. A blank but non-empty account blocks the service role even next to a good role
      ARN, because the account is taken from the ARN only when it is empty. */
  predicate Fillable(p: RoleProvider) {
    if p.accountId == "" then
      var answer := AccountIdFromRoleArn(p.roleArn);
      answer.Account? && answer.id != "" && (p.serviceRoleArn != "" || TrimSpace(answer.id) != "")
    else
      TrimSpace(p.accountId) != "" || (p.roleArn != "" && p.serviceRoleArn != "")
  }

  /** Filling ends with all four fields present exactly on those inputs. */
  lemma FillingCompleteIff(p: RoleProvider)
    ensures !FillingPanics(p) && AllFilled(Filled(p)) <==> Fillable(p)
  {
    assert TrimSpace("") == "";
    var q := WithRoleArn(p);
    var r := WithAccountId(q);
    if p.accountId == "" {
      assert q == p;
      CompleteAfterAccount(r);
    } else {
      assert r == q;
      CompleteAfterAccount(r);
    }
  }

  lemma CompleteAfterAccount(r: RoleProvider)
    ensures AllFilled(WithExternalId(WithServiceRoleArn(r)))
       <==> r.roleArn != "" && r.accountId != "" && (r.serviceRoleArn != "" || TrimSpace(r.accountId) != "")
  {
  }

  /** The two documented ways to fill the section both work. */
  lemma DocumentedOptions(p: RoleProvider, account: string)
    requires TrimSpace(account) != ""
    requires p.accountId == account
      || (p.accountId == "" && ':' !in TrimSpace(account) && Some(p.roleArn) == RoleArn(account))
    ensures !FillingPanics(p) && AllFilled(Filled(p))
  {
    FillingCompleteIff(p);
    if p.accountId != account {
      ArnRoundTrip(account);
      TrimSpaceIdempotent(account);
    }
  }

  /** A role ARN that would do on its own does not help a section whose account is blank but not empty. */
  lemma BlankAccountBlocksServiceRole(p: RoleProvider)
    requires TrimSpace(p.accountId) == "" && p.accountId != "" && p.serviceRoleArn == ""
    requires Fillable(p.(accountId := ""))
    ensures Filled(p).serviceRoleArn == "" && !Fillable(p)
  {
    hide AccountIdFromRoleArn, TrimSpace;
    assert WithAccountId(WithRoleArn(p)) == p;
  }

  /** Both ways spelled out: from a trimmed account without a colon, or from its master role ARN, the whole section
      follows. */
  lemma FilledSection(base: RoleProvider, account: string)
    requires base.serviceRoleArn == "" && base.externalId == ""
    requires account != "" && TrimSpace(account) == account && ':' !in account
    ensures var section := base.(
        accountId := account,
        roleArn := "arn:aws:iam::" + account + ":role/cfn-master-role",
        serviceRoleArn := "arn:aws:iam::" + account + ":role/clf-service-role",
        externalId := "cloudresource-" + account + "-" + base.environment);
      && Filled(base.(accountId := account, roleArn := "")) == section
      && Filled(base.(accountId := "", roleArn := "arn:aws:iam::" + account + ":role/cfn-master-role")) == section
  {
    AccountOfGeneratedArn(account, MASTER_ROLE);
    ColonFree(account);
    assert ARN_PREFIX == "arn:aws:iam::";
    FilledWith(base, account, ARN_PREFIX + account + MASTER_ROLE, ARN_PREFIX + account + SERVICE_ROLE);
    hide Filled, AccountIdFromRoleArn, TrimSpace, Before, Split;
  }

  lemma FilledWith(base: RoleProvider, account: string, arn: string, serviceArn: string)
    requires base.serviceRoleArn == "" && base.externalId == "" && account != "" && arn != ""
    requires RoleArn(account) == Some(arn) && ServiceRoleArn(account) == Some(serviceArn)
    requires AccountIdFromRoleArn(arn) == Account(account)
    ensures var section := base.(accountId := account, roleArn := arn, serviceRoleArn := serviceArn,
                                 externalId := "cloudresource-" + account + "-" + base.environment);
      && Filled(base.(accountId := account, roleArn := "")) == section
      && Filled(base.(accountId := "", roleArn := arn)) == section
  {
    hide AccountIdFromRoleArn, RoleArnOf;
    var common := base.(accountId := account, roleArn := arn);
    assert WithAccountId(WithRoleArn(base.(accountId := account, roleArn := ""))) == common;
    assert WithAccountId(WithRoleArn(base.(accountId := "", roleArn := arn))) == common;
    assert WithServiceRoleArn(common) == common.(serviceRoleArn := serviceArn);
  }

  /** Filling from the account alone and from its generated role ARN alone gives the same section exactly when the
      account is already trimmed and has no colon. */
  lemma AccountOrRoleArn(base: RoleProvider, account: string)
    requires base.serviceRoleArn == "" && base.externalId == "" && TrimSpace(account) != ""
    ensures Filled(base.(accountId := account, roleArn := ""))
         == Filled(base.(accountId := "", roleArn := RoleArn(account).value))
       <==> TrimSpace(account) == account && ':' !in account
  {
    var trimmed := TrimSpace(account);
    TrimSpaceIdempotent(account);
    AccountOfGeneratedArn(trimmed, MASTER_ROLE);
    ColonFree(trimmed);
    TrimSpaceShortens(account);
    var arn := RoleArn(account).value;
    hide AccountIdFromRoleArn, TrimSpace, Before, Split;
    var fromAccount, fromRole := base.(accountId := account, roleArn := ""), base.(accountId := "", roleArn := arn);
    assert WithAccountId(WithRoleArn(fromAccount)) == base.(accountId := account, roleArn := arn);
    assert WithAccountId(WithRoleArn(fromRole)) == base.(accountId := Before(trimmed, ":"), roleArn := arn);
    hide WithRoleArn, WithAccountId;
    FilledAccount(fromAccount);
    FilledAccount(fromRole);
    assert account == Before(trimmed, ":") ==> |account| <= |trimmed|;
  }

  lemma FilledAccount(p: RoleProvider)
    ensures Filled(p).accountId == WithAccountId(WithRoleArn(p)).accountId
  {
    hide WithRoleArn, WithAccountId, RoleArnOf;
  }

  lemma TrimSpaceShortens(s: string)
    ensures |TrimSpace(s)| <= |s| && (|TrimSpace(s)| == |s| ==> TrimSpace(s) == s)
  {
  }
}
