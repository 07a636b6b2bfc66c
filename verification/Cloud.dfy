/** The custom resource, and the CloudFormation replies the controller reads. */
module Cloud {
  import opened Text

  /** A key with its value: a stack parameter, a stack tag or a stack output. */
  datatype Pair = Pair(key: string, value: string)

  /** AssumeRoleProvider. The fields the controller never reads are kept as one text, because the checksum sees them. */
  datatype RoleProvider = RoleProvider(
    roleArn: string,
    roleSessionName: string,
    serviceRoleArn: string,
    externalId: string,
    accountId: string,
    environment: string,
    unread: string)

  datatype StackSpec = StackSpec(
    parameters: map<string, string>,
    tags: map<string, string>,
    template: string,
    stackName: string,
    role: RoleProvider,
    timeout: int,
    region: string)

  /** A line of a validation result's messages or errors. */
  datatype Reason =
    | StackNotRetrieved
    | ExecutionCompleted
    | ChangeSetsNotListed
    | ChangeSetUnsuccessful
    | StackInFailedState(resourceStatus: string)

  /** The status message, as data instead of formatted text. */
  datatype Message =
    | NoMessage
    | RoleArnMissing
    | AccountIdMissing
    | ServiceRoleArnMissing
    | ReferencesNotFetched
    | StackFailed(stackName: string, reasons: seq<Reason>)
    | TemplateNotRead
    | StackId(id: string)
    | ChangeSetNotCreated
    | UpdateChangeSetInProgress
    | CreateChangeSetInProgress
    | ChangeSetNotExecuted
    | ExecuteChangeSetInProgress

  /** The states a resource passes through; Blank is the empty text. */
  datatype State = Blank | Success | Failure | InProgress | UpdateInProgress | OtherState(text: string)

  /** IsValidState */
  predicate IsTerminal(state: State) {
    state.Success? || state.Failure?
  }

  datatype Status = Status(state: State, message: Message, checksum: string, changeSetName: string)

  const BLANK_STATUS := Status(Blank, NoMessage, "", "")

  /** One stored version of a CloudResourceDeployment; a spec without a cloudformation section is None. */
  datatype Resource = Resource(spec: Option<StackSpec>, status: Status, deleting: bool)

  /** CalculateChecksum, of which only determinism is used: every result holds for each such function. */
  type Checksum = Option<StackSpec> -> string

  /** The CloudFormation stack states, and whatever else may be reported. */
  datatype StackStatus =
    | CreateInProgress | CreateFailed | CreateComplete
    | RollbackInProgress | RollbackFailed | RollbackComplete
    | DeleteInProgress | DeleteFailed | DeleteComplete
    | UpdateInProgress | UpdateCompleteCleanupInProgress | UpdateComplete
    | UpdateRollbackInProgress | UpdateRollbackFailed
    | UpdateRollbackCompleteCleanupInProgress | UpdateRollbackComplete
    | ReviewInProgress
    | ImportInProgress | ImportComplete
    | ImportRollbackInProgress | ImportRollbackFailed | ImportRollbackComplete
    | OtherStatus(text: string)

  datatype StackInfo = StackInfo(name: string, status: StackStatus, parameters: seq<Pair>, outputs: seq<Pair>)

  /** DescribeStacks: an error (a ValidationError means the stack does not exist), no list at all, or a list. */
  datatype DescribeReply =
    | DescribeFailed(validationError: bool)
    | NoStackList
    | Stacks(list: seq<StackInfo>)

  /** A stack event, of which the physical id and the resource status are read; an absent field reads as "". */
  datatype StackEvent = StackEvent(physicalId: string, resourceStatus: string)

  datatype EventsReply = EventsFailed | Events(list: seq<StackEvent>)

  /** The state of a change set in the listing; NoStatus is the state of the summary appended to every listing. */
  datatype ChangeSetStatus =
    | NoStatus | Pending | BeingCreated | Ready | Unsuccessful
    | OtherChangeSetStatus(text: string)

  datatype ChangeSetsReply = ListFailed | Summaries(list: seq<ChangeSetStatus>)

  /** GetTemplate: an error, an answer without a body, or a body. */
  datatype TemplateReply = TemplateFailed | TemplateAbsent | TemplateBody(body: string)

  datatype GetReply = Found | NotFound | GetFailed

  datatype SessionReply = SessionObtained | SessionDenied | SessionPanics

  /** The places where a reconcile writes the resource back. */
  datatype Site = RoleSite | AccountSite | ServiceRoleSite | ReferenceSite | OutcomeSite

  /** Everything one reconcile learns from outside: the answers of CloudFormation, STS and Kubernetes, the fresh
      identifier, and the order in which Go visits the maps. A write succeeds when its site is in saved. */
  datatype Replies = Replies(
    get: GetReply,
    region: Option<string>,
    session: SessionReply,
    order: seq<string>,
    tagOrder: seq<string>,
    stacks: map<string, DescribeReply>,
    describe: DescribeReply,
    events: EventsReply,
    changeSets: ChangeSetsReply,
    template: TemplateReply,
    uuid: string,
    createAccepted: bool,
    executeAccepted: bool,
    saved: set<Site>)

  /** The map orders of a reply belong to the maps of the resource. */
  ghost predicate Fits(r: Replies, resource: Resource) {
    resource.spec.Some? ==>
      Enumerates(r.order, resource.spec.value.parameters) && Enumerates(r.tagOrder, resource.spec.value.tags)
  }

  /** One run through a Go map visits every key once, in an unspecified order. */
  ghost predicate Enumerates(order: seq<string>, m: map<string, string>) {
    && (forall k :: k in order <==> k in m)
    && (forall i, j :: 0 <= i < j < |order| ==> order[i] != order[j])
  }

  /** Every map has an enumeration, also one that starts with a chosen key. */
  lemma EnumerationFrom(m: map<string, string>, first: string) returns (order: seq<string>)
    requires first in m
    ensures Enumerates(order, m) && order[0] == first
  {
    var rest := m - {first};
    var tail := Enumeration(rest);
    assert first !in tail && forall k :: k in tail <==> k in m && k != first;
    order := [first] + tail;
  }

  lemma Enumeration(m: map<string, string>) returns (order: seq<string>)
    ensures Enumerates(order, m)
    decreases |m|
  {
    if m == map[] {
      order := [];
    } else {
      var k :| k in m;
      var rest := m - {k};
      assert |rest.Keys| < |m.Keys| by { assert rest.Keys == m.Keys - {k}; }
      order := Enumeration(rest);
      order := [k] + order;
    }
  }
}
