# A verified model of the cloudresource-manager reconcile loop

The controller drives one CloudFormation stack for each `CloudResourceDeployment`. One reconcile reads a stored version of
the resource, compares its checksum, fills in defaults, resolves references to outputs of other stacks, classifies what
CloudFormation reports, makes at most one mutating call, and writes the whole resource back. The project models that step
with all its outcomes (stale reads, refused writes, AWS errors, swallowed panics) and proves what holds in single
reconciles, in every run of reconciles and user edits, and in the loop of controller and CloudFormation together.

| file | contents |
|---|---|
| `Text.dfy` | `strings.TrimSpace`, `Contains`, `Split`, and where a split cuts |
| `Cloud.dfy` | the resource, its status, and `Replies`: everything one reconcile learns from outside |
| `References.dfy` | `!stack_output` values: text, lookup, and the resolving loop |
| `Parameters.dfy` | canonical parameter and tag lists, and the comparison with the deployed stack |
| `Defaults.dfy` | role ARNs, the account in them, and default filling |
| `Validations.dfy` | classification of the stack, as a function and as the object that is filled field by field |
| `Controller.dfy` | one reconcile as a function on memory, stage by stage |
| `Reconcilers.dfy` | the same reconcile as classes that change their fields; each method is tied to its function |
| `Tables.dfy` | the whole reconcile as a decision table over its input: literal states, texts, messages and conditions, without any function of the controller |
| `TableProofs.dfy` | the controller does exactly what the table says, in every value of the world and in the end |
| `Safety.dfy` | call, status, counter and end tables of a reconcile, read off the replies alone |
| `Preparation.dfy` | closed form of filling and resolving, and the versions stored on the way |
| `Runs.dfy` | runs of reconciles, edits and deletions, and the invariant of every stored version |
| `Convergence.dfy` | quiescence, and convergence on a stack that agrees |
| `BoundedWork.dfy` | the controller together with an explicit CloudFormation, and the guards of its calls for reads of any version |
| `Hazards.dfy` | the same loop with the write behind a call lost, or with the version in front of it read again: exactly when that misleads the controller |
| `HazardRuns.dfy` | runs from a new resource that meet each of these hazards, for every settled spec |
| `DeepCopies.dfy` | deep copies on the heap |

Modelling decisions:

- The checksum is an arbitrary function of the spec. It is a parameter `ck` of every result, so nothing depends on Adler-32
  and collisions are covered.
- Go visits maps in an unspecified order. A loop over a map takes the order as an argument, and every result holds for
  every order.
- All replies of one reconcile are fields of one `Replies` value. A write succeeds when its `Site` is in `saved`. A reconcile
  may read any stored version; unless it read the latest one the API server refuses all its writes.
- The two change-set calls refuse what the input validation of the AWS SDK refuses
  (`vendor/github.com/aws/aws-sdk-go/service/cloudformation/api.go:6008-6067` and `:9496-9515`), before anything is sent.
- Every stored version records the input of the reconcile that wrote its status (`Source`). The prometheus counters are
  multisets of label values.
- A nil `cloudformation` section makes `SetAssumeRoleProvider` panic, and the deferred function dereferences the same nil
  pointer while it logs; that end is `Crashed`, all other panics end as `Recovered`.

Where the code and its documentation differ, the model follows the code:

- `docs/cfn_state_handling.md` says that after a rollback the resource is compared with the failed change set. The name of
  that change set is never set (`controllers/cloudresourcedeployment_validations.go:182-184` is commented out), so the
  deployed template is compared. Once that template was read, a rolled back stack under an `InProgress` resource ends as
  `Success`, whatever it runs; a failed GetTemplate stores `Failure` first and panics then, and an answer without a body
  panics.
- `docs/filling_assumeroleprovider.md` offers the role ARN as an alternative to the account number. That fails for an account
  of blanks, which is not empty and therefore not replaced.

`Tables.dfy` is a second, independent account of the controller. It is flat where the controller passes a result object with
flags from the classification to the dispatch, and it says what is stored, called and counted as one closed form where the
controller writes step by step. The results about runs, convergence and bounded work build on the stage functions of
`Controller.dfy`, and `ReconcileTable` says what these functions do.

Properties that hold only under a condition come with that condition in both directions: reference names
(`ReferenceRoundTrip`), accounts (`ArnRoundTrip`, `AccountOrRoleArn`), fillable sections (`FillingCompleteIff`), the map order
and the end of a resolution (`EndingDependsOnOrder`), duplicate tag keys (`TagListKeys`), progress reported without a
call (`SilentProposal`, `ServiceRoleIff`), specs that can converge (`AgreeingIff`), executions of the wrong change set
(`LostCreateMisleads`, `LostCreateEnds`) and repeated proposals (`LostUpdateRepeats`, `StaleReadRepeats`, `LostExecutionRepeats`, `StaleReadAfterRollback`,
`GuardsDecide`). The runs of `HazardRuns` show that each of the last two kinds occurs.

## Model

| member | source | states |
|---|---|---|
| References.ReferenceRoundTrip | pkg/awsapi/cloudformation.go:209-224 | for both markers, printing a stack and an output name and parsing the text gives the two names back exactly when neither holds `::` or the marker and the stack name does not end in a colon; then no index is out of range |
| References.FetchReferenceResources | pkg/awsapi/cloudformation.go:204-237 | the loop over one map order returns what the recursive resolution of that order returns, aborting at the first value that cannot be resolved |
| TableProofs.FetchFirst | pkg/awsapi/cloudformation.go:223-237 | in every map order the loop panics or reports an error exactly when the first value that cannot be resolved does |
| References.FirstValue | pkg/awsapi/cloudformation.go:190-201 | an output is found exactly when an entry has its key, and the value found is that of the first such entry |
| References.OutputMeaning | pkg/awsapi/cloudformation.go:182-201 | by the reply alone: the value of the first output of the wanted name unless it is empty, no result without one, an error when the stack cannot be described, a panic on an empty list |
| References.PlainTexts | pkg/awsapi/cloudformation.go:212-222 | exactly the texts without `::` or without one of the two markers at their start, such as ARNs, are no references |
| References.PrintedResolution | pkg/awsapi/cloudformation.go:204-237 | a reference written with either marker resolves exactly to the non-empty first output of that name on the stack of that name, and is refused exactly when that stack cannot be described |
| References.ResolutionAllOrNothing | controllers/cloudresourcedeployment_controller.go:146-164 | in every map order either all references are replaced by their output values or no parameter changes; keys and plain values are kept |
| References.ResolvedParameter | controllers/cloudresourcedeployment_controller.go:146-164 | for each parameter: the resolved value when all references resolve, its old text when one fails or when it is no reference |
| References.EndingDependsOnOrder | pkg/awsapi/cloudformation.go:223-228 | whether the call ends with an error, silently or in a panic depends on the map order exactly when two values fail in different ways |
| References.DifferentFailures | pkg/awsapi/cloudformation.go:209-228 | two such values: a reference to a missing stack is an error and a marker inside a stack name a panic; together they make the map order decide |
| Parameters.SortStrings | pkg/awsapi/cloudformation.go:166-170 | distinct keys come out strictly ascending, none added and none lost |
| Parameters.LessMeaning | pkg/awsapi/cloudformation.go:170 | the order is lexicographic: a proper prefix first, otherwise the smaller character at the first difference |
| Parameters.StackParameters | pkg/awsapi/cloudformation.go:162-179 | every map order gives the canonical list |
| Parameters.CanonicalIsTheOne | pkg/awsapi/cloudformation.go:166-178 | the canonical list is the only strictly ascending list that reads back as the map |
| Parameters.StackTags | pkg/awsapi/cloudformation.go:239-262 | the canonical list followed by the CreatedBy entry, one longer than the map |
| Parameters.TagListKeys | pkg/awsapi/cloudformation.go:249-261 | the sorted tags and then `CreatedBy` with `CloudResource-Controller`; a duplicate key exactly when the user set CreatedBy; it reads back as the tags with that entry overwritten |
| Parameters.CompareStackParams | pkg/awsapi/cloudformation.go:415-435 | the nested loop with break and early return decides whether each reported entry has the value of the first wanted entry with its key |
| Parameters.ComparisonIsAgreement | controllers/cloudresourcedeployment_controller.go:380-388 | against the canonical list of a map the comparison means equal values under all common keys |
| Parameters.ComparisonIsSymmetric | pkg/awsapi/cloudformation.go:418-433 | on key-unique lists the two sides can be exchanged |
| Defaults.ArnRoundTrip | controllers/cloudresourcedeployment_controller.go:185-229 | both generated ARNs give back the trimmed account exactly when it has no colon |
| Defaults.AccountOrRoleArn | controllers/cloudresourcedeployment_controller.go:280-340 | filling from the account alone and from its role ARN alone gives the same section exactly for trimmed accounts without a colon |
| Defaults.FilledSection | docs/filling_assumeroleprovider.md:5-24 | from a trimmed colon-free account, or from its master role ARN, the whole section follows: both ARNs, account and external id spelled out |
| Defaults.FillingIdempotent | controllers/cloudresourcedeployment_controller.go:258-342 | filling twice is filling once, also when steps of it fail |
| Defaults.FillingKeepsSupplied | controllers/cloudresourcedeployment_controller.go:262-340 | supplied fields are never overwritten and the other fields never change |
| Defaults.FillingCompleteIff | controllers/cloudresourcedeployment_controller.go:280-340 | all four fields are present afterwards, without a panic, exactly on the inputs the condition names |
| Defaults.DocumentedOptions | docs/filling_assumeroleprovider.md:5-24 | a non-blank account alone, and the role ARN of a colon-free account alone, both suffice |
| Defaults.BlankAccountBlocksServiceRole | controllers/cloudresourcedeployment_controller.go:302-335 | an account of blanks leaves the service role empty next to a role ARN that would do alone |
| Validations.WrapperFunc | pkg/awsapi/cloudformation.go:376-398 | the head of the listing with an empty summary appended, or an error |
| Validations.PostValidationFunc | pkg/awsapi/cloudformation.go:400-413 | the events with an empty one appended, so the first index is safe unless the query failed |
| Validations.ValidateIfStackExistsWithSameName | controllers/cloudresourcedeployment_validations.go:49-216 | the result assembled field by field equals the classification function, panics included |
| Validations.JudgeMeaning | controllers/cloudresourcedeployment_validations.go:105-211 | every flag and verdict of a reported stack, in both directions, by stack state, resource state and newest change set |
| Validations.ClassificationMeaning | controllers/cloudresourcedeployment_validations.go:49-216 | the same said about the replies, with the exact condition of a panic; every other DescribeStacks error is the no-stack case, with its own message and a negative result |
| Validations.DispatchTotality | controllers/cloudresourcedeployment_validations.go:105-211 | the flags exclude each other, so the dispatch takes exactly one branch |
| Reconcilers.CloudResourceDeploymentReconciler.Update | controllers/cloudresourcedeployment_controller.go:395-398 | a successful write appends the whole resource, a refused one stores nothing |
| Reconcilers.CloudResourceDeploymentReconciler.ValidateOrUpdateChecksum | controllers/cloudresourcedeployment_controller.go:241-256 | skips exactly the gated resources and otherwise sets the new checksum |
| Reconcilers.CloudResourceDeploymentReconciler.FillAssumeRoleProvider | controllers/cloudresourcedeployment_controller.go:258-342 | the field by field filling with its Failure writes equals the stage function |
| Reconcilers.CloudResourceDeploymentReconciler.ResolveReferences | controllers/cloudresourcedeployment_controller.go:146-164 | fetching and writing back key by key equals the stage function |
| Reconcilers.CloudResourceDeploymentReconciler.CreateChangeSetCall | pkg/awsapi/cloudformation.go:112-160 | the recorded call with canonical lists; none, and no error, without a service role; none after a failed input validation |
| Reconcilers.CloudResourceDeploymentReconciler.CheckForRequeue | controllers/cloudresourcedeployment_controller.go:344-501 | status, store, calls, counters and end of every branch |
| Reconcilers.CloudResourceDeploymentReconciler.Reconcile | controllers/cloudresourcedeployment_controller.go:88-175 | the whole step from a possibly stale read equals the step function of the runs |
| TableProofs.StatusGroups | controllers/cloudresourcedeployment_validations.go:373-435 | which of the documented stack states are busy, failed, finished and rolled back, by name |
| TableProofs.DispatchTable | controllers/cloudresourcedeployment_controller.go:344-501 | classification and dispatch together equal the decision table: status, message, stored version, call with all its arguments, counts and end, for all inputs |
| TableProofs.DeploymentDecides | controllers/cloudresourcedeployment_controller.go:377-447 | a finished stack that is not awaited gives Success exactly when the template is the wanted one and no common parameter has another value, and otherwise an UPDATE call |
| TableProofs.StatesDecide | controllers/cloudresourcedeployment_validations.go:157-211 | a stack in one of the nine busy states requeues with nothing changed, and one in a failed state concludes with Failure without a call |
| TableProofs.PreparationTable | controllers/cloudresourcedeployment_controller.go:130-164 | filling and resolving equal their table: where they stop, exactly which Failures are stored with which message and which spec, and the resource they arrive at |
| TableProofs.GateTable | controllers/cloudresourcedeployment_controller.go:241-256 | a reconcile is skipped exactly when the checksum matches, the state is Success or Failure and no deletion is requested; otherwise the new checksum is set |
| TableProofs.ReconcileTable | controllers/cloudresourcedeployment_controller.go:88-175 | the world after a whole reconcile and its end are those of the table, for every input |
| TableProofs.ReconcileEnds | controllers/cloudresourcedeployment_controller.go:96-145 | a reconcile crashes exactly on a missing section behind an open gate, and ends quietly exactly on a missing resource, a closed gate, a missing region, a refused filling write, a denied session or a missing role |
| TableProofs.ReconcileOutcomes | controllers/cloudresourcedeployment_controller.go:96-171 | exactly when a reconcile returns an error, swallows a panic or requeues, failed reads and failed references included |
| Safety.CallTable | controllers/cloudresourcedeployment_controller.go:422-499 | exactly which mutating calls are made, for all replies; an execution under an empty change-set name never leaves the controller |
| Safety.StatusTable | controllers/cloudresourcedeployment_controller.go:351-499 | exactly which state and change-set name result, what stays, and what is stored; Success if and only if the stack is deployed as wanted or rolled back |
| Safety.MessageTable | controllers/cloudresourcedeployment_controller.go:351-420 | Success carries the physical id of the newest event; a failed stack carries its one reason (its failed state, a listing that failed, or a failed change set), behind the completion message of a complete stack |
| Safety.CounterTable | controllers/cloudresourcedeployment_controller.go:351-399 | a failure is counted exactly when Failure is concluded, a success exactly when template and parameters match |
| Safety.EndTable | controllers/cloudresourcedeployment_controller.go:344-501 | exactly when a dispatch panics and exactly when it returns an error |
| Safety.MutationSafety | controllers/cloudresourcedeployment_controller.go:88-175 | a whole reconcile makes at most one mutating call: none on any failed or busy state, only an execution under review, UPDATE only on a reported stack in one of the six finished states or an undocumented one, CREATE only without one |
| Safety.CounterConservation | controllers/cloudresourcedeployment_controller.go:344-501 | over every sequence of calls and for every label the counters grow by the calls that set Failure and by those that found the stack deployed |
| Preparation.PreparationStoresFailures | controllers/cloudresourcedeployment_controller.go:258-342 | before the dispatch only Failures with the new checksum are stored, and a fixed spec is stored unchanged |
| Preparation.PreparationClosedForm | controllers/cloudresourcedeployment_controller.go:130-164 | a preparation that completes has computed filling and resolving in one step, through all intermediate writes |
| Preparation.DispatchReachedIff | controllers/cloudresourcedeployment_controller.go:130-164 | the classification is reached exactly when region, session and role ARN are there, nothing panics, and every Failure on the way was stored |
| Preparation.ServiceRoleIff | controllers/cloudresourcedeployment_controller.go:302-335 | when a session is possible, the service role stays empty exactly for the sections that the condition names |
| Runs.RunJustified | controllers/cloudresourcedeployment_controller.go:88-175 | in every run each stored status is blank or justified by the input of the reconcile that wrote it |
| Runs.RunProvenance | controllers/cloudresourcedeployment_controller.go:422-499 | a stored Update InProgress names an accepted UPDATE and a stored InProgress an accepted CREATE or execution, under stale reads, AWS errors and lost writes |
| Runs.RunHistory | controllers/cloudresourcedeployment_controller.go:115-121 | stored checksums belong to the spec that was read, skipped versions have a spec with that checksum, and each Success has its evidence |
| Runs.SilentProposal | pkg/awsapi/cloudformation.go:131-134 | progress is reported without a call exactly when a change set is wanted and the service role is empty |
| Runs.SilentRun | controllers/cloudresourcedeployment_controller.go:449-474 | a blank account next to a role ARN makes the first reconcile store such progress |
| Convergence.Quiescence | controllers/cloudresourcedeployment_controller.go:241-256 | after a terminal status of a fixed, reference-free spec no reconcile stores anything, and fresh ones do nothing |
| Convergence.StaleStoresNothing | controllers/cloudresourcedeployment_controller.go:93-104 | a reconcile of an old version never changes the store |
| Convergence.PreparedOnce | controllers/cloudresourcedeployment_controller.go:130-164 | filling and resolving reach a fixed point in one pass |
| Convergence.AgreeingMeansDeployed | controllers/cloudresourcedeployment_validations.go:105-156 | an agreeing stack counts as deployed exactly when no awaited change set is pending, being created, ready or failed and the listing of an awaited one succeeds |
| Convergence.AgreeingPass | controllers/cloudresourcedeployment_controller.go:377-399 | such a pass stores Success with the prepared spec under the old checksum and calls nobody, also for a resource in the state `Update InProgress` |
| Convergence.ThreePasses | controllers/cloudresourcedeployment_controller.go:115-171 | against an unchanging agreeing stack the third reconcile does nothing; a gated resource rests throughout, and otherwise Success is stored with the prepared spec and the second pass acts exactly when that spec has another checksum |
| Convergence.AgreeingIff | controllers/cloudresourcedeployment_controller.go:377-399 | a spec has an agreeing stack exactly when it names a stack and none of its references is malformed |
| Convergence.ConvergenceHappens | controllers/cloudresourcedeployment_controller.go:115-171 | every fillable spec of that kind has replies under which a new resource arrives at Success with all references resolved, and stays there |
| Convergence.PreparedIsFixed | controllers/cloudresourcedeployment_controller.go:146-164 | the spec that is reached is fixed exactly when all its references were resolved |
| BoundedWork.PollAdvances | controllers/cloudresourcedeployment_controller.go:344-501 | in every phase a poll does nothing while CloudFormation is busy or the work is done, and lowers the rank otherwise |
| BoundedWork.StepAdvances | controllers/cloudresourcedeployment_controller.go:344-501 | every step of controller or CloudFormation stays in the phases and changes nothing but counters or lowers the rank |
| BoundedWork.BoundedRun | controllers/cloudresourcedeployment_controller.go:344-501 | every run of successful fresh reconciles, quiet ones of any version whose write is lost or refused, and steps of CloudFormation asks for at most one change set and then at most one execution of it, has at most nine steps besides idle polls, and rests when done |
| BoundedWork.GuardedCalls | controllers/cloudresourcedeployment_controller.go:422-499 | a reconcile of any stored version makes exactly the call whose guard that version passes against the present state of CloudFormation |
| BoundedWork.NeverStuck | docs/cfn_state_handling.md:65-75 | until the work is done some step makes progress: one of CloudFormation exactly while it is busy, otherwise every poll |
| Hazards.GuardsDecide | controllers/cloudresourcedeployment_controller.go:422-499 | a reconcile of any stored version proposes exactly when it passes the first guard, and executes the waiting change set exactly when it passes the second one and the version names that change set |
| Hazards.LostCreateMisleads | controllers/cloudresourcedeployment_controller.go:449-485 | the pass after a CREATE executes the created change set exactly when the write succeeded or its name was stored before; otherwise it executes the older name, or nothing without one |
| Hazards.LostCreateEnds | controllers/cloudresourcedeployment_controller.go:478-490 | exactly when there is no name or the execution is refused, Failure closes the gate and later passes do nothing; if only the created name is accepted, exactly when the write was lost and the stored name differs |
| Hazards.RepeatedProposal | controllers/cloudresourcedeployment_controller.go:422-447 | after an UPDATE proposal the calls of the next reconcile, for the version before it and the version behind it |
| Hazards.LostUpdateRepeats | controllers/cloudresourcedeployment_controller.go:422-447 | the next pass asks for a second change set exactly when the write was lost and no update was awaited before |
| Hazards.StaleReadRepeats | controllers/cloudresourcedeployment_controller.go:93-104 | a reconcile that still reads the version before the proposal asks for a second change set exactly when no update was awaited in it, and two proposals exceed the bound |
| Hazards.RepeatedAfterExecution | controllers/cloudresourcedeployment_controller.go:476-498 | after an execution has ended, the calls of the next reconcile, for the version before it and the version behind it |
| Hazards.LostExecutionRepeats | controllers/cloudresourcedeployment_validations.go:112-156 | once the execution has ended the next pass proposes again exactly when its write was lost, the version before was not InProgress, and the stack was rolled back to something else; otherwise it calls nobody |
| Hazards.StaleReadAfterRollback | controllers/cloudresourcedeployment_controller.go:93-104 | the same for a stale read of the version before the execution, and such a proposal exceeds the bound |
| HazardRuns.CreateStaysUnexecuted | controllers/cloudresourcedeployment_controller.go:449-490 | a new resource whose first write is lost ends as a gated Failure with the lone CREATE, for every settled spec |
| HazardRuns.ProposalComesTwice | controllers/cloudresourcedeployment_controller.go:422-447 | a run with two UPDATE proposals, after a lost write as well as after a stale read |
| HazardRuns.ProposalAfterRollback | controllers/cloudresourcedeployment_validations.go:112-156 | a run with UPDATE, execution, rollback and UPDATE again, after a lost write as well as after a stale read |
| HazardRuns.ParameterEditIsRolledOut | controllers/cloudresourcedeployment_controller.go:380-447 | a stack with the wanted template and another value under one parameter gets an UPDATE in the first pass |
| DeepCopies.StackSpecObject.DeepCopyInto | api/v1alpha1/zz_generated.deepcopy.go:140-157 | equal contents, nil maps kept, all maps new and not shared with each other |
| DeepCopies.Deployment.DeepCopyInto | api/v1alpha1/zz_generated.deepcopy.go:42-48 | equal contents, everything behind a pointer new |
| DeepCopies.DeploymentList.DeepCopyInto | api/v1alpha1/zz_generated.deepcopy.go:69-80 | element by element equal, all objects new, no two copies share an object whatever the originals shared |
| DeepCopies.CopyThenWrite | api/v1alpha1/zz_generated.deepcopy.go:83-90 | writing a parameter of one copy changes neither the original list nor another copy |

## Left out

- CloudFormation, STS and Kubernetes clients: their answers are arbitrary fields of `Replies`; only `BoundedWork` fixes how CloudFormation answers.
- Region detection, session creation, manager wiring, leader election, worker pool, sleeps, events, logging: input and output without a decision; region and session are replies.
- The role session name that default filling generates: it is never stored and never used.
- Adler-32 and the formatting under it: not part of this model; the checksum is any function of the spec.
- Timestamps of calls (`StartedAt`) and the uniqueness of generated identifiers: no decision depends on them, and no result needs them.
- Texts of status messages and log lines: messages are data that carry the stack id and the reasons.
- JSON encoding of stack events: the physical id and the resource status are read directly.
- Nil pointers inside parameter, output and tag entries of replies: every entry has a key and a value.
- Unicode encoding: strings are sequences of code points, so the 20 byte minimum of a role ARN counts code points.
- `sort.Strings`: library code; an insertion sort with the same order stands for it.
- Deletion of stacks, `DescribeChangeSet`, and the commented-out delete and timeout code: not live in the reconcile loop.
- Deep copies of Kubernetes metadata: library code; metadata is copied as one value.
- BoundedWork.BoundedRun: assumes that reconciles which pass a guard read the latest version and succeed with their call and their write, that all others read a version with the present spec, and that nobody else changes the stack. `Hazards` gives, for each of the three accepted calls, what follows exactly when its write is lost; for the two calls of an update also what follows when the version in front of it is read again. `GuardedCalls` covers every other read.
- Convergence.ThreePasses: leaves out resources whose awaited change set is pending, being created, ready or failed, or whose listing fails: such a pass waits, executes or fails instead of comparing.
