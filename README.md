# Guarded onboarding workflow, in Dafny

This project models the core of a bank-onboarding workflow service. A
*process* is one client's way through one of four flows: single owner, multi
owner, minor, and minor-to-regular conversion. The process is kept in a
store and moves from state to state on *events*, advanced by a state
machine (the engine). The model covers these parts:

- **Domain** (`domain.dfy`): the process types, states and events. The
  fourteen declared states each carry a screen code. Values (`values.dfy`):
  the variable map of a process, the Java coercions the guards and checks
  apply to its values, and the number parsing they rely on. Records
  (`records.dfy`): the process instance and the history record.
- **Guards and transition table** (`guards.dfy`, `transitions.dfy`). A guard
  is an expression datatype with one evaluator over the strict-guards switch
  and the engine's variables. The table lists 28 transitions in
  configuration order. Each is scoped to the flow whose builder adds it. The
  engine (`Apply`) answers with the target of the first transition out of
  the current state whose event matches and whose guard holds, or rejects
  the event.
- **Step plan** (`step_plan.dfy`): the fixed partial map from (flow type,
  state) to the event that advances the process.
- **Preconditions and registry** (`preconditions.dfy`, `registry.dfy`). Each
  of the twelve checks is a `supports` predicate and a `validate` function.
  The registry concatenates the errors of the checks that apply, in list
  order.
- **Orchestrator** (`flow_spec.dfy`, `flow_service.dfy`). `FlowSpec` gives
  each service operation as a function from the whole persistent state to
  the new state and the answer. The store has three parts: the process
  repository, the append-only history, and the engine-context snapshots
  that the in-memory persister keeps. `FlowService.FlowService` is the
  class. Its fields are those stores, and its methods update them in place.
  Each method is proved to leave exactly the state the corresponding
  function prescribes, and to keep the store invariant `Consistent`. The
  invariant says that ids are issued by the counter and that a snapshot names
  the stored state. It also says that each process's history opens with its
  creation record, has no gaps, and ends in the process's current state
  and variables.

The precondition registry and the state-machine factory are injected into
the service, so `FlowSpec.Config` carries them as two function values:
`validate` and `fire`. Every operation property is proved for any such
wiring. The predicate `FlowSpec.Wired(cfg, strict, checks)` states that the
application's wiring is in place: `validate` is `Registry.ValidateAll` over
`checks`, and `fire` is `Transitions.Apply` with the given strict-guards
switch over the configured table. The end-to-end scenarios and the two
findings are proved under that predicate.

Values are `VNull | VBool | VInt | VDouble(real) | VStr | VType | VList`.
Integers and doubles are kept apart because the owners check parses the
*string form* of the share. Under that parse the integer 100 passes, but
the double 100.0 ("100.0") is not numeric. A null map, whether payload or
variables, behaves as an empty map in every place the source reads it, so
maps are plain `map`s. Process ids are a counter the store hands out.

Where the configuration names an event that the event enumeration lacks
(`SUBMIT_US_PASSPORT`, used by the single-owner flow only), the model
follows the configuration and adds the event. It likewise adds the seven
states and eight events that only the precondition checks name. No
transition and no plan entry uses those.

## Model

| member | source | states |
|---|---|---|
| `Domain.DeclaredStatesComplete` | src/main/java/com/example/state_machine/model/ProcessState.java:9-30 | the declared list holds exactly the fourteen enum constants, each once |
| `Domain.ScreenCodeGrouped` | src/main/java/com/example/state_machine/model/ProcessState.java:8-30 | every declared state's code begins with the "s5x0." prefix of the flow group it is listed under |
| `Domain.ScreenCodeInjective` | src/main/java/com/example/state_machine/model/ProcessState.java:9-32 | distinct declared states have distinct screen codes |
| `Domain.StartedCode` | src/main/java/com/example/state_machine/model/ProcessState.java:9 | the initial state's code is s500.1 |
| `Values.TrimIsInnerSlice` | src/main/java/com/example/state_machine/service/advance/preconditions/BasePrecondition.java:31 | trimming removes exactly the leading and trailing characters up to U+0020 and keeps the inner slice, which then starts and ends with a non-blank |
| `Values.ToUpper` | src/main/java/com/example/state_machine/service/advance/preconditions/BasePrecondition.java:31 | upper-casing keeps the length and maps each character on its own |
| `Values.ParseInt` | src/main/java/com/example/state_machine/service/advance/preconditions/OwnersReadyPrecondition.java:41 | a parse succeeds only on an optional sign followed by digits, and its answer is then the signed value of the digits, within the 32-bit range (so an out-of-range run fails); a digit run in range, with no sign, a "+" or a "-", parses to its signed value (ASCII digits only, see Left out) |
| `Values.ParseIntText` | src/main/java/com/example/state_machine/service/advance/preconditions/OwnersReadyPrecondition.java:41 | the integer parse of an integer's decimal form gives it back exactly when it fits in 32 bits |
| `Values.NatTextValue` | src/main/java/com/example/state_machine/service/advance/preconditions/OwnersReadyPrecondition.java:41 | the digits of a natural's decimal form read back as that natural |
| `Values.ToDoubleDecimalString` | src/main/java/com/example/state_machine/config/StateMachineConfig.java:288-292 | the text "0.960" converts to the number 0.96 |
| `Values.ToDoubleSignedExponent` | src/main/java/com/example/state_machine/config/StateMachineConfig.java:288-292 | a trimmed, signed text with an exponent converts: " -1.5e1 " gives -15 |
| `Values.ToDoubleRejects` | src/main/java/com/example/state_machine/config/StateMachineConfig.java:288-292 | a text that is not a number ("abc", "") does not convert |
| `Values.ParseDoubleNatText` | src/main/java/com/example/state_machine/config/StateMachineConfig.java:288-292 | the decimal text of every natural number converts to that number |
| `Values.ParseDoubleIntText` | src/main/java/com/example/state_machine/config/StateMachineConfig.java:288-292 | the string form of every integral box, negative ones included, converts to its value |
| `Values.AsBooleanCases` | src/main/java/com/example/state_machine/service/advance/preconditions/BasePrecondition.java:23-27 | null gives the default, a boolean gives itself, and any other value is true exactly when it is a text equal to "true" ignoring case |
| `Values.IntOfCases` | src/main/java/com/example/state_machine/service/advance/preconditions/OwnersReadyPrecondition.java:41 | an integer in range parses as itself; a double, a list or null never parses; "100" parses and "100.0" and "abc" do not |
| `Guards.AllOfPair` | src/main/java/com/example/state_machine/config/StateMachineConfig.java:222-229 | an allOf of two guards holds exactly when both hold |
| `Guards.AllOfTriple` | src/main/java/com/example/state_machine/config/StateMachineConfig.java:222-229 | an allOf of three guards holds exactly when all three hold |
| `Guards.LenientBusinessGuards` | src/main/java/com/example/state_machine/config/StateMachineConfig.java:233-278 | with strict guards off, the KYC, biometry, owners, parent-consent and conversion guards always hold |
| `Guards.VoiceScoreIgnoresStrict` | src/main/java/com/example/state_machine/config/StateMachineConfig.java:281-286 | the voice-score guard has the same value whether strict guards are on or off: a converted score strictly above 0.95 |
| `Guards.VoiceScoreBoundary` | src/main/java/com/example/state_machine/config/StateMachineConfig.java:281-292 | exactly 0.95, a missing score and an unparsable score fail; "0.960" and 0.96 pass |
| `Guards.OwnersCompleteStrict` | src/main/java/com/example/state_machine/config/StateMachineConfig.java:252-261 | under strict guards the owners guard holds exactly when the share converts and lies within 1e-6 of 100, so the text fallback never rescues an unparsable share |
| `Transitions.Scan` | src/main/java/com/example/state_machine/config/StateMachineConfig.java:59-65 | the scan rejects exactly when no listed transition is enabled, and otherwise answers the target of the first enabled one |
| `Transitions.TableShape` | src/main/java/com/example/state_machine/config/StateMachineConfig.java:70-197 | the table has 28 transitions, and each guard is its flow's type guard, alone or first in an allOf |
| `Transitions.KeysUnique` | src/main/java/com/example/state_machine/config/StateMachineConfig.java:70-197 | within one flow, no two transitions share a (state, event) pair, except the two sides of the US-citizen branch |
| `Transitions.TypeGuardOwnFlow` | src/main/java/com/example/state_machine/config/StateMachineConfig.java:203-208 | a transition's guard holds only if the process-type variable is exactly that transition's type |
| `Transitions.UntypedRejected` | src/main/java/com/example/state_machine/config/StateMachineConfig.java:203-208 | with a missing process type, or one that is not a type value, every event is rejected |
| `Transitions.AcceptedInOwnFlow` | src/main/java/com/example/state_machine/config/StateMachineConfig.java:59-208 | an accepted event follows a transition of the instance's own flow, from the current state, to the answered target |
| `Transitions.UnlistedRejected` | src/main/java/com/example/state_machine/config/StateMachineConfig.java:59-197 | a (state, event) pair that the instance's flow does not list is rejected |
| `Transitions.CitizenSidesExclusive` | src/main/java/com/example/state_machine/config/StateMachineConfig.java:78-83 | the two sides of the US-citizen branch are never enabled together |
| `Transitions.Deterministic` | src/main/java/com/example/state_machine/config/StateMachineConfig.java:59-197 | for any variables, state and event, at most one transition is enabled |
| `Transitions.OnlyEntry` | src/main/java/com/example/state_machine/config/StateMachineConfig.java:59-197 | for a transition whose key is listed once, the engine answers its target exactly when its guard holds, and rejects otherwise |
| `Transitions.AcceptedOnlyBetweenDeclared` | src/main/java/com/example/state_machine/config/StateMachineConfig.java:70-197 | accepted events only lead from a declared state to a declared state; the states named only by checks accept nothing |
| `Transitions.FinalStatesAcceptNothing` | src/main/java/com/example/state_machine/config/StateMachineConfig.java:70-197 | the three account-creating states reject every event |
| `Transitions.ConversionNotFromStarted` | src/main/java/com/example/state_machine/config/StateMachineConfig.java:159-166 | a conversion process rejects every event in STARTED |
| `Transitions.CitizenBranch` | src/main/java/com/example/state_machine/config/StateMachineConfig.java:78-83 | a single owner's answers lead to the passport details exactly when the citizen flag coerces to true, and to KYC otherwise; they are never rejected |
| `Transitions.FinalizingNeedsVoiceScore` | src/main/java/com/example/state_machine/config/StateMachineConfig.java:70-166 | no account-finalizing transition is taken without a voice score strictly above 0.95, under either guard setting |
| `Transitions.CreateAccountGate` | src/main/java/com/example/state_machine/config/StateMachineConfig.java:97-99 | a single owner's account is created exactly when the voice score passes |
| `Transitions.ParentApprovalGate` | src/main/java/com/example/state_machine/config/StateMachineConfig.java:151-153 | a minor's approval depends on the consent guard alone (a non-blank document under strict guards), not on the voice score |
| `Transitions.ConfirmOwnersGate` | src/main/java/com/example/state_machine/config/StateMachineConfig.java:124-126 | all owners are confirmed exactly when the owners guard and the voice score pass |
| `Transitions.CompleteConversionGate` | src/main/java/com/example/state_machine/config/StateMachineConfig.java:163-165 | a conversion completes exactly when the voice score passes and, under strict guards, the converted flag coerces to true |
| `Transitions.KycGate` | src/main/java/com/example/state_machine/config/StateMachineConfig.java:233-239 | in the three onboarding flows, KYC completes exactly when the status is APPROVED ignoring case, or guards are lenient |
| `Transitions.BiometryGate` | src/main/java/com/example/state_machine/config/StateMachineConfig.java:241-250 | in the three onboarding flows, biometry succeeds exactly when the biometry guard holds |
| `Transitions.BackPolicy` | src/main/java/com/example/state_machine/config/StateMachineConfig.java:171-197 | the engine's answer to BACK equals an independent reference: one step back, and only from the account questions or the personal details of the flows that list them |
| `Transitions.BackListed` | src/main/java/com/example/state_machine/config/StateMachineConfig.java:171-191 | BACK from a listed state leads to the reference target |
| `Transitions.BackUnlisted` | src/main/java/com/example/state_machine/config/StateMachineConfig.java:171-197 | BACK from any other state is rejected |
| `Transitions.BackOnlyEarly` | src/main/java/com/example/state_machine/config/StateMachineConfig.java:168-197 | BACK is rejected in every state but the account questions and the personal details |
| `StepPlan.Find` | src/main/java/com/example/state_machine/service/advance/StepPlan.java:45-47 | the lookup finds nothing exactly when no entry has the key, and otherwise answers the event of an entry with that key |
| `StepPlan.PlanKeysDistinct` | src/main/java/com/example/state_machine/service/advance/StepPlan.java:14-43 | the plan lists 21 entries under pairwise distinct keys |
| `StepPlan.NextListed` | src/main/java/com/example/state_machine/service/advance/StepPlan.java:14-47 | each listed key yields exactly its listed event |
| `StepPlan.NextUnlisted` | src/main/java/com/example/state_machine/service/advance/StepPlan.java:45-47 | a key has no step exactly when it is not listed |
| `StepPlan.NextListedExamples` | src/main/java/com/example/state_machine/service/advance/StepPlan.java:14-43 | (SINGLE_OWNER, STARTED) gives START_FLOW and (MULTI_OWNER, BIOMETRY_VERIFIED) gives ADD_OWNER |
| `StepPlan.NextUnlistedExamples` | src/main/java/com/example/state_machine/service/advance/StepPlan.java:45-47 | (SINGLE_OWNER, ACCOUNT_CREATED) and (MINOR_TO_REGULAR, STARTED) have no step |
| `StepPlan.SingleOwnerBranchUnplanned` | src/main/java/com/example/state_machine/service/advance/StepPlan.java:15-19 | a single owner has no step at the account questions or the passport details |
| `StepPlan.PlanMatchesTable` | src/main/java/com/example/state_machine/service/advance/StepPlan.java:14-43 | every planned step names a transition of that flow from that state, except the minor's CREATE_ACCOUNT after the limited account, which the engine always rejects |
| `Preconditions.Read` | src/main/java/com/example/state_machine/service/advance/preconditions/BasePrecondition.java:10-14 | the payload's value unless it is null, else the stored one; null exactly when both are null |
| `Preconditions.IsEmptyCases` | src/main/java/com/example/state_machine/service/advance/preconditions/BasePrecondition.java:16-21 | numbers and booleans, false included, are never empty; a text is empty exactly when blank |
| `Preconditions.InExamples` | src/main/java/com/example/state_machine/service/advance/preconditions/BasePrecondition.java:29-34 | null matches no allowed word; " ok " matches OK after trimming and upper-casing |
| `Preconditions.ReadScore` | src/main/java/com/example/state_machine/service/advance/preconditions/VoiceScoreSatisfiedPrecondition.java:93-97 | a payload score that converts wins; otherwise the stored score's conversion is used |
| `Preconditions.ValidateVoiceScore` | src/main/java/com/example/state_machine/service/advance/preconditions/VoiceScoreSatisfiedPrecondition.java:73-84 | no error exactly when the resolved score is strictly above 0.95; otherwise the single error VOICE_SCORE_TOO_LOW |
| `Preconditions.VoiceScoreExamples` | src/main/java/com/example/state_machine/service/advance/preconditions/VoiceScoreSatisfiedPrecondition.java:73-109 | 0.95 fails, "0.960" passes, a score missing in both places fails, and an unparsable payload score falls back to the stored one |
| `Preconditions.ValidateOwnersReady` | src/main/java/com/example/state_machine/service/advance/preconditions/OwnersReadyPrecondition.java:21-49 | no error exactly when the owners count is present and the share parses as the integer 100; at most two errors, the count first; a missing count always gives COUNT_REQUIRED first; a missing share is reported once and never as invalid |
| `Preconditions.OwnersShareExamples` | src/main/java/com/example/state_machine/service/advance/preconditions/OwnersReadyPrecondition.java:40-46 | integer 100 and "100" pass; "100.0", "abc" and the double 100.0 are not numeric; 50 is not 100 |
| `Preconditions.ValidateKycResult` | src/main/java/com/example/state_machine/service/advance/preconditions/KycResultPresentPrecondition.java:21-41 | no error exactly when a status is present and APPROVED ignoring case; a null status gives KYC_RESULT_PRESENT alone; any other status gives KYC_NOT_APPROVED alone |
| `Preconditions.KycNullPayloadShadows` | src/main/java/com/example/state_machine/service/advance/preconditions/KycResultPresentPrecondition.java:28-34 | a payload key holding null hides an approved stored status; "approved" in any case passes |
| `Preconditions.ValidateParentConsent` | src/main/java/com/example/state_machine/service/advance/preconditions/ParentConsentPresentPrecondition.java:20-30 | no error exactly when a consent document is non-null in the payload or the variables; otherwise only CONSENT_DOCUMENT_REQUIRED |
| `Preconditions.BlankConsentDiffersFromGuard` | src/main/java/com/example/state_machine/service/advance/preconditions/ParentConsentPresentPrecondition.java:26 | a blank document satisfies the check but fails the strict consent guard |
| `Preconditions.ValidateMinorIdLinked` | src/main/java/com/example/state_machine/service/advance/preconditions/MinorIdLinkedPrecondition.java:22-29 | an error exactly when the stored linked account id is missing; only MINOR_ACCOUNT_LINK_REQUIRED |
| `Preconditions.MinorIdIgnoresPayload` | src/main/java/com/example/state_machine/service/advance/preconditions/MinorIdLinkedPrecondition.java:24 | the payload never changes the linked-account check's result |
| `Preconditions.ValidateCustomerValidation` | src/main/java/com/example/state_machine/service/advance/preconditions/CustomerValidationStatusRequiredPrecondition.java:22-31 | no error exactly when the status is non-empty and trims and upper-cases to OK or FAIL; an empty status gives REQUIRED only; at most one error |
| `Preconditions.ValidateInformationActivities` | src/main/java/com/example/state_machine/service/advance/preconditions/InformationActivitiesRequiredPrecondition.java:23-32 | an error exactly when the preferences, payload first, are empty; only the REQUIRED error |
| `Preconditions.BlankPreferencesShadow` | src/main/java/com/example/state_machine/service/advance/preconditions/InformationActivitiesRequiredPrecondition.java:25 | a blank payload value shadows a filled stored one and still fails |
| `Preconditions.ValidateAccountActivities` | src/main/java/com/example/state_machine/service/advance/preconditions/AccountActivitiesRequiredPrecondition.java:23-32 | an error exactly when the activities, payload first, are empty; only the REQUIRED error |
| `Preconditions.StoredActivitiesSuffice` | src/main/java/com/example/state_machine/service/advance/preconditions/AccountActivitiesRequiredPrecondition.java:25 | a filled stored value passes when the payload omits the key |
| `Preconditions.ValidateWarningsAcknowledge` | src/main/java/com/example/state_machine/service/advance/preconditions/WarningsAcknowledgeRequiredPrecondition.java:23-32 | an error exactly when the acknowledgement, payload first, is empty; a false acknowledgement passes; only the REQUIRED error |
| `Preconditions.ValidateVideoSubmit` | src/main/java/com/example/state_machine/service/advance/preconditions/VideoSubmitRequiredPrecondition.java:22-29 | no error exactly when the continue flag (true when absent) reads false or a video is present; only the REQUIRED error |
| `Preconditions.VideoWaived` | src/main/java/com/example/state_machine/service/advance/preconditions/VideoSubmitRequiredPrecondition.java:24-25 | a continue flag of false, or a text other than "true", waives the video |
| `Preconditions.ValidateSpeechToText` | src/main/java/com/example/state_machine/service/advance/preconditions/SpeechToTextTranscriptionRequiredPrecondition.java:22-28 | an error exactly when the transcription, payload first, is empty; only the REQUIRED error, for either supported event |
| `Preconditions.Validate` | src/main/java/com/example/state_machine/service/advance/Precondition.java:8-11 | over the twelve implementations of the check interface (the files under service/advance/preconditions/): the welcome check reports nothing; every check but the owners check reports at most one error, the owners check at most two |
| `Preconditions.WelcomeOnlyForMinor` | src/main/java/com/example/state_machine/service/advance/preconditions/WelcomeCompleteInfoPrecondition.java:15-19 | the welcome check applies exactly to the minor's COMPLETE_WELCOME at WELCOME |
| `Registry.Selected` | src/main/java/com/example/state_machine/service/advance/PreconditionRegistry.java:20-21 | the selection is no longer than the list; it depends on type, state and event only, never on the payload |
| `Registry.SelectedAppend` | src/main/java/com/example/state_machine/service/advance/PreconditionRegistry.java:20-21 | selection distributes over concatenation, so it keeps list order |
| `Registry.CollectAppend` | src/main/java/com/example/state_machine/service/advance/PreconditionRegistry.java:22-23 | the collected errors of a concatenation are the two lists' errors in order |
| `Registry.SelectedMembers` | src/main/java/com/example/state_machine/service/advance/PreconditionRegistry.java:21 | a check is selected exactly when it is listed and applies |
| `Registry.CollectEmptyIff` | src/main/java/com/example/state_machine/service/advance/PreconditionRegistry.java:22 | the collected errors are empty exactly when every check reports none |
| `Registry.ValidateAllEmptyIff` | src/main/java/com/example/state_machine/service/advance/PreconditionRegistry.java:19-24 | the registry reports nothing exactly when every listed check that applies reports nothing |
| `Registry.NothingApplies` | src/main/java/com/example/state_machine/service/advance/PreconditionRegistry.java:20-21 | when no check applies, or the list is empty, nothing is reported |
| `Registry.WelcomeNeutral` | src/main/java/com/example/state_machine/service/advance/PreconditionRegistry.java:19-24 | registering the welcome check at any position changes no result |
| `Registry.RegisteredAtKyc` | src/main/java/com/example/state_machine/service/advance/PreconditionRegistry.java:19-24 | for KYC_VERIFIED, the registered checks report exactly the KYC result check's errors |
| `Registry.RegisteredAtCreateAccount` | src/main/java/com/example/state_machine/service/advance/PreconditionRegistry.java:19-24 | at a single owner's account creation, the registered checks report exactly the voice-score check's errors |
| `Registry.RegisteredAtConfirmOwners` | src/main/java/com/example/state_machine/service/advance/PreconditionRegistry.java:19-24 | at the confirmation of all owners, the owners check's errors come first and the voice-score check's second |
| `Registry.UncheckedEvents` | src/main/java/com/example/state_machine/service/advance/PreconditionRegistry.java:19-24 | no check applies to START_FLOW, BACK or SUBMIT_ANSWERS, so any list reports nothing for them |
| `FlowSpec.HistoryOf` | src/main/java/com/example/state_machine/service/FlowService.java:144-146 | a process's history holds only records of that process, at most all records |
| `FlowSpec.HistoryOfAppend` | src/main/java/com/example/state_machine/service/FlowService.java:357-383 | appending a record adds it to its own process's history only, at the end |
| `FlowSpec.HistoryLineage` | src/main/java/com/example/state_machine/service/FlowService.java:76-213 | in a consistent store a process's history opens with its one creation record (from no state, by no event, into STARTED), each later record leaves the state the one before reached, and the last record holds the current state and variables |
| `FlowSpec.EmptyConsistent` | src/main/java/com/example/state_machine/service/FlowService.java:76-95 | the empty store is consistent and has no history for any id |
| `FlowSpec.StartProcessOutcome` | src/main/java/com/example/state_machine/service/FlowService.java:76-95 | refused, with no effect and the matching message, exactly for a blank client id or a missing type; otherwise a STARTED process with the initial data under a fresh id, and one creation record as its whole history |
| `FlowSpec.UnknownIdChangesNothing` | src/main/java/com/example/state_machine/service/FlowService.java:105-290 | every operation that looks the process up (all except getHistory, which answers an empty list) answers NotFound on an unknown id and changes nothing |
| `FlowSpec.SeedOrder` | src/main/java/com/example/state_machine/service/FlowService.java:338-341 | the engine's variables: the payload wins, then the stored variables, then the process type |
| `FlowSpec.ShadowedTypeRejects` | src/main/java/com/example/state_machine/service/FlowService.java:338-341 | a stored or submitted processType that is not a type value hides the real type, so every event that passes its preconditions is rejected |
| `FlowSpec.HandleEventOutcome` | src/main/java/com/example/state_machine/service/FlowService.java:163-213 | succeeds exactly when preconditions pass and the engine accepts; a failure of either changes nothing; on success the target is stored with the payload merged, the snapshot names the target, the counter stays, and the history grows by exactly the transition record |
| `FlowSpec.UpdateVariablesOutcome` | src/main/java/com/example/state_machine/service/FlowService.java:120-135 | the updated process is saved under its id and no other process changes; the state stays, the updates win over the old variables and the others stay; the id counter and the snapshots stay, and one record from the state to itself with no event is appended |
| `FlowSpec.AdvanceIsPlannedEvent` | src/main/java/com/example/state_machine/service/FlowService.java:227-242 | with no planned step the answer is NoNextStep and nothing changes; otherwise the outcome is handleEvent's for the planned event |
| `FlowSpec.AdvanceProcessAsWrittenEffects` | src/main/java/com/example/state_machine/service/FlowService.java:257-290 | the original advanceProcess succeeds exactly when the engine accepts the event; it then saves, for this process only, the engine's target state and its whole variable map, process type included; it never writes history, snapshots or the id counter, and a refusal is NoNextStep with no effect |
| `FlowSpec.AdvanceProcessAsWrittenIgnoresRegistry` | src/main/java/com/example/state_machine/service/FlowService.java:257-290 | the original advanceProcess answers and writes the same whatever precondition registry is injected |
| `FlowSpec.AdvanceProcessOutcome` | src/main/java/com/example/state_machine/service/FlowService.java:257-290 | the corrected advanceProcess succeeds exactly when preconditions pass and the engine accepts; failures change nothing; success writes the process, the snapshot and one transition record |
| `FlowSpec.EngineStartsFromStored` | src/main/java/com/example/state_machine/service/FlowService.java:313-335 | in a consistent store the engine starts from the stored state |
| `FlowSpec.TransitEffects` | src/main/java/com/example/state_machine/service/FlowService.java:196-211 | an accepted transition replaces the process, writes the snapshot, keeps the counter and appends the record whose variables are the new ones |
| `FlowSpec.WriteKeepsConsistent` | src/main/java/com/example/state_machine/service/FlowService.java:357-383 | storing a process and appending the record that reflects it (a creation record for a new id, a record leaving the stored state otherwise) keeps the store consistent, history chain included |
| `FlowSpec.StartProcessKeepsConsistent` | src/main/java/com/example/state_machine/service/FlowService.java:76-95 | startProcess keeps the store consistent |
| `FlowSpec.UpdateVariablesKeepsConsistent` | src/main/java/com/example/state_machine/service/FlowService.java:120-135 | updateVariables keeps the store consistent |
| `FlowSpec.TransitKeepsConsistent` | src/main/java/com/example/state_machine/service/FlowService.java:196-211 | the writes of an accepted transition out of the stored state keep the store consistent, history chain included, whatever the target and variables |
| `FlowSpec.HandleEventKeepsConsistent` | src/main/java/com/example/state_machine/service/FlowService.java:163-213 | handleEvent keeps the store consistent |
| `FlowSpec.AdvanceKeepsConsistent` | src/main/java/com/example/state_machine/service/FlowService.java:227-242 | advance keeps the store consistent |
| `FlowSpec.AdvanceProcessKeepsConsistent` | src/main/java/com/example/state_machine/service/FlowService.java:257-290 | the corrected advanceProcess keeps the store consistent |
| `FlowSpec.FlowStartFromStarted` | src/main/java/com/example/state_machine/service/FlowService.java:163-213 | in the configured application, START_FLOW on a fresh single-owner process moves it to the account questions, writes the snapshot and keeps the store consistent |
| `FlowSpec.StaleSnapshotSetup` | src/main/java/com/example/state_machine/service/FlowService.java:76-213 | from any consistent store, starting a single-owner process and handling START_FLOW leaves it at the account questions with a snapshot |
| `FlowSpec.AnswersAsWritten` | src/main/java/com/example/state_machine/service/FlowService.java:257-290 | the original advanceProcess moves a single owner's answers to KYC and rewrites only the process |
| `FlowSpec.BackFromStaleSnapshot` | src/main/java/com/example/state_machine/service/FlowService.java:306-345 | from a snapshot at the account questions, BACK is accepted and leads to STARTED, whatever state is stored |
| `FlowSpec.StaleStore` | src/main/java/com/example/state_machine/service/FlowService.java:257-290 | the store the original advanceProcess leaves keeps the old snapshot and is no longer consistent |
| `FlowSpec.StaleSnapshotAsWritten` | src/main/java/com/example/state_machine/service/FlowService.java:257-290 | the original advanceProcess leaves the snapshot behind the stored state, breaking consistency, and a later BACK is accepted from KYC_IN_PROGRESS |
| `FlowSpec.BackRefusedAtKyc` | src/main/java/com/example/state_machine/config/StateMachineConfig.java:171-197 | in a consistent store, BACK at a single owner's KYC is refused with no effect |
| `FlowSpec.AnswersCorrected` | src/main/java/com/example/state_machine/service/FlowService.java:257-290 | the corrected advanceProcess moves a single owner's answers to KYC with the snapshot and record written |
| `FlowSpec.StaleSnapshotCorrected` | src/main/java/com/example/state_machine/service/FlowService.java:257-290 | with the correction the snapshot follows the state, the store stays consistent, and a later BACK is refused with no effect |
| `FlowSpec.SkippedPreconditionsAsWritten` | src/main/java/com/example/state_machine/service/FlowService.java:257-290 | with lenient guards and the registered checks, the original advanceProcess moves a KYC process with no status on, while handleEvent refuses with KYC_RESULT_PRESENT |
| `FlowSpec.SkippedPreconditionsCorrected` | src/main/java/com/example/state_machine/service/FlowService.java:257-290 | the corrected advanceProcess refuses the same event with the same error and changes nothing |
| `FlowService.FlowService.constructor` | src/main/java/com/example/state_machine/service/FlowService.java:76-95 | a new service holds the injected registry and factory, an empty store, and is consistent |
| `FlowService.FlowService.SaveHistory` | src/main/java/com/example/state_machine/service/FlowService.java:357-383 | appends exactly one record whose variables are what the store holds for the process now, or empty; nothing else changes |
| `FlowService.FlowService.Commit` | src/main/java/com/example/state_machine/service/FlowService.java:196-211 | stores the process, writes the snapshot and appends the transition record, as the transition function prescribes, keeping consistency |
| `FlowService.FlowService.ReadSnapshot` | src/main/java/com/example/state_machine/config/StateMachineConfig.java:298-305 | answers the written state exactly when one was written for the id |
| `FlowService.FlowService.InitStateMachine` | src/main/java/com/example/state_machine/service/FlowService.java:306-345 | the starting state is the snapshot if any, else the stored state; the variables are type, then stored variables, then payload |
| `FlowService.FlowService.StartProcess` | src/main/java/com/example/state_machine/service/FlowService.java:76-95 | leaves the store and answers as the startProcess function prescribes, and keeps consistency |
| `FlowService.FlowService.GetProcess` | src/main/java/com/example/state_machine/service/FlowService.java:105-108 | answers the stored process exactly when the id is stored, NotFound otherwise |
| `FlowService.FlowService.GetHistory` | src/main/java/com/example/state_machine/service/FlowService.java:144-146 | answers the process's records in write order, each of that process |
| `FlowService.FlowService.UpdateVariables` | src/main/java/com/example/state_machine/service/FlowService.java:120-135 | leaves the store and answers as the updateVariables function prescribes, and keeps consistency |
| `FlowService.FlowService.HandleEvent` | src/main/java/com/example/state_machine/service/FlowService.java:163-213 | leaves the store and answers as the handleEvent function prescribes, and keeps consistency |
| `FlowService.FlowService.Advance` | src/main/java/com/example/state_machine/service/FlowService.java:227-242 | leaves the store and answers as the advance function prescribes, and keeps consistency |
| `FlowService.FlowService.AdvanceProcess` | src/main/java/com/example/state_machine/service/FlowService.java:257-290 | leaves the store and answers as the corrected advanceProcess prescribes, and keeps consistency |

## Left out

- Timestamps, the `version` field, `@Transactional` and concurrent access are not modelled. The history is ordered by write order, which is what its timestamps order it by.
- The Mongo repositories are in-memory maps and a sequence. Ids come from a counter, not from generated object ids.
- Stored values keep their Java types: the model's store hands back exactly the value that was saved. Spring Data MongoDB writes an enum held in a variables map as its name and reads it back as a String. The ProcessType that the as-written advanceProcess saves under "processType" would therefore return as text, and the next handleEvent would reject every event (the case `FlowSpec.ShadowedTypeRejects` covers).
- The best-effort writes of the snapshot and of history can fail and be skipped in the source. The model always performs them.
- The first fallback in `initStateMachine`, an exception from the persister, is not modelled: the in-memory persister does not throw.
- A null registry, which skips `validateAll` entirely, is not a separate case. It behaves as an empty check list, or a validator that reports nothing.
- A null client id is treated as a blank one, and a null payload or variables map as an empty map. The source treats each of them the same way at every point where it reads them.
- "Invalid state after transition" in `advanceProcess` is not modelled: an accepted event always yields a state.
- Floating point: scores and shares are exact reals. NaN, infinities, hexadecimal literals and IEEE rounding in the double parse are not modelled.
- Values.ParseInt: reads only the ASCII digits '0' to '9'. Integer.parseInt accepts any Unicode decimal digit, so a totalShare of "１００" in fullwidth digits passes the owners check in the source, while the model reports INVALID_TOTAL_SHARE ("Total share must be numeric 100"). The decimal parse behind toDouble reads ASCII digits only, as Double.parseDouble does.
- Values.ToUpper: maps only the ASCII letters and keeps the length. String.toUpperCase depends on the default locale (in a Turkish locale "i" becomes a dotted capital İ) and Unicode's full mappings, some of which change the length (ß becomes SS). `Values.EqualsIgnoreCase` folds ASCII letters only, where String.equalsIgnoreCase folds every Unicode letter. The checks compare against ASCII words, so only values spelled with non-ASCII letters can differ.
- Blank tests are not narrowed: `Values.IsWhitespace` follows Character.isWhitespace over all of Unicode, and `Values.Trim` is String.trim exactly.
- A JSON object held in the variables or the payload (a Map in the source) has no `Value` kind. In the source a Map is not a Collection, so the emptiness test calls even `{}` non-empty, and it is never a number or an allowed word. Every reader would treat it as a non-empty list is treated.
- A double's or a list's string form is never rendered. Such a value is taken to match no allowed word and never to parse as an integer, because its form always holds a point, an exponent or a bracket.
- The Spring state-machine internals (the factory, reset, start and stop) and the logging listener are replaced by the pure engine over the table.
- The HTTP controller, DTOs, exception handler, API documentation and application entry point are transport glue. There is no conversion entry point, and nothing sets the linked minor account id.
- `FlowService.FlowService.AdvanceProcess` models the corrected advanceProcess. The code as written is `FlowSpec.AdvanceProcessAsWritten`, specified as a function only; see Findings.
- `Registry.Selected` and `Preconditions.ValidateSpeechToText` state payload independence and event independence by their signatures, not as separate contracts. That `validateAll` changes neither the instance nor the payload also holds by construction: every function is pure.
- The registered order of checks is taken as alphabetical by class name. That is the order the component scan finds them in; the source fixes no explicit order.

## Findings

| source | as written | input that shows it | evidently intended | confidence | as-written member | corrected member |
|---|---|---|---|---|---|---|
| src/main/java/com/example/state_machine/service/FlowService.java:257-290 | advanceProcess stores the new state but writes no engine-context snapshot and no history record, while handleEvent starts the engine from the snapshot | a single-owner process at ANSWER_ACCOUNT_QUESTIONS with a snapshot there and no variables; advanceProcess(SUBMIT_ANSWERS, {}) moves it to KYC_IN_PROGRESS, then handleEvent(BACK, {}) is accepted and sends it to STARTED. This holds for a store that keeps the saved ProcessType value; with the MongoDB store the type comes back as a String, and every later event on the process is rejected instead | the snapshot and the history follow every state change, as in handleEvent, so BACK is refused from KYC_IN_PROGRESS | high, not executed | `FlowSpec.StaleSnapshotAsWritten` | `FlowSpec.StaleSnapshotCorrected` |
| src/main/java/com/example/state_machine/service/FlowService.java:257-290 | advanceProcess sends the event without running the preconditions, although its contract lists PreconditionsNotMetException | lenient guards, the registered checks, a single-owner process at KYC_IN_PROGRESS with no variables; advanceProcess(KYC_VERIFIED, {}) moves it to WAITING_FOR_BIOMETRY, while handleEvent refuses with KYC_RESULT_PRESENT | the preconditions are checked first, as in handleEvent and advance | medium, not executed | `FlowSpec.SkippedPreconditionsAsWritten` | `FlowSpec.SkippedPreconditionsCorrected` |
