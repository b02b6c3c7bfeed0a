/** The guarded transition table of all four flows plus the early BACK
    transitions, and the engine that fires an event against it. */
module Transitions {
  import opened Domain
  import opened Values
  import opened Guards

  /** One configured transition, scoped to the flow whose builder added it. */
  datatype Transition = Transition(
    flow: ProcessType,
    source: ProcessState,
    event: ProcessEvent,
    guard: Guard,
    target: ProcessState)

  /** Single owner, with the US-citizen branch after the account questions. */
  const SingleOwnerFlow: seq<Transition> := [
    Transition(SINGLE_OWNER, STARTED, START_FLOW, TypeIs(SINGLE_OWNER), ANSWER_ACCOUNT_QUESTIONS),
    Transition(SINGLE_OWNER, ANSWER_ACCOUNT_QUESTIONS, SUBMIT_ANSWERS,
               AllOf([TypeIs(SINGLE_OWNER), IsUsCitizen]), US_PASSPORT_DETAILS),
    Transition(SINGLE_OWNER, ANSWER_ACCOUNT_QUESTIONS, SUBMIT_ANSWERS,
               AllOf([TypeIs(SINGLE_OWNER), Not(IsUsCitizen)]), KYC_IN_PROGRESS),
    Transition(SINGLE_OWNER, US_PASSPORT_DETAILS, SUBMIT_US_PASSPORT, TypeIs(SINGLE_OWNER), KYC_IN_PROGRESS),
    Transition(SINGLE_OWNER, KYC_IN_PROGRESS, KYC_VERIFIED,
               AllOf([TypeIs(SINGLE_OWNER), KycApproved]), WAITING_FOR_BIOMETRY),
    Transition(SINGLE_OWNER, WAITING_FOR_BIOMETRY, BIOMETRY_SUCCESS,
               AllOf([TypeIs(SINGLE_OWNER), BiometryPassed]), BIOMETRY_VERIFIED),
    Transition(SINGLE_OWNER, BIOMETRY_VERIFIED, CREATE_ACCOUNT,
               AllOf([TypeIs(SINGLE_OWNER), VoiceScoreStrict]), ACCOUNT_CREATED)
  ]

  const MultiOwnerFlow: seq<Transition> := [
    Transition(MULTI_OWNER, STARTED, START_FLOW, TypeIs(MULTI_OWNER), FILL_PERSONAL_DETAILS),
    Transition(MULTI_OWNER, FILL_PERSONAL_DETAILS, SUBMIT_PERSONAL, TypeIs(MULTI_OWNER), ANSWER_ACCOUNT_QUESTIONS),
    Transition(MULTI_OWNER, ANSWER_ACCOUNT_QUESTIONS, SUBMIT_ANSWERS, TypeIs(MULTI_OWNER), KYC_IN_PROGRESS),
    Transition(MULTI_OWNER, KYC_IN_PROGRESS, KYC_VERIFIED,
               AllOf([TypeIs(MULTI_OWNER), KycApproved]), WAITING_FOR_BIOMETRY),
    Transition(MULTI_OWNER, WAITING_FOR_BIOMETRY, BIOMETRY_SUCCESS,
               AllOf([TypeIs(MULTI_OWNER), BiometryPassed]), BIOMETRY_VERIFIED),
    Transition(MULTI_OWNER, BIOMETRY_VERIFIED, ADD_OWNER, TypeIs(MULTI_OWNER), WAITING_FOR_ALL_OWNERS),
    Transition(MULTI_OWNER, WAITING_FOR_ALL_OWNERS, CONFIRM_ALL_OWNERS,
               AllOf([TypeIs(MULTI_OWNER), OwnersComplete, VoiceScoreStrict]), ACCOUNT_CREATED)
  ]

  const MinorFlow: seq<Transition> := [
    Transition(MINOR, STARTED, START_FLOW, TypeIs(MINOR), FILL_PERSONAL_DETAILS),
    Transition(MINOR, FILL_PERSONAL_DETAILS, SUBMIT_PERSONAL, TypeIs(MINOR), ANSWER_ACCOUNT_QUESTIONS),
    Transition(MINOR, ANSWER_ACCOUNT_QUESTIONS, SUBMIT_ANSWERS, TypeIs(MINOR), KYC_IN_PROGRESS),
    Transition(MINOR, KYC_IN_PROGRESS, KYC_VERIFIED, AllOf([TypeIs(MINOR), KycApproved]), WAITING_FOR_BIOMETRY),
    Transition(MINOR, WAITING_FOR_BIOMETRY, BIOMETRY_SUCCESS,
               AllOf([TypeIs(MINOR), BiometryPassed]), BIOMETRY_VERIFIED),
    Transition(MINOR, BIOMETRY_VERIFIED, REQUEST_PARENT_CONSENT, TypeIs(MINOR), WAITING_FOR_PARENT_CONSENT),
    Transition(MINOR, WAITING_FOR_PARENT_CONSENT, PARENT_APPROVED,
               AllOf([TypeIs(MINOR), ParentConsent]), ACCOUNT_CREATED_LIMITED)
  ]

  const MinorToRegularFlow: seq<Transition> := [
    Transition(MINOR_TO_REGULAR, MINOR_ACCOUNT_IDENTIFIED, CONFIRM_CONVERSION,
               TypeIs(MINOR_TO_REGULAR), WAITING_FOR_CONVERSION_CONFIRMATION),
    Transition(MINOR_TO_REGULAR, WAITING_FOR_CONVERSION_CONFIRMATION, COMPLETE_CONVERSION,
               AllOf([TypeIs(MINOR_TO_REGULAR), VoiceScoreStrict, ConversionConfirmed]), ACCOUNT_CONVERTED_TO_REGULAR)
  ]

  /** BACK only before the account questions have been answered. */
  const BackTransitions: seq<Transition> := [
    Transition(SINGLE_OWNER, ANSWER_ACCOUNT_QUESTIONS, BACK, TypeIs(SINGLE_OWNER), STARTED),
    Transition(MULTI_OWNER, ANSWER_ACCOUNT_QUESTIONS, BACK, TypeIs(MULTI_OWNER), FILL_PERSONAL_DETAILS),
    Transition(MULTI_OWNER, FILL_PERSONAL_DETAILS, BACK, TypeIs(MULTI_OWNER), STARTED),
    Transition(MINOR, ANSWER_ACCOUNT_QUESTIONS, BACK, TypeIs(MINOR), FILL_PERSONAL_DETAILS),
    Transition(MINOR, FILL_PERSONAL_DETAILS, BACK, TypeIs(MINOR), STARTED)
  ]

  /** The whole table, in configuration order. */
  const Table: seq<Transition> :=
    SingleOwnerFlow + MultiOwnerFlow + MinorFlow + MinorToRegularFlow + BackTransitions

  /** A transition fires for this state and event under these variables. */
  predicate Enabled(tr: Transition, strict: bool, vars: Vars, state: ProcessState, event: ProcessEvent) {
    tr.source == state && tr.event == event && Eval(tr.guard, strict, vars)
  }

  /** The target of the first enabled transition of ts, if any. */
  function Scan(ts: seq<Transition>, strict: bool, vars: Vars, state: ProcessState, event: ProcessEvent)
    : (r: Option<ProcessState>)
    ensures r.None? <==> forall i :: 0 <= i < |ts| ==> !Enabled(ts[i], strict, vars, state, event)
    ensures r.Some? ==>
              exists i :: && 0 <= i < |ts| && Enabled(ts[i], strict, vars, state, event)
                          && ts[i].target == r.value
                          && forall j :: 0 <= j < i ==> !Enabled(ts[j], strict, vars, state, event)
  {
    if ts == [] then None
    else if Enabled(ts[0], strict, vars, state, event) then Some(ts[0].target)
    else
      var r := Scan(ts[1..], strict, vars, state, event);
      assert forall i :: 1 <= i < |ts| ==> ts[i] == ts[1..][i - 1];
      r
  }

  /** The engine's answer to an event: the target of the first transition out
      of the current state on this event whose guard holds, or rejection. */
  function Apply(strict: bool, vars: Vars, state: ProcessState, event: ProcessEvent): Option<ProcessState> {
    Scan(Table, strict, vars, state, event)
  }

  /** Every transition's guard is its flow's type guard, alone or first in an allOf. */
  lemma TableShape()
    ensures |Table| == 28
    ensures forall i :: 0 <= i < |Table| ==>
              || Table[i].guard == TypeIs(Table[i].flow)
              || (&& Table[i].guard.AllOf? && |Table[i].guard.guards| > 0
                  && Table[i].guard.guards[0] == TypeIs(Table[i].flow))
  {
  }

  /** Within one flow, a (state, event) pair has one transition, except the
      two sides of the US-citizen branch. */
  lemma KeysUnique()
    ensures forall i, j ::
              (&& 0 <= i < j < |Table| && Table[i].flow == Table[j].flow
               && Table[i].source == Table[j].source && Table[i].event == Table[j].event)
              ==> i == 1 && j == 2
  {
  }

  /** A transition's guard holds only for an instance of its own flow: the
      type guard needs the process-type variable to be exactly that type, so
      a missing or non-type value fails it. */
  lemma TypeGuardOwnFlow(strict: bool, vars: Vars, i: nat)
    requires i < |Table|
    ensures Eval(Table[i].guard, strict, vars) ==> Lookup(vars, EXT_TYPE) == VType(Table[i].flow)
  {
    TableShape();
    if Table[i].guard.AllOf? && Eval(Table[i].guard, strict, vars) {
      assert Eval(Table[i].guard.guards[0], strict, vars);
    }
  }

  /** Without a process type in the variables every event is rejected. */
  lemma UntypedRejected(strict: bool, vars: Vars, state: ProcessState, event: ProcessEvent)
    requires !Lookup(vars, EXT_TYPE).VType?
    ensures Apply(strict, vars, state, event) == None
  {
    forall i | 0 <= i < |Table| ensures !Enabled(Table[i], strict, vars, state, event) {
      TypeGuardOwnFlow(strict, vars, i);
    }
  }

  /** An accepted event follows a transition of the instance's own flow. */
  lemma AcceptedInOwnFlow(strict: bool, vars: Vars, state: ProcessState, event: ProcessEvent, t: ProcessType)
    requires Lookup(vars, EXT_TYPE) == VType(t)
    ensures Apply(strict, vars, state, event).Some? ==>
              exists i :: && 0 <= i < |Table| && Table[i].flow == t && Table[i].source == state
                          && Table[i].event == event && Table[i].target == Apply(strict, vars, state, event).value
  {
    var r := Apply(strict, vars, state, event);
    if r.Some? {
      var i :| 0 <= i < |Table| && Enabled(Table[i], strict, vars, state, event) && Table[i].target == r.value;
      TypeGuardOwnFlow(strict, vars, i);
    }
  }

  /** A (state, event) pair that the instance's flow does not list is rejected. */
  lemma UnlistedRejected(strict: bool, vars: Vars, state: ProcessState, event: ProcessEvent, t: ProcessType)
    requires Lookup(vars, EXT_TYPE) == VType(t)
    requires forall i :: 0 <= i < |Table| ==> !(Table[i].flow == t && Table[i].source == state && Table[i].event == event)
    ensures Apply(strict, vars, state, event) == None
  {
    AcceptedInOwnFlow(strict, vars, state, event, t);
  }

  /** The two sides of the US-citizen branch exclude each other. */
  lemma CitizenSidesExclusive(strict: bool, vars: Vars)
    ensures Eval(Table[1].guard, strict, vars) ==> !Eval(Table[2].guard, strict, vars)
  {
    if Eval(Table[1].guard, strict, vars) {
      assert Eval(Table[1].guard.guards[1], strict, vars);
      assert !Eval(Table[2].guard.guards[1], strict, vars);
    }
  }

  /** At most one transition is enabled for any type, state, event and
      variables, so taking the first one is no tie-break. */
  lemma Deterministic(strict: bool, vars: Vars, state: ProcessState, event: ProcessEvent, i: nat, j: nat)
    requires i < |Table| && j < |Table|
    requires Enabled(Table[i], strict, vars, state, event) && Enabled(Table[j], strict, vars, state, event)
    ensures i == j
  {
    TypeGuardOwnFlow(strict, vars, i);
    TypeGuardOwnFlow(strict, vars, j);
    KeysUnique();
    CitizenSidesExclusive(strict, vars);
  }

  /** The answer for a transition whose (flow, state, event) key is listed
      once: its target exactly when its guard holds. */
  lemma OnlyEntry(strict: bool, vars: Vars, k: nat)
    requires k < |Table| && k != 1 && k != 2
    requires Lookup(vars, EXT_TYPE) == VType(Table[k].flow)
    ensures Apply(strict, vars, Table[k].source, Table[k].event)
            == if Eval(Table[k].guard, strict, vars) then Some(Table[k].target) else None
  {
    var t := Table[k].flow;
    AcceptedInOwnFlow(strict, vars, Table[k].source, Table[k].event, t);
    KeysUnique();
    var r := Apply(strict, vars, Table[k].source, Table[k].event);
    if r.Some? {
      var i :| 0 <= i < |Table| && Enabled(Table[i], strict, vars, Table[k].source, Table[k].event)
               && Table[i].target == r.value;
      Deterministic(strict, vars, Table[k].source, Table[k].event, i, i);
      TypeGuardOwnFlow(strict, vars, i);
    }
  }

  /** Every state and target named by the table is one of the declared states,
      so the extra states named only by precondition checks accept nothing. */
  lemma AcceptedOnlyBetweenDeclared(strict: bool, vars: Vars, state: ProcessState, event: ProcessEvent)
    ensures Apply(strict, vars, state, event).Some? ==>
              Declared(state) && Declared(Apply(strict, vars, state, event).value)
    ensures !Declared(state) ==> Apply(strict, vars, state, event) == None
  {
    assert forall i :: 0 <= i < |Table| ==> Declared(Table[i].source) && Declared(Table[i].target);
  }

  /** The three account-creating states accept no event at all. */
  lemma FinalStatesAcceptNothing(strict: bool, vars: Vars, state: ProcessState, event: ProcessEvent)
    requires state == ACCOUNT_CREATED || state == ACCOUNT_CREATED_LIMITED || state == ACCOUNT_CONVERTED_TO_REGULAR
    ensures Apply(strict, vars, state, event) == None
  {
    assert forall i :: 0 <= i < |Table| ==> Table[i].source != state;
  }

  /** A minor-to-regular conversion has no way out of the initial state; it
      starts at the identified minor account instead. */
  lemma ConversionNotFromStarted(strict: bool, vars: Vars, event: ProcessEvent)
    requires Lookup(vars, EXT_TYPE) == VType(MINOR_TO_REGULAR)
    ensures Apply(strict, vars, STARTED, event) == None
  {
    UnlistedRejected(strict, vars, STARTED, event, MINOR_TO_REGULAR);
  }

  /** A single owner's answers lead to the US passport step exactly when the
      US-citizen flag reads true, and to KYC otherwise; the event is never
      rejected. */
  lemma CitizenBranch(strict: bool, vars: Vars)
    requires Lookup(vars, EXT_TYPE) == VType(SINGLE_OWNER)
    ensures Apply(strict, vars, ANSWER_ACCOUNT_QUESTIONS, SUBMIT_ANSWERS)
            == Some(if AsBoolean(Lookup(vars, "isUSCitizen"), false) then US_PASSPORT_DETAILS else KYC_IN_PROGRESS)
  {
    var r := Apply(strict, vars, ANSWER_ACCOUNT_QUESTIONS, SUBMIT_ANSWERS);
    var us := AsBoolean(Lookup(vars, "isUSCitizen"), false);
    AllOfPair(TypeIs(SINGLE_OWNER), IsUsCitizen, strict, vars);
    AllOfPair(TypeIs(SINGLE_OWNER), Not(IsUsCitizen), strict, vars);
    assert Enabled(Table[if us then 1 else 2], strict, vars, ANSWER_ACCOUNT_QUESTIONS, SUBMIT_ANSWERS);
    var i :| 0 <= i < |Table| && Enabled(Table[i], strict, vars, ANSWER_ACCOUNT_QUESTIONS, SUBMIT_ANSWERS)
             && Table[i].target == r.value;
    Deterministic(strict, vars, ANSWER_ACCOUNT_QUESTIONS, SUBMIT_ANSWERS, i, if us then 1 else 2);
  }

  /** The (state, event) pairs that finalize an account. */
  predicate Finalizing(state: ProcessState, event: ProcessEvent) {
    || (state == BIOMETRY_VERIFIED && event == CREATE_ACCOUNT)
    || (state == WAITING_FOR_ALL_OWNERS && event == CONFIRM_ALL_OWNERS)
    || (state == WAITING_FOR_CONVERSION_CONFIRMATION && event == COMPLETE_CONVERSION)
  }

  /** No account is finalized without a voice score strictly above 0.95,
      whether or not strict guards are on. */
  lemma FinalizingNeedsVoiceScore(strict: bool, vars: Vars, state: ProcessState, event: ProcessEvent)
    requires Finalizing(state, event)
    ensures Apply(strict, vars, state, event).Some? ==> VoiceScoreAbove(ToDouble(Lookup(vars, "voiceScore")))
  {
    var v := Lookup(vars, EXT_TYPE);
    if !v.VType? {
      UntypedRejected(strict, vars, state, event);
    } else if state == BIOMETRY_VERIFIED && v.t == SINGLE_OWNER {
      CreateAccountGate(strict, vars);
    } else if state == WAITING_FOR_ALL_OWNERS && v.t == MULTI_OWNER {
      ConfirmOwnersGate(strict, vars);
    } else if state == WAITING_FOR_CONVERSION_CONFIRMATION && v.t == MINOR_TO_REGULAR {
      CompleteConversionGate(strict, vars);
    } else {
      UnlistedRejected(strict, vars, state, event, v.t);
    }
  }

  /** A single owner's account is created exactly when the voice score
      passes, whether or not strict guards are on. */
  lemma CreateAccountGate(strict: bool, vars: Vars)
    requires Lookup(vars, EXT_TYPE) == VType(SINGLE_OWNER)
    ensures Apply(strict, vars, BIOMETRY_VERIFIED, CREATE_ACCOUNT)
            == if VoiceScoreAbove(ToDouble(Lookup(vars, "voiceScore"))) then Some(ACCOUNT_CREATED) else None
  {
    assert Table[6] == SingleOwnerFlow[6];
    OnlyEntry(strict, vars, 6);
    AllOfPair(TypeIs(SINGLE_OWNER), VoiceScoreStrict, strict, vars);
  }

  /** A minor's account is approved on the parent consent guard alone: the
      voice score plays no part in it. */
  lemma ParentApprovalGate(strict: bool, vars: Vars)
    requires Lookup(vars, EXT_TYPE) == VType(MINOR)
    ensures Apply(strict, vars, WAITING_FOR_PARENT_CONSENT, PARENT_APPROVED)
            == if !strict || !TextBlank(Lookup(vars, "consentDocument")) then Some(ACCOUNT_CREATED_LIMITED) else None
  {
    assert Table[20] == MinorFlow[6];
    OnlyEntry(strict, vars, 20);
    AllOfPair(TypeIs(MINOR), ParentConsent, strict, vars);
  }

  /** All owners are confirmed exactly when the owner shares pass (or guards
      are lenient) and the voice score passes. */
  lemma ConfirmOwnersGate(strict: bool, vars: Vars)
    requires Lookup(vars, EXT_TYPE) == VType(MULTI_OWNER)
    ensures Apply(strict, vars, WAITING_FOR_ALL_OWNERS, CONFIRM_ALL_OWNERS)
            == if Eval(OwnersComplete, strict, vars) && VoiceScoreAbove(ToDouble(Lookup(vars, "voiceScore")))
               then Some(ACCOUNT_CREATED) else None
  {
    assert Table[13] == MultiOwnerFlow[6];
    OnlyEntry(strict, vars, 13);
    AllOfTriple(TypeIs(MULTI_OWNER), OwnersComplete, VoiceScoreStrict, strict, vars);
  }

  /** A conversion completes exactly when the voice score passes and the
      conversion flag reads true (or guards are lenient). */
  lemma CompleteConversionGate(strict: bool, vars: Vars)
    requires Lookup(vars, EXT_TYPE) == VType(MINOR_TO_REGULAR)
    ensures Apply(strict, vars, WAITING_FOR_CONVERSION_CONFIRMATION, COMPLETE_CONVERSION)
            == if VoiceScoreAbove(ToDouble(Lookup(vars, "voiceScore")))
                  && (!strict || AsBoolean(Lookup(vars, "converted"), false))
               then Some(ACCOUNT_CONVERTED_TO_REGULAR) else None
  {
    assert Table[22] == MinorToRegularFlow[1];
    OnlyEntry(strict, vars, 22);
    AllOfTriple(TypeIs(MINOR_TO_REGULAR), VoiceScoreStrict, ConversionConfirmed, strict, vars);
    VoiceScoreIgnoresStrict(vars);
    assert Eval(Table[22].guard, strict, vars)
           == (VoiceScoreAbove(ToDouble(Lookup(vars, "voiceScore"))) && Eval(ConversionConfirmed, strict, vars));
  }

  /** The index of a flow's transition at a step shared by the three
      onboarding flows; 0 stands for the single-owner offset. */
  function SharedIndex(t: ProcessType, singleOwner: nat): nat
    requires t != MINOR_TO_REGULAR
  {
    match t
    case SINGLE_OWNER => singleOwner
    case MULTI_OWNER => singleOwner + 6
    case MINOR => singleOwner + 13
  }

  /** In the three onboarding flows KYC completes exactly when the status
      reads APPROVED (ignoring case), or guards are lenient. */
  lemma KycGate(strict: bool, vars: Vars, t: ProcessType)
    requires t != MINOR_TO_REGULAR
    requires Lookup(vars, EXT_TYPE) == VType(t)
    ensures Apply(strict, vars, KYC_IN_PROGRESS, KYC_VERIFIED)
            == if !strict || IsApproved(Lookup(vars, "status")) then Some(WAITING_FOR_BIOMETRY) else None
  {
    var k := SharedIndex(t, 4);
    OnlyEntry(strict, vars, k);
    assert Table[k].guard == AllOf([TypeIs(t), KycApproved]);
    AllOfPair(TypeIs(t), KycApproved, strict, vars);
  }

  /** In the three onboarding flows biometry succeeds exactly when the match
      flag is true or the match score is at least 0.90, or guards are lenient. */
  lemma BiometryGate(strict: bool, vars: Vars, t: ProcessType)
    requires t != MINOR_TO_REGULAR
    requires Lookup(vars, EXT_TYPE) == VType(t)
    ensures Apply(strict, vars, WAITING_FOR_BIOMETRY, BIOMETRY_SUCCESS)
            == if Eval(BiometryPassed, strict, vars) then Some(BIOMETRY_VERIFIED) else None
  {
    var k := SharedIndex(t, 5);
    OnlyEntry(strict, vars, k);
    assert Table[k].guard == AllOf([TypeIs(t), BiometryPassed]);
    AllOfPair(TypeIs(t), BiometryPassed, strict, vars);
  }

  /** Where BACK leads, independently of the table: one step back, and only
      from the account questions or the personal details. */
  function BackTarget(typeValue: Value, state: ProcessState): Option<ProcessState> {
    match typeValue
    case VType(SINGLE_OWNER) => if state == ANSWER_ACCOUNT_QUESTIONS then Some(STARTED) else None
    case VType(MULTI_OWNER) | VType(MINOR) =>
      if state == ANSWER_ACCOUNT_QUESTIONS then Some(FILL_PERSONAL_DETAILS)
      else if state == FILL_PERSONAL_DETAILS then Some(STARTED)
      else None
    case _ => None
  }

  /** The BACK policy: the engine's answer to BACK is exactly the reference
      BACK target, so BACK is rejected from KYC onwards and in conversions. */
  lemma BackPolicy(strict: bool, vars: Vars, state: ProcessState)
    ensures Apply(strict, vars, state, BACK) == BackTarget(Lookup(vars, EXT_TYPE), state)
  {
    var v := Lookup(vars, EXT_TYPE);
    if !v.VType? {
      UntypedRejected(strict, vars, state, BACK);
    } else if BackTarget(v, state).None? {
      BackUnlisted(strict, vars, state, v.t);
    } else {
      BackListed(strict, vars, state, v.t);
    }
  }

  /** BACK from a state its flow lists a BACK transition for. */
  lemma BackListed(strict: bool, vars: Vars, state: ProcessState, t: ProcessType)
    requires Lookup(vars, EXT_TYPE) == VType(t) && BackTarget(VType(t), state).Some?
    ensures Apply(strict, vars, state, BACK) == BackTarget(VType(t), state)
  {
    var k := if t == SINGLE_OWNER then 23
             else if t == MULTI_OWNER then (if state == ANSWER_ACCOUNT_QUESTIONS then 24 else 25)
             else (if state == ANSWER_ACCOUNT_QUESTIONS then 26 else 27);
    assert Table[k] == BackTransitions[k - 23];
    OnlyEntry(strict, vars, k);
  }

  /** BACK from a state its flow lists no BACK transition for. */
  lemma BackUnlisted(strict: bool, vars: Vars, state: ProcessState, t: ProcessType)
    requires Lookup(vars, EXT_TYPE) == VType(t) && BackTarget(VType(t), state).None?
    ensures Apply(strict, vars, state, BACK) == None
  {
    forall i | 0 <= i < |Table|
      ensures !(Table[i].flow == t && Table[i].source == state && Table[i].event == BACK)
    {
      if i < 23 {
        assert Table[i].event != BACK;
      } else {
        assert Table[i] == BackTransitions[i - 23];
      }
    }
    UnlistedRejected(strict, vars, state, BACK, t);
  }

  /** BACK never moves an instance out of KYC or any later state. */
  lemma BackOnlyEarly(strict: bool, vars: Vars, state: ProcessState)
    requires state != ANSWER_ACCOUNT_QUESTIONS && state != FILL_PERSONAL_DETAILS
    ensures Apply(strict, vars, state, BACK) == None
  {
    BackPolicy(strict, vars, state);
  }
}
