/** The precondition registry: the errors of every check that applies to an
    attempted event, concatenated in check-list order. */
module Registry {
  import opened Domain
  import opened Values
  import opened Records
  import opened Preconditions

  /** The checks that apply to (type, state, event), in list order. The
      payload plays no part in the choice. */
  function Selected(checks: seq<Check>, t: ProcessType, s: ProcessState, e: ProcessEvent): (r: seq<Check>)
    ensures |r| <= |checks|
  {
    if checks == [] then []
    else (if Supports(checks[0], t, s, e) then [checks[0]] else []) + Selected(checks[1..], t, s, e)
  }

  /** The errors of each check in turn, concatenated. */
  function Collect(checks: seq<Check>, vars: Vars, payload: Vars): seq<PreconditionError> {
    if checks == [] then [] else Validate(checks[0], vars, payload) + Collect(checks[1..], vars, payload)
  }

  /** validateAll: the applicable checks' errors, in check-list order. */
  function ValidateAll(checks: seq<Check>, pi: ProcessInstance, e: ProcessEvent, payload: Vars): seq<PreconditionError> {
    Collect(Selected(checks, pi.processType, pi.state, e), pi.variables, payload)
  }

  /** The checks in the order they are registered (by class name). */
  const Registered: seq<Check> := [
    AccountActivitiesRequired, CustomerValidationStatusRequired, InformationActivitiesRequired,
    KycResultPresent, MinorIdLinked, OwnersReady, ParentConsentPresent,
    SpeechToTextTranscriptionRequired, VideoSubmitRequired, VoiceScoreSatisfied,
    WarningsAcknowledgeRequired, WelcomeCompleteInfo]

  lemma {:induction false} SelectedAppend(a: seq<Check>, b: seq<Check>, t: ProcessType, s: ProcessState, e: ProcessEvent)
    ensures Selected(a + b, t, s, e) == Selected(a, t, s, e) + Selected(b, t, s, e)
  {
    if a != [] {
      assert (a + b)[0] == a[0] && (a + b)[1..] == a[1..] + b;
      SelectedAppend(a[1..], b, t, s, e);
      var h := if Supports(a[0], t, s, e) then [a[0]] else [];
      assert h + (Selected(a[1..], t, s, e) + Selected(b, t, s, e))
             == (h + Selected(a[1..], t, s, e)) + Selected(b, t, s, e);
    } else {
      assert a + b == b;
    }
  }

  lemma {:induction false} CollectAppend(a: seq<Check>, b: seq<Check>, vars: Vars, payload: Vars)
    ensures Collect(a + b, vars, payload) == Collect(a, vars, payload) + Collect(b, vars, payload)
  {
    if a != [] {
      assert (a + b)[0] == a[0] && (a + b)[1..] == a[1..] + b;
      CollectAppend(a[1..], b, vars, payload);
      var h := Validate(a[0], vars, payload);
      assert Collect(a + b, vars, payload) == h + Collect(a[1..] + b, vars, payload);
      assert h + (Collect(a[1..], vars, payload) + Collect(b, vars, payload))
             == (h + Collect(a[1..], vars, payload)) + Collect(b, vars, payload);
    } else {
      assert a + b == b;
    }
  }

  /** The concatenation is empty exactly when every check in it reports
      nothing. */
  lemma {:induction false} CollectEmptyIff(checks: seq<Check>, vars: Vars, payload: Vars)
    ensures Collect(checks, vars, payload) == [] <==>
              forall i :: 0 <= i < |checks| ==> Validate(checks[i], vars, payload) == []
  {
    if checks != [] {
      CollectEmptyIff(checks[1..], vars, payload);
      assert forall i :: 1 <= i < |checks| ==> checks[i] == checks[1..][i - 1];
    }
  }

  /** The selected checks are the listed ones that apply. */
  lemma {:induction false} SelectedMembers(checks: seq<Check>, t: ProcessType, s: ProcessState, e: ProcessEvent)
    ensures forall c :: c in Selected(checks, t, s, e) <==> c in checks && Supports(c, t, s, e)
  {
    if checks != [] {
      SelectedMembers(checks[1..], t, s, e);
      assert checks == [checks[0]] + checks[1..];
    }
  }

  /** No errors exactly when every applicable check reports none. */
  lemma ValidateAllEmptyIff(checks: seq<Check>, pi: ProcessInstance, e: ProcessEvent, payload: Vars)
    ensures ValidateAll(checks, pi, e, payload) == [] <==>
              forall c :: c in checks && Supports(c, pi.processType, pi.state, e) ==>
                            Validate(c, pi.variables, payload) == []
  {
    var sel := Selected(checks, pi.processType, pi.state, e);
    SelectedMembers(checks, pi.processType, pi.state, e);
    CollectEmptyIff(sel, pi.variables, payload);
    assert forall c :: c in sel <==> exists i :: 0 <= i < |sel| && sel[i] == c;
  }

  /** When no check applies, or there are no checks, nothing is reported. */
  lemma NothingApplies(checks: seq<Check>, pi: ProcessInstance, e: ProcessEvent, payload: Vars)
    requires forall c :: c in checks ==> !Supports(c, pi.processType, pi.state, e)
    ensures ValidateAll(checks, pi, e, payload) == []
    ensures ValidateAll([], pi, e, payload) == []
  {
    ValidateAllEmptyIff(checks, pi, e, payload);
  }

  /** The errors of the applicable checks of c :: rest. */
  lemma CollectSelectedCons(c: Check, rest: seq<Check>, t: ProcessType, s: ProcessState, e: ProcessEvent,
                            vars: Vars, payload: Vars)
    ensures Collect(Selected([c] + rest, t, s, e), vars, payload)
            == (if Supports(c, t, s, e) then Validate(c, vars, payload) else [])
               + Collect(Selected(rest, t, s, e), vars, payload)
  {
    assert ([c] + rest)[1..] == rest;
    var tail := Selected(rest, t, s, e);
    if Supports(c, t, s, e) {
      assert ([c] + tail)[1..] == tail;
    } else {
      assert [] + tail == tail;
    }
  }

  lemma {:induction false} WelcomeNeutralCollect(a: seq<Check>, b: seq<Check>, t: ProcessType, s: ProcessState,
                                                 e: ProcessEvent, vars: Vars, payload: Vars)
    ensures Collect(Selected(a + [WelcomeCompleteInfo] + b, t, s, e), vars, payload)
            == Collect(Selected(a + b, t, s, e), vars, payload)
  {
    if a == [] {
      assert a + [WelcomeCompleteInfo] + b == [WelcomeCompleteInfo] + b;
      assert a + b == b;
      CollectSelectedCons(WelcomeCompleteInfo, b, t, s, e, vars, payload);
    } else {
      assert a + [WelcomeCompleteInfo] + b == [a[0]] + (a[1..] + [WelcomeCompleteInfo] + b);
      assert a + b == [a[0]] + (a[1..] + b);
      CollectSelectedCons(a[0], a[1..] + [WelcomeCompleteInfo] + b, t, s, e, vars, payload);
      CollectSelectedCons(a[0], a[1..] + b, t, s, e, vars, payload);
      WelcomeNeutralCollect(a[1..], b, t, s, e, vars, payload);
    }
  }

  /** Registering the welcome check anywhere in the list changes nothing. */
  lemma WelcomeNeutral(checks: seq<Check>, i: nat, pi: ProcessInstance, e: ProcessEvent, payload: Vars)
    requires i <= |checks|
    ensures ValidateAll(checks[..i] + [WelcomeCompleteInfo] + checks[i..], pi, e, payload)
            == ValidateAll(checks, pi, e, payload)
  {
    assert checks == checks[..i] + checks[i..];
    WelcomeNeutralCollect(checks[..i], checks[i..], pi.processType, pi.state, e, pi.variables, payload);
  }

  /** No check of a list applies, so none is selected. */
  lemma {:induction false} SelectedNone(checks: seq<Check>, t: ProcessType, s: ProcessState, e: ProcessEvent)
    requires forall i :: 0 <= i < |checks| ==> !Supports(checks[i], t, s, e)
    ensures Selected(checks, t, s, e) == []
  {
    if checks != [] {
      assert forall i :: 1 <= i < |checks| ==> checks[1..][i - 1] == checks[i];
      SelectedNone(checks[1..], t, s, e);
    }
  }

  /** A one-element list selects its element when it applies. */
  lemma SelectedSingle(c: Check, t: ProcessType, s: ProcessState, e: ProcessEvent)
    requires Supports(c, t, s, e)
    ensures Selected([c], t, s, e) == [c]
  {
    assert [c][1..] == [];
  }

  /** A check between two lists from which nothing is selected. */
  lemma SelectedAround(pre: seq<Check>, c: Check, post: seq<Check>, t: ProcessType, s: ProcessState, e: ProcessEvent)
    requires Selected(pre, t, s, e) == [] && Selected(post, t, s, e) == []
    ensures Selected(pre + [c] + post, t, s, e) == Selected([c], t, s, e)
  {
    SelectedAppend(pre + [c], post, t, s, e);
    SelectedAppend(pre, [c], t, s, e);
  }

  /** The errors of a single check. */
  lemma CollectSingle(c: Check, vars: Vars, payload: Vars)
    ensures Collect([c], vars, payload) == Validate(c, vars, payload)
  {
    assert [c][1..] == [];
  }

  /** The registered list split around the KYC check and around the voice-score check. */
  lemma RegisteredSplits()
    ensures Registered == BeforeKyc + [KycResultPresent] + AfterKyc
    ensures Registered == BeforeVoice + [VoiceScoreSatisfied] + AfterVoice
    ensures Registered == BeforeOwners + [OwnersReady] + OwnersToVoice + [VoiceScoreSatisfied] + AfterVoice
  {
  }

  const BeforeKyc: seq<Check> := [AccountActivitiesRequired, CustomerValidationStatusRequired, InformationActivitiesRequired]
  const AfterKyc: seq<Check> := [
    MinorIdLinked, OwnersReady, ParentConsentPresent, SpeechToTextTranscriptionRequired,
    VideoSubmitRequired, VoiceScoreSatisfied, WarningsAcknowledgeRequired, WelcomeCompleteInfo]
  const BeforeOwners: seq<Check> := BeforeKyc + [KycResultPresent, MinorIdLinked]
  const OwnersToVoice: seq<Check> := [ParentConsentPresent, SpeechToTextTranscriptionRequired, VideoSubmitRequired]
  const BeforeVoice: seq<Check> := BeforeOwners + [OwnersReady] + OwnersToVoice
  const AfterVoice: seq<Check> := [WarningsAcknowledgeRequired, WelcomeCompleteInfo]

  /** Only the KYC result check applies to KYC_VERIFIED. */
  lemma KycOnlySupporter(c: Check, t: ProcessType, s: ProcessState)
    ensures Supports(c, t, s, KYC_VERIFIED) <==> c == KycResultPresent
  {
  }

  lemma NoneBeforeKyc(t: ProcessType, s: ProcessState)
    ensures Selected(BeforeKyc, t, s, KYC_VERIFIED) == []
  {
    forall i | 0 <= i < |BeforeKyc|
      ensures !Supports(BeforeKyc[i], t, s, KYC_VERIFIED)
    {
      KycOnlySupporter(BeforeKyc[i], t, s);
    }
    SelectedNone(BeforeKyc, t, s, KYC_VERIFIED);
  }

  lemma NoneAfterKyc(t: ProcessType, s: ProcessState)
    ensures Selected(AfterKyc, t, s, KYC_VERIFIED) == []
  {
    forall i | 0 <= i < |AfterKyc|
      ensures !Supports(AfterKyc[i], t, s, KYC_VERIFIED)
    {
      KycOnlySupporter(AfterKyc[i], t, s);
    }
    SelectedNone(AfterKyc, t, s, KYC_VERIFIED);
  }

  /** The errors of a list whose selection is known. */
  lemma ValidateAllOfSelected(checks: seq<Check>, sel: seq<Check>, pi: ProcessInstance, e: ProcessEvent, payload: Vars)
    requires Selected(checks, pi.processType, pi.state, e) == sel
    ensures ValidateAll(checks, pi, e, payload) == Collect(sel, pi.variables, payload)
  {
  }

  /** On KYC_VERIFIED, in any state and flow, only the KYC result check applies. */
  lemma RegisteredAtKyc(pi: ProcessInstance, payload: Vars)
    ensures ValidateAll(Registered, pi, KYC_VERIFIED, payload) == ValidateKycResult(pi.variables, payload)
  {
    var t, s := pi.processType, pi.state;
    RegisteredSplits();
    NoneBeforeKyc(t, s);
    NoneAfterKyc(t, s);
    SelectedAround(BeforeKyc, KycResultPresent, AfterKyc, t, s, KYC_VERIFIED);
    SelectedSingle(KycResultPresent, t, s, KYC_VERIFIED);
    ValidateAllOfSelected(Registered, [KycResultPresent], pi, KYC_VERIFIED, payload);
    CollectSingle(KycResultPresent, pi.variables, payload);
  }

  lemma NoneAroundVoice(pre: seq<Check>, post: seq<Check>, s: ProcessState)
    requires pre == BeforeVoice && post == AfterVoice && s == BIOMETRY_VERIFIED
    ensures Selected(pre, SINGLE_OWNER, s, CREATE_ACCOUNT) == []
    ensures Selected(post, SINGLE_OWNER, s, CREATE_ACCOUNT) == []
  {
    SelectedNone(pre, SINGLE_OWNER, s, CREATE_ACCOUNT);
    SelectedNone(post, SINGLE_OWNER, s, CREATE_ACCOUNT);
  }

  /** At a single owner's account creation only the voice-score check of the
      registered list applies. */
  lemma RegisteredAtCreateAccount(pi: ProcessInstance, payload: Vars)
    requires pi.processType == SINGLE_OWNER && pi.state == BIOMETRY_VERIFIED
    ensures ValidateAll(Registered, pi, CREATE_ACCOUNT, payload) == ValidateVoiceScore(pi.variables, payload)
  {
    RegisteredSplits();
    NoneAroundVoice(BeforeVoice, AfterVoice, pi.state);
    SelectedAround(BeforeVoice, VoiceScoreSatisfied, AfterVoice, pi.processType, pi.state, CREATE_ACCOUNT);
    SelectedSingle(VoiceScoreSatisfied, pi.processType, pi.state, CREATE_ACCOUNT);
    ValidateAllOfSelected(Registered, [VoiceScoreSatisfied], pi, CREATE_ACCOUNT, payload);
    CollectSingle(VoiceScoreSatisfied, pi.variables, payload);
  }

  lemma NoneAtConfirm(a: seq<Check>, b: seq<Check>, c: seq<Check>, s: ProcessState)
    requires a == BeforeOwners && b == OwnersToVoice && c == AfterVoice
    requires s == WAITING_FOR_ALL_OWNERS
    ensures Selected(a, MULTI_OWNER, s, CONFIRM_ALL_OWNERS) == []
    ensures Selected(b, MULTI_OWNER, s, CONFIRM_ALL_OWNERS) == []
    ensures Selected(c, MULTI_OWNER, s, CONFIRM_ALL_OWNERS) == []
  {
    SelectedNone(a, MULTI_OWNER, s, CONFIRM_ALL_OWNERS);
    SelectedNone(b, MULTI_OWNER, s, CONFIRM_ALL_OWNERS);
    SelectedNone(c, MULTI_OWNER, s, CONFIRM_ALL_OWNERS);
  }

  /** Two applicable checks among lists from which nothing is selected. */
  lemma SelectedPair(x: seq<Check>, a: seq<Check>, o: Check, b: seq<Check>, v: Check, c: seq<Check>,
                     t: ProcessType, s: ProcessState, e: ProcessEvent)
    requires x == (a + [o] + b) + [v] + c
    requires Selected(a, t, s, e) == [] && Selected(b, t, s, e) == [] && Selected(c, t, s, e) == []
    requires Supports(o, t, s, e) && Supports(v, t, s, e)
    ensures Selected(x, t, s, e) == [o, v]
  {
    var p := a + [o] + b;
    SelectedAround(a, o, b, t, s, e);
    SelectedSingle(o, t, s, e);
    SelectedSingle(v, t, s, e);
    SelectedAppend(p + [v], c, t, s, e);
    SelectedAppend(p, [v], t, s, e);
    assert Selected(p + [v], t, s, e) == [o] + [v];
    assert Selected(x, t, s, e) == ([o] + [v]) + [];
    PairSeq(o, v);
  }

  lemma PairSeq(o: Check, v: Check)
    ensures ([o] + [v]) + [] == [o, v]
  {
  }

  /** The errors of two checks, in order. */
  lemma CollectPair(o: Check, v: Check, vars: Vars, payload: Vars)
    ensures Collect([o, v], vars, payload) == Validate(o, vars, payload) + Validate(v, vars, payload)
  {
    assert [o, v][1..] == [v];
    CollectSingle(v, vars, payload);
  }

  /** The checks selected at the confirmation of all owners. */
  lemma SelectedAtConfirmOwners(s: ProcessState)
    requires s == WAITING_FOR_ALL_OWNERS
    ensures Selected(Registered, MULTI_OWNER, s, CONFIRM_ALL_OWNERS) == [OwnersReady, VoiceScoreSatisfied]
  {
    RegisteredSplits();
    NoneAtConfirm(BeforeOwners, OwnersToVoice, AfterVoice, s);
    SelectedPair(Registered, BeforeOwners, OwnersReady, OwnersToVoice, VoiceScoreSatisfied, AfterVoice,
                 MULTI_OWNER, s, CONFIRM_ALL_OWNERS);
  }

  lemma CollectOwnersVoice(vars: Vars, payload: Vars)
    ensures Collect([OwnersReady, VoiceScoreSatisfied], vars, payload)
            == ValidateOwnersReady(vars, payload) + ValidateVoiceScore(vars, payload)
  {
    CollectPair(OwnersReady, VoiceScoreSatisfied, vars, payload);
    assert Validate(OwnersReady, vars, payload) == ValidateOwnersReady(vars, payload);
    assert Validate(VoiceScoreSatisfied, vars, payload) == ValidateVoiceScore(vars, payload);
  }

  /** At the confirmation of all owners the owners check reports first and
      the voice-score check second. */
  lemma RegisteredAtConfirmOwners(pi: ProcessInstance, payload: Vars)
    requires pi.processType == MULTI_OWNER && pi.state == WAITING_FOR_ALL_OWNERS
    ensures ValidateAll(Registered, pi, CONFIRM_ALL_OWNERS, payload)
            == ValidateOwnersReady(pi.variables, payload) + ValidateVoiceScore(pi.variables, payload)
  {
    SelectedAtConfirmOwners(pi.state);
    ValidateAllOfSelected(Registered, [OwnersReady, VoiceScoreSatisfied], pi, CONFIRM_ALL_OWNERS, payload);
    CollectOwnersVoice(pi.variables, payload);
  }

  /** No check applies to starting the flow, to BACK or to submitting the
      account answers, so any check list lets them through. */
  lemma UncheckedEvents(checks: seq<Check>, pi: ProcessInstance, e: ProcessEvent, payload: Vars)
    requires e == START_FLOW || e == BACK || e == SUBMIT_ANSWERS
    ensures ValidateAll(checks, pi, e, payload) == []
  {
    forall c | c in checks
      ensures !Supports(c, pi.processType, pi.state, e)
    {
      match c
      case AccountActivitiesRequired =>
      case CustomerValidationStatusRequired =>
      case InformationActivitiesRequired =>
      case KycResultPresent =>
      case MinorIdLinked =>
      case OwnersReady =>
      case ParentConsentPresent =>
      case SpeechToTextTranscriptionRequired =>
      case VideoSubmitRequired =>
      case VoiceScoreSatisfied =>
      case WarningsAcknowledgeRequired =>
      case WelcomeCompleteInfo =>
    }
    NothingApplies(checks, pi, e, payload);
  }
}
