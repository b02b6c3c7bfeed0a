/** The precondition checks run before an event: the shared value readers
    and the twelve checks, each a `supports` predicate over (type, state,
    event) and a `validate` function over the stored variables and the
    payload. */
module Preconditions {
  import opened Domain
  import opened Values
  import opened Guards

  /** One violated precondition: a code and a message. */
  datatype PreconditionError = PreconditionError(code: string, message: string)

  // ---------------------------------------------------------------------
  // Shared readers
  // ---------------------------------------------------------------------

  /** The payload's value unless it is null, else the stored variable, else
      null. */
  function Read(payload: Vars, vars: Vars, key: string): (v: Value)
    ensures v == VNull <==> Lookup(payload, key) == VNull && Lookup(vars, key) == VNull
    ensures v == Lookup(payload, key) || v == Lookup(vars, key)
    ensures Lookup(payload, key) != VNull ==> v == Lookup(payload, key)
  {
    if Lookup(payload, key) != VNull then Lookup(payload, key) else Lookup(vars, key)
  }

  /** Null, a blank string and an empty collection are empty; nothing else is. */
  predicate IsEmpty(v: Value) {
    match v
    case VNull => true
    case VStr(s) => IsBlank(s)
    case VList(items) => |items| == 0
    case _ => false
  }

  /** Numbers and booleans, false and zero included, are never empty, and a
      string is empty exactly when it is blank. */
  lemma IsEmptyCases(v: Value)
    ensures (v.VBool? || v.VInt? || v.VDouble? || v.VType?) ==> !IsEmpty(v)
    ensures v.VStr? ==> (IsEmpty(v) <==> IsBlank(v.s))
    ensures IsEmpty(VStr(" \t")) && !IsEmpty(VStr(" x ")) && IsEmpty(VList([])) && !IsEmpty(VBool(false))
  {
    assert " x "[1] == 'x';
  }

  /** The string form of a value, for the values whose form the model
      renders: null, booleans, integral boxes, strings and type names. */
  function TextForm(v: Value): Option<string> {
    match v
    case VNull => Some("null")
    case VBool(b) => Some(BoolText(b))
    case VInt(i) => Some(IntText(i))
    case VStr(s) => Some(s)
    case VType(t) => Some(TypeName(t))
    case _ => None
  }

  /** Whether the trimmed, upper-cased string form of a non-null value is
      one of the allowed words. A Double's or a list's form, which always
      holds a digit or a bracket, is taken to match no allowed word. */
  predicate In(v: Value, allowed: set<string>) {
    v != VNull && TextForm(v).Some? && ToUpper(Trim(TextForm(v).value)) in allowed
  }

  /** In is false for null and ignores surrounding blanks and letter case. */
  lemma InExamples()
    ensures !In(VNull, {"OK", "FAIL"})
    ensures In(VStr(" ok "), {"OK", "FAIL"})
  {
    TrimOk();
    UpperOk();
    assert TextForm(VStr(" ok ")) == Some(" ok ");
    assert ToUpper(Trim(" ok ")) == "OK";
  }

  lemma TrimOk()
    ensures Trim(" ok ") == "ok"
  {
    assert " ok "[1..] == "ok ";
    assert TrimStart("ok ") == "ok ";
    assert TrimStart(" ok ") == "ok ";
    assert "ok "[..2] == "ok";
    assert TrimEnd("ok") == "ok";
  }

  lemma UpperOk()
    ensures ToUpper("ok") == "OK"
  {
    var r := ToUpper("ok");
    assert UpperChar('o') == 'O' && UpperChar('k') == 'K';
    assert r[0] == 'O' && r[1] == 'K';
  }

  // ---------------------------------------------------------------------
  // Voice score before finalization
  // ---------------------------------------------------------------------

  const VOICE_SCORE_TOO_LOW := PreconditionError("VOICE_SCORE_TOO_LOW", "voiceScore must be > 0.95 before finalization")

  /** The finalizing step of each of the four flows. */
  predicate SupportsVoiceScore(t: ProcessType, s: ProcessState, e: ProcessEvent) {
    || (t == SINGLE_OWNER && s == BIOMETRY_VERIFIED && e == CREATE_ACCOUNT)
    || (t == MULTI_OWNER && s == WAITING_FOR_ALL_OWNERS && e == CONFIRM_ALL_OWNERS)
    || (t == MINOR && s == WAITING_FOR_PARENT_CONSENT && e == PARENT_APPROVED)
    || (t == MINOR_TO_REGULAR && s == WAITING_FOR_CONVERSION_CONFIRMATION && e == COMPLETE_CONVERSION)
  }

  /** The payload's score if it parses, else the stored one's parse. */
  function ReadScore(payload: Vars, vars: Vars): (r: Option<real>)
    ensures ToDouble(Lookup(payload, "voiceScore")).Some? ==> r == ToDouble(Lookup(payload, "voiceScore"))
    ensures ToDouble(Lookup(payload, "voiceScore")).None? ==> r == ToDouble(Lookup(vars, "voiceScore"))
  {
    var fromPayload := ToDouble(Lookup(payload, "voiceScore"));
    if fromPayload.Some? then fromPayload else ToDouble(Lookup(vars, "voiceScore"))
  }

  /** Passes exactly when the resolved score is strictly above 0.95;
      otherwise fails with the single error VOICE_SCORE_TOO_LOW. */
  function ValidateVoiceScore(vars: Vars, payload: Vars): (errs: seq<PreconditionError>)
    ensures errs == [] <==> VoiceScoreAbove(ReadScore(payload, vars))
    ensures errs != [] ==> errs == [VOICE_SCORE_TOO_LOW]
  {
    if ReadScore(payload, vars).None? || !(ReadScore(payload, vars).value > MIN_VOICE_SCORE)
    then [VOICE_SCORE_TOO_LOW] else []
  }

  /** A score of exactly 0.95 fails, "0.960" passes, a missing score in both
      places fails, and an unparsable payload score falls back to the stored
      one. */
  lemma VoiceScoreExamples(vars: Vars, payload: Vars)
    ensures ValidateVoiceScore(map[], map["voiceScore" := VDouble(0.95)]) == [VOICE_SCORE_TOO_LOW]
    ensures ValidateVoiceScore(map[], map["voiceScore" := VStr("0.960")]) == []
    ensures Lookup(vars, "voiceScore") == VNull && Lookup(payload, "voiceScore") == VNull ==>
              ValidateVoiceScore(vars, payload) == [VOICE_SCORE_TOO_LOW]
    ensures ValidateVoiceScore(map["voiceScore" := VDouble(0.99)], map["voiceScore" := VStr("abc")]) == []
  {
    ToDoubleDecimalString();
    ToDoubleRejects();
  }

  // ---------------------------------------------------------------------
  // Owners ready
  // ---------------------------------------------------------------------

  const OWNERS_COUNT_REQUIRED := PreconditionError("OWNERS_COUNT_REQUIRED", "Total owners is required")
  const OWNERS_SHARE_REQUIRED := PreconditionError("OWNERS_SHARE_REQUIRED", "Total share is required")
  const SHARE_NOT_100 := PreconditionError("INVALID_TOTAL_SHARE", "Total share must be 100")
  const SHARE_NOT_NUMERIC := PreconditionError("INVALID_TOTAL_SHARE", "Total share must be numeric 100")

  predicate SupportsOwnersReady(t: ProcessType, s: ProcessState, e: ProcessEvent) {
    t == MULTI_OWNER && e == CONFIRM_ALL_OWNERS
  }

  /** The share test after the presence tests: an integer parse of the
      share's string form that must give 100. */
  function ShareErrors(share: Value): seq<PreconditionError> {
    if share == VNull then []
    else match IntOf(share)
      case None => [SHARE_NOT_NUMERIC]
      case Some(n) => if n != 100 then [SHARE_NOT_100] else []
  }

  /** Both counts must be present, payload first; present shares must parse
      as the integer 100. A missing share is reported once, never also as
      invalid. Errors come in the order count, then share. */
  function ValidateOwnersReady(vars: Vars, payload: Vars): (errs: seq<PreconditionError>)
    ensures errs == [] <==>
              && Read(payload, vars, "totalOwners") != VNull
              && IntOf(Read(payload, vars, "totalShare")) == Some(100)
    ensures |errs| <= 2
    ensures Read(payload, vars, "totalOwners") == VNull <==> |errs| > 0 && errs[0] == OWNERS_COUNT_REQUIRED
    ensures Read(payload, vars, "totalShare") == VNull ==>
              OWNERS_SHARE_REQUIRED in errs && SHARE_NOT_100 !in errs && SHARE_NOT_NUMERIC !in errs
  {
    var owners := Read(payload, vars, "totalOwners");
    var share := Read(payload, vars, "totalShare");
    assert IntOf(VNull) == None by {
      assert !IsDigit("null"[0]);
    }
    (if owners == VNull then [OWNERS_COUNT_REQUIRED] else [])
    + (if share == VNull then [OWNERS_SHARE_REQUIRED] else [])
    + ShareErrors(share)
  }

  /** The integer 100 and the text "100" pass; the texts "100.0" and "abc"
      and the Double 100.0 are not numeric; the integer 50 is not 100. */
  lemma OwnersShareExamples()
    ensures ShareErrors(VInt(100)) == [] && ShareErrors(VStr("100")) == []
    ensures ShareErrors(VStr("100.0")) == [SHARE_NOT_NUMERIC] && ShareErrors(VStr("abc")) == [SHARE_NOT_NUMERIC]
    ensures ShareErrors(VDouble(100.0)) == [SHARE_NOT_NUMERIC]
    ensures ShareErrors(VInt(50)) == [SHARE_NOT_100]
  {
    IntOfCases(VInt(100));
    IntOfCases(VInt(50));
    IntOfCases(VDouble(100.0));
    assert IntOf(VInt(100)) == Some(100);
    assert IntOf(VInt(50)) == Some(50);
  }

  // ---------------------------------------------------------------------
  // KYC result present
  // ---------------------------------------------------------------------

  const KYC_RESULT_PRESENT := PreconditionError("KYC_RESULT_PRESENT", "KYC result not found")
  const KYC_NOT_APPROVED := PreconditionError("KYC_NOT_APPROVED", "KYC status must be APPROVED")

  predicate SupportsKycResult(t: ProcessType, s: ProcessState, e: ProcessEvent) {
    e == KYC_VERIFIED
  }

  /** The payload's status whenever the payload has the key, even with a
      null value; the stored one otherwise. */
  function KycStatus(vars: Vars, payload: Vars): Value {
    if "status" in payload then payload["status"] else Lookup(vars, "status")
  }

  /** No status gives KYC_RESULT_PRESENT alone; a status other than
      APPROVED (in any case) gives KYC_NOT_APPROVED alone. */
  function ValidateKycResult(vars: Vars, payload: Vars): (errs: seq<PreconditionError>)
    ensures errs == [] <==> KycStatus(vars, payload) != VNull && IsApproved(KycStatus(vars, payload))
    ensures KycStatus(vars, payload) == VNull ==> errs == [KYC_RESULT_PRESENT]
    ensures KycStatus(vars, payload) != VNull && !IsApproved(KycStatus(vars, payload)) ==> errs == [KYC_NOT_APPROVED]
  {
    var status := KycStatus(vars, payload);
    if status == VNull then [KYC_RESULT_PRESENT]
    else if !IsApproved(status) then [KYC_NOT_APPROVED]
    else []
  }

  /** A null status in the payload hides an approved stored status. */
  lemma KycNullPayloadShadows()
    ensures ValidateKycResult(map["status" := VStr("APPROVED")], map["status" := VNull]) == [KYC_RESULT_PRESENT]
    ensures ValidateKycResult(map["status" := VStr("approved")], map[]) == []
  {
  }

  // ---------------------------------------------------------------------
  // Parent consent present
  // ---------------------------------------------------------------------

  const CONSENT_DOCUMENT_REQUIRED := PreconditionError("CONSENT_DOCUMENT_REQUIRED", "Parent consent document is required")

  predicate SupportsParentConsent(t: ProcessType, s: ProcessState, e: ProcessEvent) {
    t == MINOR && e == PARENT_APPROVED
  }

  /** Passes exactly when a consent document is present in the payload or in
      the stored variables; a blank one counts as present. */
  function ValidateParentConsent(vars: Vars, payload: Vars): (errs: seq<PreconditionError>)
    ensures errs == [] <==> Lookup(payload, "consentDocument") != VNull || Lookup(vars, "consentDocument") != VNull
    ensures errs != [] ==> errs == [CONSENT_DOCUMENT_REQUIRED]
  {
    if Read(payload, vars, "consentDocument") == VNull then [CONSENT_DOCUMENT_REQUIRED] else []
  }

  /** A blank consent document satisfies the check but fails the strict
      parent-consent guard. */
  lemma BlankConsentDiffersFromGuard()
    ensures ValidateParentConsent(map[], map["consentDocument" := VStr(" ")]) == []
    ensures !Eval(ParentConsent, true, map["consentDocument" := VStr(" ")])
  {
  }

  // ---------------------------------------------------------------------
  // Linked minor account
  // ---------------------------------------------------------------------

  const MINOR_ACCOUNT_LINK_REQUIRED := PreconditionError("MINOR_ACCOUNT_LINK_REQUIRED", "Linked MINOR account id is required")

  predicate SupportsMinorIdLinked(t: ProcessType, s: ProcessState, e: ProcessEvent) {
    t == MINOR_TO_REGULAR && (e == CONFIRM_CONVERSION || e == COMPLETE_CONVERSION)
  }

  /** Fails exactly when the stored variables lack the linked account id;
      the payload is not consulted. */
  function ValidateMinorIdLinked(vars: Vars, payload: Vars): (errs: seq<PreconditionError>)
    ensures errs == [] <==> Lookup(vars, "linkedMinorAccountId") != VNull
    ensures errs != [] ==> errs == [MINOR_ACCOUNT_LINK_REQUIRED]
  {
    if Lookup(vars, "linkedMinorAccountId") == VNull then [MINOR_ACCOUNT_LINK_REQUIRED] else []
  }

  /** The payload cannot satisfy the linked-account check. */
  lemma MinorIdIgnoresPayload(vars: Vars, p: Vars, q: Vars)
    ensures ValidateMinorIdLinked(vars, p) == ValidateMinorIdLinked(vars, q)
  {
  }

  // ---------------------------------------------------------------------
  // Presence checks of the minor flow's extra screens
  // ---------------------------------------------------------------------

  const STATUS_REQUIRED := PreconditionError("oneToManyStatus", "REQUIRED")
  const STATUS_MUST_BE_OK_OR_FAIL := PreconditionError("oneToManyStatus", "MUST_BE_OK_OR_FAIL")
  const PREFERENCES_REQUIRED := PreconditionError("communicationPreferences", "REQUIRED")
  const ACTIVITIES_REQUIRED := PreconditionError("activities", "REQUIRED")
  const WARNINGS_REQUIRED := PreconditionError("warningsAcknowledged", "REQUIRED")
  const VIDEO_REQUIRED := PreconditionError("videoFile", "REQUIRED")
  const TRANSCRIPTION_REQUIRED := PreconditionError("transcription", "REQUIRED")

  predicate SupportsCustomerValidation(t: ProcessType, s: ProcessState, e: ProcessEvent) {
    t == MINOR && s == CUSTOMER_INFO_VALIDATION && e == VALIDATE_CUSTOMER_INFO
  }

  /** The one-to-many status must be present and, trimmed and upper-cased,
      OK or FAIL; a missing status is reported as REQUIRED only. */
  function ValidateCustomerValidation(vars: Vars, payload: Vars): (errs: seq<PreconditionError>)
    ensures errs == [] <==> !IsEmpty(Read(payload, vars, "oneToManyStatus"))
                            && In(Read(payload, vars, "oneToManyStatus"), {"OK", "FAIL"})
    ensures IsEmpty(Read(payload, vars, "oneToManyStatus")) ==> errs == [STATUS_REQUIRED]
    ensures |errs| <= 1
  {
    var status := Read(payload, vars, "oneToManyStatus");
    if IsEmpty(status) then [STATUS_REQUIRED]
    else if !In(status, {"OK", "FAIL"}) then [STATUS_MUST_BE_OK_OR_FAIL]
    else []
  }

  predicate SupportsInformationActivities(t: ProcessType, s: ProcessState, e: ProcessEvent) {
    t == MINOR && s == INFORMATION_ACTIVITIES_SCREEN && e == SUBMIT_INFORMATION_ACTIVITIES
  }

  /** Fails exactly when the communication preferences, payload first, are
      empty. */
  function ValidateInformationActivities(vars: Vars, payload: Vars): (errs: seq<PreconditionError>)
    ensures errs == [] <==> !IsEmpty(Read(payload, vars, "communicationPreferences"))
    ensures errs != [] ==> errs == [PREFERENCES_REQUIRED]
  {
    var prefs := Read(payload, vars, "communicationPreferences");
    if prefs == VNull || (prefs.VStr? && IsBlank(prefs.s)) || (prefs.VList? && |prefs.items| == 0)
    then [PREFERENCES_REQUIRED] else []
  }

  /** A blank payload value shadows a filled stored one. */
  lemma BlankPreferencesShadow()
    ensures ValidateInformationActivities(map["communicationPreferences" := VStr("email")],
                                          map["communicationPreferences" := VStr(" ")]) == [PREFERENCES_REQUIRED]
  {
  }

  predicate SupportsAccountActivities(t: ProcessType, s: ProcessState, e: ProcessEvent) {
    t == MINOR && s == ACCOUNT_ACTIVITIES_SCREEN && e == SUBMIT_ACCOUNT_ACTIVITIES
  }

  /** Fails exactly when the activities, payload first, are empty. */
  function ValidateAccountActivities(vars: Vars, payload: Vars): (errs: seq<PreconditionError>)
    ensures errs == [] <==> !IsEmpty(Read(payload, vars, "activities"))
    ensures errs != [] ==> errs == [ACTIVITIES_REQUIRED]
  {
    var activities := Read(payload, vars, "activities");
    if activities == VNull || (activities.VStr? && IsBlank(activities.s)) || (activities.VList? && |activities.items| == 0)
    then [ACTIVITIES_REQUIRED] else []
  }

  /** A filled stored value satisfies the check when the payload omits it. */
  lemma StoredActivitiesSuffice(vars: Vars, payload: Vars)
    requires "activities" !in payload && Lookup(vars, "activities") == VList([VStr("savings")])
    ensures ValidateAccountActivities(vars, payload) == []
  {
  }

  predicate SupportsWarningsAcknowledge(t: ProcessType, s: ProcessState, e: ProcessEvent) {
    t == MINOR && s == WARNINGS && e == ACKNOWLEDGE_WARNINGS
  }

  /** Fails exactly when the acknowledgement, payload first, is empty; only
      presence counts, so a false acknowledgement passes. */
  function ValidateWarningsAcknowledge(vars: Vars, payload: Vars): (errs: seq<PreconditionError>)
    ensures errs == [] <==> !IsEmpty(Read(payload, vars, "warningsAcknowledged"))
    ensures errs != [] ==> errs == [WARNINGS_REQUIRED]
    ensures Lookup(payload, "warningsAcknowledged") == VBool(false) ==> errs == []
  {
    var ack := Read(payload, vars, "warningsAcknowledged");
    if ack == VNull || (ack.VStr? && IsBlank(ack.s)) || (ack.VList? && |ack.items| == 0)
    then [WARNINGS_REQUIRED] else []
  }

  predicate SupportsVideoSubmit(t: ProcessType, s: ProcessState, e: ProcessEvent) {
    t == MINOR && s == VIDEO_SCREEN && e == SUBMIT_VIDEO
  }

  /** A video is required unless the continue flag, payload first and true
      when absent, reads false. */
  function ValidateVideoSubmit(vars: Vars, payload: Vars): (errs: seq<PreconditionError>)
    ensures errs == [] <==> !AsBoolean(Read(payload, vars, "toContinue"), true)
                            || !IsEmpty(Read(payload, vars, "videoFile"))
    ensures Read(payload, vars, "toContinue") == VNull && IsEmpty(Read(payload, vars, "videoFile")) ==>
              errs == [VIDEO_REQUIRED]
    ensures errs != [] ==> errs == [VIDEO_REQUIRED]
  {
    var toContinue := AsBoolean(Read(payload, vars, "toContinue"), true);
    if toContinue && IsEmpty(Read(payload, vars, "videoFile")) then [VIDEO_REQUIRED] else []
  }

  /** A continue flag that reads false waives the video, whatever it is. */
  lemma VideoWaived(vars: Vars, payload: Vars)
    requires Lookup(payload, "toContinue") == VBool(false) || Lookup(payload, "toContinue") == VStr("no")
    ensures ValidateVideoSubmit(vars, payload) == []
  {
    assert !EqualsIgnoreCase("no", "true");
  }

  predicate SupportsSpeechToText(t: ProcessType, s: ProcessState, e: ProcessEvent) {
    t == MINOR && s == SPEECH_TO_TEXT && (e == PROCESS_SPEECH_TO_TEXT || e == BLOCK_FLOW)
  }

  /** Fails exactly when the transcription, payload first, is empty. */
  function ValidateSpeechToText(vars: Vars, payload: Vars): (errs: seq<PreconditionError>)
    ensures errs == [] <==> !IsEmpty(Read(payload, vars, "transcription"))
    ensures errs != [] ==> errs == [TRANSCRIPTION_REQUIRED]
  {
    if IsEmpty(Read(payload, vars, "transcription")) then [TRANSCRIPTION_REQUIRED] else []
  }

  predicate SupportsWelcome(t: ProcessType, s: ProcessState, e: ProcessEvent) {
    t == MINOR && s == WELCOME && e == COMPLETE_WELCOME
  }

  // ---------------------------------------------------------------------
  // The checks as one type
  // ---------------------------------------------------------------------

  datatype Check =
    | AccountActivitiesRequired
    | CustomerValidationStatusRequired
    | InformationActivitiesRequired
    | KycResultPresent
    | MinorIdLinked
    | OwnersReady
    | ParentConsentPresent
    | SpeechToTextTranscriptionRequired
    | VideoSubmitRequired
    | VoiceScoreSatisfied
    | WarningsAcknowledgeRequired
    | WelcomeCompleteInfo

  /** Whether a check applies to an attempted event. */
  predicate Supports(c: Check, t: ProcessType, s: ProcessState, e: ProcessEvent) {
    match c
    case AccountActivitiesRequired => SupportsAccountActivities(t, s, e)
    case CustomerValidationStatusRequired => SupportsCustomerValidation(t, s, e)
    case InformationActivitiesRequired => SupportsInformationActivities(t, s, e)
    case KycResultPresent => SupportsKycResult(t, s, e)
    case MinorIdLinked => SupportsMinorIdLinked(t, s, e)
    case OwnersReady => SupportsOwnersReady(t, s, e)
    case ParentConsentPresent => SupportsParentConsent(t, s, e)
    case SpeechToTextTranscriptionRequired => SupportsSpeechToText(t, s, e)
    case VideoSubmitRequired => SupportsVideoSubmit(t, s, e)
    case VoiceScoreSatisfied => SupportsVoiceScore(t, s, e)
    case WarningsAcknowledgeRequired => SupportsWarningsAcknowledge(t, s, e)
    case WelcomeCompleteInfo => SupportsWelcome(t, s, e)
  }

  /** A check's errors for the stored variables and a payload. The welcome
      check never reports anything. */
  function Validate(c: Check, vars: Vars, payload: Vars): (errs: seq<PreconditionError>)
    ensures c == WelcomeCompleteInfo ==> errs == []
    ensures c != OwnersReady ==> |errs| <= 1
    ensures |errs| <= 2
  {
    match c
    case AccountActivitiesRequired => ValidateAccountActivities(vars, payload)
    case CustomerValidationStatusRequired => ValidateCustomerValidation(vars, payload)
    case InformationActivitiesRequired => ValidateInformationActivities(vars, payload)
    case KycResultPresent => ValidateKycResult(vars, payload)
    case MinorIdLinked => ValidateMinorIdLinked(vars, payload)
    case OwnersReady => ValidateOwnersReady(vars, payload)
    case ParentConsentPresent => ValidateParentConsent(vars, payload)
    case SpeechToTextTranscriptionRequired => ValidateSpeechToText(vars, payload)
    case VideoSubmitRequired => ValidateVideoSubmit(vars, payload)
    case VoiceScoreSatisfied => ValidateVoiceScore(vars, payload)
    case WarningsAcknowledgeRequired => ValidateWarningsAcknowledge(vars, payload)
    case WelcomeCompleteInfo => []
  }

  /** The welcome check applies to the minor's welcome step only, so never
      to another flow type. */
  lemma WelcomeOnlyForMinor(t: ProcessType, s: ProcessState, e: ProcessEvent)
    ensures Supports(WelcomeCompleteInfo, t, s, e) <==> t == MINOR && s == WELCOME && e == COMPLETE_WELCOME
  {
  }
}
