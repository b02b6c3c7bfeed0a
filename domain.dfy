/** The closed vocabularies of the onboarding workflow: process types (flow
    variants), process states with their screen codes, and process events. */
module Domain {

  /** The four flow variants. */
  datatype ProcessType = SINGLE_OWNER | MULTI_OWNER | MINOR | MINOR_TO_REGULAR

  /** Workflow positions. The first fourteen are the declared states, each with
      a screen code; the last seven are named by precondition checks only and
      have no screen code. */
  datatype ProcessState =
    | STARTED
    | US_PASSPORT_DETAILS | KYC_IN_PROGRESS | WAITING_FOR_BIOMETRY | BIOMETRY_VERIFIED | ACCOUNT_CREATED
    | FILL_PERSONAL_DETAILS | ANSWER_ACCOUNT_QUESTIONS | WAITING_FOR_ALL_OWNERS
    | WAITING_FOR_PARENT_CONSENT | ACCOUNT_CREATED_LIMITED | MINOR_ACCOUNT_IDENTIFIED
    | WAITING_FOR_CONVERSION_CONFIRMATION | ACCOUNT_CONVERTED_TO_REGULAR
    // named by precondition checks, not declared with a screen code
    | INFORMATION_ACTIVITIES_SCREEN | ACCOUNT_ACTIVITIES_SCREEN | CUSTOMER_INFO_VALIDATION
    | WELCOME | WARNINGS | VIDEO_SCREEN | SPEECH_TO_TEXT

  /** Triggers. The last eight are named by precondition checks only. */
  datatype ProcessEvent =
    | START_FLOW | SUBMIT_PERSONAL | SUBMIT_ANSWERS | SUBMIT_US_PASSPORT | KYC_VERIFIED | BIOMETRY_SUCCESS
    | ADD_OWNER | CONFIRM_ALL_OWNERS | REQUEST_PARENT_CONSENT | PARENT_APPROVED | CREATE_ACCOUNT
    | CONFIRM_CONVERSION | COMPLETE_CONVERSION | BACK
    // named by precondition checks only
    | SUBMIT_INFORMATION_ACTIVITIES | SUBMIT_ACCOUNT_ACTIVITIES | VALIDATE_CUSTOMER_INFO
    | COMPLETE_WELCOME | ACKNOWLEDGE_WARNINGS | SUBMIT_VIDEO | PROCESS_SPEECH_TO_TEXT | BLOCK_FLOW

  /** The fourteen states that carry a screen code. */
  predicate Declared(s: ProcessState) {
    s.STARTED? || s.US_PASSPORT_DETAILS? || s.KYC_IN_PROGRESS? || s.WAITING_FOR_BIOMETRY?
    || s.BIOMETRY_VERIFIED? || s.ACCOUNT_CREATED? || s.FILL_PERSONAL_DETAILS?
    || s.ANSWER_ACCOUNT_QUESTIONS? || s.WAITING_FOR_ALL_OWNERS? || s.WAITING_FOR_PARENT_CONSENT?
    || s.ACCOUNT_CREATED_LIMITED? || s.MINOR_ACCOUNT_IDENTIFIED?
    || s.WAITING_FOR_CONVERSION_CONFIRMATION? || s.ACCOUNT_CONVERTED_TO_REGULAR?
  }

  const DeclaredStates: seq<ProcessState> := [
    STARTED, US_PASSPORT_DETAILS, KYC_IN_PROGRESS, WAITING_FOR_BIOMETRY, BIOMETRY_VERIFIED,
    ACCOUNT_CREATED, FILL_PERSONAL_DETAILS, ANSWER_ACCOUNT_QUESTIONS, WAITING_FOR_ALL_OWNERS,
    WAITING_FOR_PARENT_CONSENT, ACCOUNT_CREATED_LIMITED, MINOR_ACCOUNT_IDENTIFIED,
    WAITING_FOR_CONVERSION_CONFIRMATION, ACCOUNT_CONVERTED_TO_REGULAR]

  /** The screen code of a declared state, as fixed by its enum constant. */
  function ScreenCode(s: ProcessState): string
    requires Declared(s)
  {
    match s
    case STARTED => "s500.1"
    case US_PASSPORT_DETAILS => "s510.15"
    case KYC_IN_PROGRESS => "s510.1"
    case WAITING_FOR_BIOMETRY => "s510.2"
    case BIOMETRY_VERIFIED => "s510.3"
    case ACCOUNT_CREATED => "s510.4"
    case FILL_PERSONAL_DETAILS => "s520.1"
    case ANSWER_ACCOUNT_QUESTIONS => "s520.2"
    case WAITING_FOR_ALL_OWNERS => "s520.3"
    case WAITING_FOR_PARENT_CONSENT => "s530.1"
    case ACCOUNT_CREATED_LIMITED => "s530.2"
    case MINOR_ACCOUNT_IDENTIFIED => "s530.3"
    case WAITING_FOR_CONVERSION_CONFIRMATION => "s540.1"
    case ACCOUNT_CONVERTED_TO_REGULAR => "s540.2"
  }

  /** The flow group a declared state is listed under; its screen code starts
      with this prefix. */
  function CodeGroup(s: ProcessState): string
    requires Declared(s)
  {
    if s == STARTED then "s500."
    else if s in {US_PASSPORT_DETAILS, KYC_IN_PROGRESS, WAITING_FOR_BIOMETRY, BIOMETRY_VERIFIED, ACCOUNT_CREATED} then "s510."
    else if s in {FILL_PERSONAL_DETAILS, ANSWER_ACCOUNT_QUESTIONS, WAITING_FOR_ALL_OWNERS} then "s520."
    else if s in {WAITING_FOR_PARENT_CONSENT, ACCOUNT_CREATED_LIMITED, MINOR_ACCOUNT_IDENTIFIED} then "s530."
    else "s540."
  }

  /** The declared list holds exactly the declared states, once each. */
  lemma DeclaredStatesComplete()
    ensures |DeclaredStates| == 14
    ensures forall s :: s in DeclaredStates <==> Declared(s)
    ensures forall i, j :: 0 <= i < j < |DeclaredStates| ==> DeclaredStates[i] != DeclaredStates[j]
  {
  }

  /** Every declared state has a code of the shape "s5x0.n" under its group's prefix. */
  lemma ScreenCodeGrouped(s: ProcessState)
    requires Declared(s)
    ensures |ScreenCode(s)| > 5 && ScreenCode(s)[..5] == CodeGroup(s)
  {
  }

  /** Screen codes are injective: distinct declared states have distinct codes. */
  lemma ScreenCodeInjective(s: ProcessState, t: ProcessState)
    requires Declared(s) && Declared(t) && s != t
    ensures ScreenCode(s) != ScreenCode(t)
  {
    ScreenCodeGrouped(s);
    ScreenCodeGrouped(t);
    if CodeGroup(s) == CodeGroup(t) {
      // same prefix: the codes differ after it
      assert ScreenCode(s)[5..] != ScreenCode(t)[5..];
    }
  }

  /** The initial state's code. */
  lemma StartedCode()
    ensures ScreenCode(STARTED) == "s500.1"
  {
  }

  /** The name of a process type, as its string form gives it. */
  function TypeName(t: ProcessType): (r: string)
    ensures |r| > 0
  {
    match t
    case SINGLE_OWNER => "SINGLE_OWNER"
    case MULTI_OWNER => "MULTI_OWNER"
    case MINOR => "MINOR"
    case MINOR_TO_REGULAR => "MINOR_TO_REGULAR"
  }
}
