/** Guard predicates over the process type and the extended variables, as an
    expression datatype with one evaluator. */
module Guards {
  import opened Domain
  import opened Values

  /** Key under which the process type is seeded into the extended variables. */
  const EXT_TYPE: string := "processType"

  /** The voice score must be strictly greater than this. */
  const MIN_VOICE_SCORE: real := 0.95
  /** A biometric match score at least this passes. */
  const MIN_MATCH_SCORE: real := 0.90
  /** Owner shares must add up to 100 within this tolerance. */
  const SHARE_TOLERANCE: real := 0.000001

  datatype Guard =
    | TypeIs(expected: ProcessType)
    | IsUsCitizen
    | Not(inner: Guard)
    | AllOf(guards: seq<Guard>)
    | KycApproved
    | BiometryPassed
    | OwnersComplete
    | ParentConsent
    | ConversionConfirmed
    | VoiceScoreStrict

  /** The voice-score test, shared by the guard and the precondition check. */
  predicate VoiceScoreAbove(score: Option<real>) {
    score.Some? && score.value > MIN_VOICE_SCORE
  }

  /** Whether a guard holds. The business guards (KYC, biometry, owners,
      parent consent, conversion) hold unconditionally unless strict guards
      are on; the type and voice-score guards never depend on that flag. */
  function Eval(g: Guard, strict: bool, vars: Vars): bool
    decreases g
  {
    match g
    case TypeIs(t) => Lookup(vars, EXT_TYPE) == VType(t)
    case IsUsCitizen => AsBoolean(Lookup(vars, "isUSCitizen"), false)
    case Not(h) => !Eval(h, strict, vars)
    case AllOf(gs) => forall i :: 0 <= i < |gs| ==> Eval(gs[i], strict, vars)
    case KycApproved => !strict || IsApproved(Lookup(vars, "status"))
    case BiometryPassed =>
      !strict || Lookup(vars, "match") == VBool(true)
      || (var m := ToDouble(Lookup(vars, "matchScore")); m.Some? && m.value >= MIN_MATCH_SCORE)
    case OwnersComplete =>
      !strict ||
      (match ToDouble(Lookup(vars, "totalShare"))
       case Some(x) => -SHARE_TOLERANCE < x - 100.0 < SHARE_TOLERANCE
       case None => Lookup(vars, "totalShare") == VStr("100"))
    case ParentConsent => !strict || !TextBlank(Lookup(vars, "consentDocument"))
    case ConversionConfirmed => !strict || AsBoolean(Lookup(vars, "converted"), false)
    case VoiceScoreStrict => VoiceScoreAbove(ToDouble(Lookup(vars, "voiceScore")))
  }

  /** An allOf of two guards holds exactly when both hold. */
  lemma AllOfPair(a: Guard, b: Guard, strict: bool, vars: Vars)
    ensures Eval(AllOf([a, b]), strict, vars) == (Eval(a, strict, vars) && Eval(b, strict, vars))
  {
    var gs := [a, b];
    assert gs[0] == a && gs[1] == b;
  }

  /** An allOf of three guards holds exactly when all three hold. */
  lemma AllOfTriple(a: Guard, b: Guard, c: Guard, strict: bool, vars: Vars)
    ensures Eval(AllOf([a, b, c]), strict, vars)
            == (Eval(a, strict, vars) && Eval(b, strict, vars) && Eval(c, strict, vars))
  {
    var gs := [a, b, c];
    assert gs[0] == a && gs[1] == b && gs[2] == c;
  }

  /** With strict guards off, the five business guards always hold. */
  lemma LenientBusinessGuards(vars: Vars)
    ensures Eval(KycApproved, false, vars) && Eval(BiometryPassed, false, vars)
    ensures Eval(OwnersComplete, false, vars) && Eval(ParentConsent, false, vars)
    ensures Eval(ConversionConfirmed, false, vars)
  {
  }

  /** The voice-score guard ignores the strict flag. */
  lemma VoiceScoreIgnoresStrict(vars: Vars)
    ensures Eval(VoiceScoreStrict, true, vars) == Eval(VoiceScoreStrict, false, vars)
            == VoiceScoreAbove(ToDouble(Lookup(vars, "voiceScore")))
  {
  }

  /** The voice-score test rejects exactly 0.95, a missing score and an
      unparsable one, and accepts "0.960". */
  lemma VoiceScoreBoundary()
    ensures !VoiceScoreAbove(Some(MIN_VOICE_SCORE))
    ensures !VoiceScoreAbove(ToDouble(VNull)) && !VoiceScoreAbove(ToDouble(VStr("abc")))
    ensures VoiceScoreAbove(ToDouble(VStr("0.960"))) && VoiceScoreAbove(ToDouble(VDouble(0.96)))
  {
    ToDoubleRejects();
    ToDoubleDecimalString();
  }

  /** The owner-shares guard under strict guards: a parsable share must be
      within a millionth of 100; otherwise only the exact text "100" passes,
      which does parse, so an unparsable share always fails. */
  lemma OwnersCompleteStrict(vars: Vars)
    ensures var share := Lookup(vars, "totalShare");
            Eval(OwnersComplete, true, vars)
            <==> ToDouble(share).Some? && -SHARE_TOLERANCE < ToDouble(share).value - 100.0 < SHARE_TOLERANCE
  {
    var share := Lookup(vars, "totalShare");
    if ToDouble(share).None? && share == VStr("100") {
      HundredParses();
    }
  }

  lemma HundredDigits()
    ensures DigitsValue("100") == 100
  {
    assert "100"[..2] == "10" && "10"[..1] == "1" && "1"[..0] == "";
  }

  lemma HundredMantissa()
    ensures ParseMantissa("100") == Some(100.0)
  {
    assert IndexOf("100", {'.'}) == 3;
    assert "100"[..3] == "100";
    HundredDigits();
  }

  lemma HundredParses()
    ensures ToDouble(VStr("100")) == Some(100.0)
  {
    assert TrimStart("100") == "100" && TrimEnd("100") == "100";
    assert IndexOf("100", {'e', 'E'}) == 3 && "100"[..3] == "100";
    HundredMantissa();
    assert ParseUnsigned("100") == Some(100.0);
    assert ParseLiteral("100") == Some(100.0);
  }
}
