/** The step plan: for a flow type and a current state, the event that
    advances the process one step, listed as a fixed table. */
module StepPlan {
  import opened Domain
  import opened Values
  import opened Guards
  import opened Transitions

  /** A plan table key. */
  datatype StepKey = StepKey(flow: ProcessType, state: ProcessState)

  /** One planned step. */
  datatype PlanEntry = PlanEntry(key: StepKey, event: ProcessEvent)

  /** The plan, in the order its entries are listed. */
  const Plan: seq<PlanEntry> := [
    PlanEntry(StepKey(SINGLE_OWNER, STARTED), START_FLOW),
    PlanEntry(StepKey(SINGLE_OWNER, KYC_IN_PROGRESS), KYC_VERIFIED),
    PlanEntry(StepKey(SINGLE_OWNER, WAITING_FOR_BIOMETRY), BIOMETRY_SUCCESS),
    PlanEntry(StepKey(SINGLE_OWNER, BIOMETRY_VERIFIED), CREATE_ACCOUNT),

    PlanEntry(StepKey(MULTI_OWNER, STARTED), START_FLOW),
    PlanEntry(StepKey(MULTI_OWNER, FILL_PERSONAL_DETAILS), SUBMIT_PERSONAL),
    PlanEntry(StepKey(MULTI_OWNER, ANSWER_ACCOUNT_QUESTIONS), SUBMIT_ANSWERS),
    PlanEntry(StepKey(MULTI_OWNER, KYC_IN_PROGRESS), KYC_VERIFIED),
    PlanEntry(StepKey(MULTI_OWNER, WAITING_FOR_BIOMETRY), BIOMETRY_SUCCESS),
    PlanEntry(StepKey(MULTI_OWNER, BIOMETRY_VERIFIED), ADD_OWNER),
    PlanEntry(StepKey(MULTI_OWNER, WAITING_FOR_ALL_OWNERS), CONFIRM_ALL_OWNERS),

    PlanEntry(StepKey(MINOR, STARTED), START_FLOW),
    PlanEntry(StepKey(MINOR, FILL_PERSONAL_DETAILS), SUBMIT_PERSONAL),
    PlanEntry(StepKey(MINOR, ANSWER_ACCOUNT_QUESTIONS), SUBMIT_ANSWERS),
    PlanEntry(StepKey(MINOR, KYC_IN_PROGRESS), KYC_VERIFIED),
    PlanEntry(StepKey(MINOR, WAITING_FOR_BIOMETRY), BIOMETRY_SUCCESS),
    PlanEntry(StepKey(MINOR, BIOMETRY_VERIFIED), REQUEST_PARENT_CONSENT),
    PlanEntry(StepKey(MINOR, WAITING_FOR_PARENT_CONSENT), PARENT_APPROVED),
    PlanEntry(StepKey(MINOR, ACCOUNT_CREATED_LIMITED), CREATE_ACCOUNT),

    PlanEntry(StepKey(MINOR_TO_REGULAR, MINOR_ACCOUNT_IDENTIFIED), CONFIRM_CONVERSION),
    PlanEntry(StepKey(MINOR_TO_REGULAR, WAITING_FOR_CONVERSION_CONFIRMATION), COMPLETE_CONVERSION)
  ]

  /** The event of the first entry with this key, if any. */
  function Find(es: seq<PlanEntry>, k: StepKey): (r: Option<ProcessEvent>)
    ensures r.None? <==> forall i :: 0 <= i < |es| ==> es[i].key != k
    ensures r.Some? ==> exists i :: 0 <= i < |es| && es[i] == PlanEntry(k, r.value)
  {
    if es == [] then None
    else if es[0].key == k then Some(es[0].event)
    else
      var r := Find(es[1..], k);
      assert forall i :: 1 <= i < |es| ==> es[i] == es[1..][i - 1];
      r
  }

  /** The planned next event for a flow type in a state. */
  function Next(flow: ProcessType, state: ProcessState): Option<ProcessEvent> {
    Find(Plan, StepKey(flow, state))
  }

  /** The plan lists 21 entries under pairwise distinct keys. */
  lemma PlanKeysDistinct()
    ensures |Plan| == 21
    ensures forall i, j :: 0 <= i < j < |Plan| ==> Plan[i].key != Plan[j].key
  {
  }

  /** Each listed key yields exactly its listed event. */
  lemma NextListed(i: nat)
    requires i < |Plan|
    ensures Next(Plan[i].key.flow, Plan[i].key.state) == Some(Plan[i].event)
  {
    var k := Plan[i].key;
    var r := Next(k.flow, k.state);
    assert r.Some?;
    var j :| 0 <= j < |Plan| && Plan[j] == PlanEntry(k, r.value);
    PlanKeysDistinct();
    assert i == j;
  }

  /** A key is planned exactly when it is listed. */
  lemma NextUnlisted(flow: ProcessType, state: ProcessState)
    ensures Next(flow, state).None? <==> forall i :: 0 <= i < |Plan| ==> Plan[i].key != StepKey(flow, state)
  {
  }

  /** Two sample plan steps: a single owner starts the flow, and a verified
      multi-owner biometry is followed by adding an owner. */
  lemma NextListedExamples(flow: ProcessType, state: ProcessState)
    requires || (flow == SINGLE_OWNER && state == STARTED)
             || (flow == MULTI_OWNER && state == BIOMETRY_VERIFIED)
    ensures Next(flow, state) == Some(if flow == SINGLE_OWNER then START_FLOW else ADD_OWNER)
  {
    if flow == SINGLE_OWNER {
      assert Plan[0] == PlanEntry(StepKey(flow, state), START_FLOW);
      NextListed(0);
    } else {
      assert Plan[9] == PlanEntry(StepKey(flow, state), ADD_OWNER);
      NextListed(9);
    }
  }

  /** Keys with no step, among them the end of a single-owner flow and the
      initial state of a conversion. */
  lemma NextUnlistedExamples(flow: ProcessType, state: ProcessState)
    requires || (flow == SINGLE_OWNER && state == ACCOUNT_CREATED)
             || (flow == MINOR_TO_REGULAR && state == STARTED)
    ensures Next(flow, state) == None
  {
    if flow == SINGLE_OWNER {
      forall i | 0 <= i < |Plan|
        ensures Plan[i].key != StepKey(flow, state)
      {
        if i < 4 {
          assert Plan[i].key.state != ACCOUNT_CREATED;
        } else {
          assert Plan[i].key.flow != SINGLE_OWNER;
        }
      }
    } else {
      forall i | 0 <= i < |Plan|
        ensures Plan[i].key != StepKey(flow, state)
      {
        if i < 19 {
          assert Plan[i].key.flow != MINOR_TO_REGULAR;
        } else {
          assert Plan[i].key.state != STARTED;
        }
      }
    }
    NextUnlisted(flow, state);
  }

  /** The plan never picks a side of the single owner's US-citizen branch:
      it has no step at the account questions or at the passport details. */
  lemma SingleOwnerBranchUnplanned(flow: ProcessType, state: ProcessState)
    requires flow == SINGLE_OWNER
    requires state == ANSWER_ACCOUNT_QUESTIONS || state == US_PASSPORT_DETAILS
    ensures Next(flow, state) == None
  {
    forall i | 0 <= i < |Plan|
      ensures Plan[i].key != StepKey(flow, state)
    {
      if i < 4 {
        assert Plan[i].key.state in {STARTED, KYC_IN_PROGRESS, WAITING_FOR_BIOMETRY, BIOMETRY_VERIFIED};
      } else {
        assert Plan[i].key.flow != SINGLE_OWNER;
      }
    }
    NextUnlisted(flow, state);
  }

  /** Every planned step but one names a transition the table has from that
      state for that flow; the exception is the minor's CREATE_ACCOUNT after
      the limited account, which the engine always rejects. */
  lemma PlanMatchesTable(i: nat)
    requires i < |Plan|
    ensures Plan[i].key != StepKey(MINOR, ACCOUNT_CREATED_LIMITED) ==>
              exists j :: && 0 <= j < |Table| && Table[j].flow == Plan[i].key.flow
                          && Table[j].source == Plan[i].key.state && Table[j].event == Plan[i].event
    ensures Plan[i].key == StepKey(MINOR, ACCOUNT_CREATED_LIMITED) ==>
              && Plan[i].event == CREATE_ACCOUNT
              && forall strict: bool, vars: Vars :: Apply(strict, vars, ACCOUNT_CREATED_LIMITED, CREATE_ACCOUNT) == None
  {
    var w := [0, 4, 5, 6, 7, 8, 9, 10, 11, 12, 13, 14, 15, 16, 17, 18, 19, 20, 0, 21, 22];
    assert |w| == |Plan|;
    if Plan[i].key == StepKey(MINOR, ACCOUNT_CREATED_LIMITED) {
      forall strict: bool, vars: Vars ensures Apply(strict, vars, ACCOUNT_CREATED_LIMITED, CREATE_ACCOUNT) == None {
        FinalStatesAcceptNothing(strict, vars, ACCOUNT_CREATED_LIMITED, CREATE_ACCOUNT);
      }
    } else {
      var j := w[i];
      assert Table[j].flow == Plan[i].key.flow && Table[j].source == Plan[i].key.state
             && Table[j].event == Plan[i].event;
    }
  }
}
