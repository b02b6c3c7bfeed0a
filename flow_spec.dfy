/** The orchestrator's behaviour as functions over its whole persistent
    state: the process store, the audit history and the engine-context
    snapshots. Each service operation maps the old state and its inputs to
    the new state and its answer; an error answer always comes with the old
    state, so a failed call has no effect. */
module FlowSpec {
  import opened Domain
  import opened Values
  import opened Records
  import opened Guards
  import opened Transitions
  import opened StepPlan
  import opened Preconditions
  import opened Registry

  /** The exception kinds a service call can end with. */
  datatype FlowError =
    | NotFound
    | InvalidArgument(message: string)
    | PreconditionsNotMet(state: ProcessState, errors: seq<PreconditionError>)
    | EventNotAccepted(event: ProcessEvent)
    | NoNextStep(state: ProcessState)

  datatype Result<T> = Ok(value: T) | Err(error: FlowError)

  /** The injected precondition registry: the errors of all its checks for
      a process, an event and a payload. */
  type Validator = (ProcessInstance, ProcessEvent, Vars) -> seq<PreconditionError>

  /** A machine from the injected factory, given its variables and the state
      it is reset to: the state an event leads to, or None when the event is
      not accepted. */
  type Engine = (Vars, ProcessState, ProcessEvent) -> Option<ProcessState>

  /** The wiring fixed at start-up. */
  datatype Config = Config(validate: Validator, fire: Engine)

  /** The wiring of the application: a registry holding `checks` and machines
      built from the configured table with the given strict-guards switch. */
  ghost predicate Wired(cfg: Config, strict: bool, checks: seq<Check>) {
    && (forall pi, e, data {:trigger ValidateAll(checks, pi, e, data)} ::
          cfg.validate(pi, e, data) == ValidateAll(checks, pi, e, data))
    && (forall vars, state, e {:trigger Apply(strict, vars, state, e)} ::
          cfg.fire(vars, state, e) == Apply(strict, vars, state, e))
  }

  /** Processes by id, the history in the order it was written, the last
      engine context written per process, and the next id to hand out. */
  datatype Store = Store(
    processes: map<ProcessId, ProcessInstance>,
    history: seq<ProcessHistory>,
    snapshots: map<ProcessId, ProcessState>,
    nextId: nat)

  const EmptyStore: Store := Store(map[], [], map[], 0)

  const CLIENT_ID_BLANK: string := "clientId must not be blank"
  const TYPE_NULL: string := "type must not be null"

  // ---------------------------------------------------------------- history

  /** The records of one process, in the order they were written. */
  function HistoryOf(h: seq<ProcessHistory>, id: ProcessId): (r: seq<ProcessHistory>)
    ensures |r| <= |h|
    ensures forall i :: 0 <= i < |r| ==> r[i].processId == id
  {
    if h == [] then []
    else (if h[0].processId == id then [h[0]] else []) + HistoryOf(h[1..], id)
  }

  lemma {:induction false} HistoryOfAppend(h: seq<ProcessHistory>, rec: ProcessHistory, id: ProcessId)
    ensures HistoryOf(h + [rec], id) == HistoryOf(h, id) + (if rec.processId == id then [rec] else [])
  {
    if h == [] {
      assert [rec][1..] == [];
      assert h + [rec] == [rec];
    } else {
      assert (h + [rec])[0] == h[0] && (h + [rec])[1..] == h[1..] + [rec];
      HistoryOfAppend(h[1..], rec, id);
      var head := if h[0].processId == id then [h[0]] else [];
      var tail := if rec.processId == id then [rec] else [];
      assert head + (HistoryOf(h[1..], id) + tail) == (head + HistoryOf(h[1..], id)) + tail;
    }
  }

  lemma {:induction false} HistoryOfNone(h: seq<ProcessHistory>, id: ProcessId)
    requires forall i :: 0 <= i < |h| ==> h[i].processId != id
    ensures HistoryOf(h, id) == []
  {
    if h != [] {
      assert forall i :: 1 <= i < |h| ==> h[1..][i - 1] == h[i];
      HistoryOfNone(h[1..], id);
    }
  }

  /** The history record that completes a write: the variables snapshot is
      what the store holds for the process afterwards, or empty. */
  function Record(processes: map<ProcessId, ProcessInstance>, id: ProcessId, from: Option<ProcessState>,
                  to: ProcessState, event: Option<ProcessEvent>, payload: Vars): ProcessHistory {
    ProcessHistory(id, from, to, event, payload, if id in processes then processes[id].variables else map[])
  }

  // ------------------------------------------------------------- invariant

  /** The last record of a process agrees with the process. */
  predicate Reflected(st: Store, id: ProcessId)
    requires id in st.processes
  {
    var hs := HistoryOf(st.history, id);
    && |hs| > 0
    && hs[|hs| - 1].toState == st.processes[id].state
    && hs[|hs| - 1].variablesSnapshot == st.processes[id].variables
  }

  /** A process's history opens with its one creation record, from no
      state and by no event into STARTED, and has no gaps: each later record
      leaves the state the one before it reached. */
  predicate Chained(hs: seq<ProcessHistory>) {
    && |hs| > 0
    && hs[0].fromState == None && hs[0].event == None && hs[0].toState == STARTED
    && forall i :: 0 < i < |hs| ==> hs[i].fromState == Some(hs[i - 1].toState)
  }

  /** What every operation of the service keeps: ids are issued below the
      counter and stored under themselves, history refers to issued ids, a
      snapshot is only kept for a stored process and names its stored state,
      each process's history is chained from its creation record, and its
      last record agrees with it. */
  predicate Consistent(st: Store) {
    && (forall id :: id in st.processes ==> st.processes[id].id == id && id < st.nextId)
    && (forall i :: 0 <= i < |st.history| ==> st.history[i].processId < st.nextId)
    && (forall id :: id in st.snapshots ==> id in st.processes && st.snapshots[id] == st.processes[id].state)
    && (forall id :: id in st.processes ==> Chained(HistoryOf(st.history, id)))
    && (forall id :: id in st.processes ==> Reflected(st, id))
  }

  /** In a consistent store, a stored process's history is its creation
      record followed by gap-free transitions, ending in its current state
      and variables; the creation record is the only one from no state. */
  lemma HistoryLineage(st: Store, id: ProcessId)
    requires Consistent(st) && id in st.processes
    ensures var hs := HistoryOf(st.history, id);
            && |hs| > 0
            && hs[0].fromState == None && hs[0].event == None && hs[0].toState == STARTED
            && (forall i :: 0 < i < |hs| ==> hs[i].fromState == Some(hs[i - 1].toState))
            && (forall i :: 0 < i < |hs| ==> hs[i].fromState.Some?)
            && hs[|hs| - 1].toState == st.processes[id].state
            && hs[|hs| - 1].variablesSnapshot == st.processes[id].variables
  {
    assert Reflected(st, id);
    var hs := HistoryOf(st.history, id);
    forall i | 0 < i < |hs|
      ensures hs[i].fromState.Some?
    {
      assert hs[i].fromState == Some(hs[i - 1].toState);
    }
  }

  /** A record that leaves the state the chain last reached extends it. */
  lemma ChainedAppend(hs: seq<ProcessHistory>, rec: ProcessHistory)
    requires Chained(hs) && rec.fromState == Some(hs[|hs| - 1].toState)
    ensures Chained(hs + [rec])
  {
    var hs' := hs + [rec];
    forall i | 0 < i < |hs'|
      ensures hs'[i].fromState == Some(hs'[i - 1].toState)
    {
      if i < |hs| {
        assert hs'[i] == hs[i] && hs'[i - 1] == hs[i - 1];
      }
    }
  }

  lemma EmptyConsistent()
    ensures Consistent(EmptyStore)
    ensures forall id: ProcessId :: HistoryOf(EmptyStore.history, id) == []
  {
  }

  // ------------------------------------------------------------ operations

  /** startProcess: a blank client id or a missing type is refused;
      otherwise a STARTED process holding the initial data under a fresh id
      is stored and its creation record written. */
  function StartProcess(st: Store, clientId: string, t: Option<ProcessType>, initialData: Vars)
    : (Store, Result<ProcessInstance>)
  {
    if IsBlank(clientId) then (st, Err(InvalidArgument(CLIENT_ID_BLANK)))
    else if t.None? then (st, Err(InvalidArgument(TYPE_NULL)))
    else
      var pi := ProcessInstance(st.nextId, clientId, t.value, STARTED, initialData);
      var ps := st.processes[pi.id := pi];
      (st.(processes := ps, nextId := st.nextId + 1,
           history := st.history + [Record(ps, pi.id, None, STARTED, None, initialData)]),
       Ok(pi))
  }

  /** getProcess: the stored process or NotFound. */
  function GetProcess(st: Store, id: ProcessId): Result<ProcessInstance> {
    if id in st.processes then Ok(st.processes[id]) else Err(NotFound)
  }

  /** updateVariables: merge the updates into the variables, keep the state,
      and write a record from the state to itself with no event. */
  function UpdateVariables(st: Store, id: ProcessId, updates: Vars): (Store, Result<ProcessInstance>) {
    if id !in st.processes then (st, Err(NotFound))
    else
      var pi := st.processes[id];
      var pi' := pi.(variables := pi.variables + updates);
      var ps := st.processes[id := pi'];
      (st.(processes := ps, history := st.history + [Record(ps, id, Some(pi.state), pi.state, None, updates)]),
       Ok(pi'))
  }

  /** The state the engine starts from: the snapshot if one was written,
      otherwise the stored state. */
  function EngineStart(st: Store, pi: ProcessInstance): ProcessState {
    if pi.id in st.snapshots then st.snapshots[pi.id] else pi.state
  }

  /** The engine's variables: the process type first, then the stored
      variables, then the payload, each overwriting the one before. */
  function Seed(pi: ProcessInstance, data: Vars): Vars {
    map[EXT_TYPE := VType(pi.processType)] + pi.variables + data
  }

  /** The writes that complete an accepted transition: the updated process
      is stored, the engine context names its new state, and the transition
      record is appended. */
  function Transit(st: Store, id: ProcessId, pi': ProcessInstance, from: ProcessState, e: ProcessEvent, data: Vars)
    : Store
  {
    var ps := st.processes[id := pi'];
    st.(processes := ps, snapshots := st.snapshots[id := pi'.state],
        history := st.history + [Record(ps, id, Some(from), pi'.state, Some(e), data)])
  }

  lemma TransitEffects(st: Store, id: ProcessId, pi': ProcessInstance, from: ProcessState, e: ProcessEvent, data: Vars)
    ensures var st' := Transit(st, id, pi', from, e, data);
            && st'.processes == st.processes[id := pi']
            && st'.snapshots == st.snapshots[id := pi'.state]
            && st'.nextId == st.nextId
            && st'.history == st.history + [ProcessHistory(id, Some(from), pi'.state, Some(e), data, pi'.variables)]
  {
  }

  /** handleEvent: preconditions on the stored process and the payload, then
      the engine from its starting state on the seeded variables; on
      acceptance the payload is merged, the target stored, the snapshot
      written and one transition record appended. */
  function HandleEvent(cfg: Config, st: Store, id: ProcessId, e: ProcessEvent, data: Vars)
    : (Store, Result<ProcessInstance>)
  {
    if id !in st.processes then (st, Err(NotFound))
    else
      var pi := st.processes[id];
      var errs := cfg.validate(pi, e, data);
      if errs != [] then (st, Err(PreconditionsNotMet(pi.state, errs)))
      else
        match cfg.fire(Seed(pi, data), EngineStart(st, pi), e)
        case None => (st, Err(EventNotAccepted(e)))
        case Some(n) =>
          var pi' := pi.(state := n, variables := pi.variables + data);
          (Transit(st, id, pi', pi.state, e, data), Ok(pi'))
  }

  /** advance: the planned event for the stored type and state, its
      preconditions, then handleEvent with it. */
  function Advance(cfg: Config, st: Store, id: ProcessId, data: Vars): (Store, Result<ProcessInstance>) {
    if id !in st.processes then (st, Err(NotFound))
    else
      var pi := st.processes[id];
      match Next(pi.processType, pi.state)
      case None => (st, Err(NoNextStep(pi.state)))
      case Some(e) =>
        var errs := cfg.validate(pi, e, data);
        if errs != [] then (st, Err(PreconditionsNotMet(pi.state, errs)))
        else HandleEvent(cfg, st, id, e, data)
  }

  /** advanceProcess as written: the engine from its starting state on the
      seeded variables, and on acceptance the target and the whole seeded
      map are stored; no preconditions, no snapshot, no history. */
  function AdvanceProcessAsWritten(cfg: Config, st: Store, id: ProcessId, e: ProcessEvent, data: Vars)
    : (Store, Result<ProcessInstance>)
  {
    if id !in st.processes then (st, Err(NotFound))
    else
      var pi := st.processes[id];
      match cfg.fire(Seed(pi, data), EngineStart(st, pi), e)
      case None => (st, Err(NoNextStep(pi.state)))
      case Some(n) =>
        var pi' := pi.(state := n, variables := Seed(pi, data));
        (st.(processes := st.processes[id := pi']), Ok(pi'))
  }

  /** advanceProcess corrected: the preconditions its contract announces are
      checked, and the snapshot and a transition record are written as the
      other state-changing operations do. */
  function AdvanceProcess(cfg: Config, st: Store, id: ProcessId, e: ProcessEvent, data: Vars)
    : (Store, Result<ProcessInstance>)
  {
    if id !in st.processes then (st, Err(NotFound))
    else
      var pi := st.processes[id];
      var errs := cfg.validate(pi, e, data);
      if errs != [] then (st, Err(PreconditionsNotMet(pi.state, errs)))
      else
        match cfg.fire(Seed(pi, data), EngineStart(st, pi), e)
        case None => (st, Err(NoNextStep(pi.state)))
        case Some(n) =>
          var pi' := pi.(state := n, variables := Seed(pi, data));
          (Transit(st, id, pi', pi.state, e, data), Ok(pi'))
  }

  // ------------------------------------------------------------ properties

  /** startProcess refuses exactly a blank client id or a missing type, with
      the matching message and no effect; otherwise the new process is
      STARTED under the previously unused counter value, holds the initial
      data, and the history grows by exactly its creation record. */
  lemma StartProcessOutcome(st: Store, clientId: string, t: Option<ProcessType>, initialData: Vars)
    requires Consistent(st)
    ensures var (st', r) := StartProcess(st, clientId, t, initialData);
            && (r.Err? <==> IsBlank(clientId) || t.None?)
            && (IsBlank(clientId) ==> st' == st && r == Err(InvalidArgument(CLIENT_ID_BLANK)))
            && (!IsBlank(clientId) && t.None? ==> st' == st && r == Err(InvalidArgument(TYPE_NULL)))
            && (r.Ok? ==>
                  && r.value == ProcessInstance(st.nextId, clientId, t.value, STARTED, initialData)
                  && st.nextId !in st.processes
                  && st'.processes == st.processes[st.nextId := r.value]
                  && st'.snapshots == st.snapshots
                  && st'.history == st.history + [ProcessHistory(st.nextId, None, STARTED, None, initialData, initialData)]
                  && HistoryOf(st'.history, st.nextId)
                     == [ProcessHistory(st.nextId, None, STARTED, None, initialData, initialData)])
  {
    var (st', r) := StartProcess(st, clientId, t, initialData);
    if r.Ok? {
      var rec := ProcessHistory(st.nextId, None, STARTED, None, initialData, initialData);
      HistoryOfNone(st.history, st.nextId);
      HistoryOfAppend(st.history, rec, st.nextId);
    }
  }

  /** An unknown id is reported as NotFound by every lookup operation, and
      nothing changes. */
  lemma UnknownIdChangesNothing(cfg: Config, st: Store, id: ProcessId, e: ProcessEvent, data: Vars)
    requires id !in st.processes
    ensures GetProcess(st, id) == Err(NotFound)
    ensures UpdateVariables(st, id, data) == (st, Err(NotFound))
    ensures HandleEvent(cfg, st, id, e, data) == (st, Err(NotFound))
    ensures Advance(cfg, st, id, data) == (st, Err(NotFound))
    ensures AdvanceProcess(cfg, st, id, e, data) == (st, Err(NotFound))
    ensures AdvanceProcessAsWritten(cfg, st, id, e, data) == (st, Err(NotFound))
  {
  }

  /** How the engine's variables are layered: the payload wins, then the
      stored variables, and the process type only when neither names the key. */
  lemma SeedOrder(pi: ProcessInstance, data: Vars, k: string)
    ensures Lookup(Seed(pi, data), k)
            == if k in data then data[k]
               else if k in pi.variables then pi.variables[k]
               else if k == EXT_TYPE then VType(pi.processType)
               else VNull
  {
  }

  /** A stored or submitted processType that is not a type value hides the
      real type from the guards, so handleEvent rejects every event that
      passes its preconditions. */
  lemma ShadowedTypeRejects(cfg: Config, strict: bool, checks: seq<Check>, st: Store, id: ProcessId,
                            e: ProcessEvent, data: Vars)
    requires Wired(cfg, strict, checks) && id in st.processes
    requires EXT_TYPE in st.processes[id].variables + data
    requires !(st.processes[id].variables + data)[EXT_TYPE].VType?
    requires cfg.validate(st.processes[id], e, data) == []
    ensures HandleEvent(cfg, st, id, e, data) == (st, Err(EventNotAccepted(e)))
  {
    var pi := st.processes[id];
    var seed := Seed(pi, data);
    assert Lookup(seed, EXT_TYPE) == (pi.variables + data)[EXT_TYPE];
    UntypedRejected(strict, seed, EngineStart(st, pi), e);
  }

  /** handleEvent, case by case: failing preconditions and a rejected event
      leave everything as it was; it succeeds exactly when the process
      exists, the preconditions pass and the engine accepts, and then the
      target is stored with the payload merged in, the snapshot names the
      target, other processes are untouched and the history grows by the one
      transition record. */
  lemma HandleEventOutcome(cfg: Config, st: Store, id: ProcessId, e: ProcessEvent, data: Vars)
    requires id in st.processes
    ensures var pi := st.processes[id];
            var errs := cfg.validate(pi, e, data);
            var target := cfg.fire(Seed(pi, data), EngineStart(st, pi), e);
            var (st', r) := HandleEvent(cfg, st, id, e, data);
            && (r.Ok? <==> errs == [] && target.Some?)
            && (errs != [] ==> st' == st && r == Err(PreconditionsNotMet(pi.state, errs)))
            && (errs == [] && target.None? ==> st' == st && r == Err(EventNotAccepted(e)))
            && (r.Ok? ==>
                  && r.value == pi.(state := target.value, variables := pi.variables + data)
                  && st'.processes == st.processes[id := r.value]
                  && st'.snapshots == st.snapshots[id := target.value]
                  && st'.nextId == st.nextId
                  && st'.history == st.history
                     + [ProcessHistory(id, Some(pi.state), target.value, Some(e), data, pi.variables + data)])
  {
    var pi := st.processes[id];
    var errs := cfg.validate(pi, e, data);
    var target := cfg.fire(Seed(pi, data), EngineStart(st, pi), e);
    if errs != [] {
      assert HandleEvent(cfg, st, id, e, data) == (st, Err(PreconditionsNotMet(pi.state, errs)));
    } else if target.None? {
      assert HandleEvent(cfg, st, id, e, data) == (st, Err(EventNotAccepted(e)));
    } else {
      var pi' := pi.(state := target.value, variables := pi.variables + data);
      assert HandleEvent(cfg, st, id, e, data) == (Transit(st, id, pi', pi.state, e, data), Ok(pi'));
      TransitEffects(st, id, pi', pi.state, e, data);
    }
  }

  /** updateVariables keeps the state, merges the updates, and writes one
      record whose from and to states are both the current state. */
  lemma UpdateVariablesOutcome(st: Store, id: ProcessId, updates: Vars)
    requires id in st.processes
    ensures var pi := st.processes[id];
            var (st', r) := UpdateVariables(st, id, updates);
            && r == Ok(pi.(variables := pi.variables + updates))
            && r.value.state == pi.state
            && (forall k :: k in updates ==> r.value.variables[k] == updates[k])
            && (forall k :: k in pi.variables && k !in updates ==> r.value.variables[k] == pi.variables[k])
            && st'.processes == st.processes[id := r.value]
            && st'.nextId == st.nextId
            && st'.snapshots == st.snapshots
            && st'.history == st.history
               + [ProcessHistory(id, Some(pi.state), pi.state, None, updates, pi.variables + updates)]
  {
  }

  /** advance refuses, with no effect, a state the plan has no step for;
      otherwise it answers exactly what handleEvent answers for the planned
      event and the same payload. */
  lemma AdvanceIsPlannedEvent(cfg: Config, st: Store, id: ProcessId, data: Vars)
    requires id in st.processes
    ensures var pi := st.processes[id];
            && (Next(pi.processType, pi.state).None? ==>
                  Advance(cfg, st, id, data) == (st, Err(NoNextStep(pi.state))))
            && (Next(pi.processType, pi.state).Some? ==>
                  Advance(cfg, st, id, data) == HandleEvent(cfg, st, id, Next(pi.processType, pi.state).value, data))
  {
  }

  /** advanceProcess as written succeeds exactly when the engine accepts the
      event, whatever the preconditions say; on success it stores the
      engine's target and its whole variable map, process type included, for
      this process alone; it never touches the history or the snapshots, and
      a refusal changes nothing. */
  lemma AdvanceProcessAsWrittenEffects(cfg: Config, st: Store, id: ProcessId, e: ProcessEvent, data: Vars)
    requires id in st.processes
    ensures var pi := st.processes[id];
            var target := cfg.fire(Seed(pi, data), EngineStart(st, pi), e);
            var (st', r) := AdvanceProcessAsWritten(cfg, st, id, e, data);
            && (r.Ok? <==> target.Some?)
            && st'.history == st.history
            && st'.snapshots == st.snapshots
            && st'.nextId == st.nextId
            && (r.Ok? ==> && r.value == pi.(state := target.value, variables := Seed(pi, data))
                          && st'.processes == st.processes[id := r.value]
                          && r.value.variables[EXT_TYPE]
                             == (if EXT_TYPE in pi.variables + data then (pi.variables + data)[EXT_TYPE]
                                   else VType(pi.processType)))
            && (r.Err? ==> st' == st && r == Err(NoNextStep(pi.state)))
  {
  }

  /** The registry plays no part in advanceProcess as written: exchanging it
      for any other changes neither the answer nor the new store. */
  lemma AdvanceProcessAsWrittenIgnoresRegistry(cfg: Config, other: Validator, st: Store, id: ProcessId,
                                               e: ProcessEvent, data: Vars)
    ensures AdvanceProcessAsWritten(cfg.(validate := other), st, id, e, data)
            == AdvanceProcessAsWritten(cfg, st, id, e, data)
  {
  }

  /** The corrected advanceProcess, case by case: failing preconditions and
      a rejected event leave everything as it was; on acceptance the target
      and the seeded variables are stored, the snapshot names the target and
      the history grows by the one transition record. */
  lemma AdvanceProcessOutcome(cfg: Config, st: Store, id: ProcessId, e: ProcessEvent, data: Vars)
    requires id in st.processes
    ensures var pi := st.processes[id];
            var errs := cfg.validate(pi, e, data);
            var target := cfg.fire(Seed(pi, data), EngineStart(st, pi), e);
            var (st', r) := AdvanceProcess(cfg, st, id, e, data);
            && (r.Ok? <==> errs == [] && target.Some?)
            && (errs != [] ==> st' == st && r == Err(PreconditionsNotMet(pi.state, errs)))
            && (errs == [] && target.None? ==> st' == st && r == Err(NoNextStep(pi.state)))
            && (r.Ok? ==>
                  && r.value == pi.(state := target.value, variables := Seed(pi, data))
                  && st'.processes == st.processes[id := r.value]
                  && st'.snapshots == st.snapshots[id := target.value]
                  && st'.nextId == st.nextId
                  && st'.history == st.history
                     + [ProcessHistory(id, Some(pi.state), target.value, Some(e), data, Seed(pi, data))])
  {
    var pi := st.processes[id];
    var errs := cfg.validate(pi, e, data);
    var target := cfg.fire(Seed(pi, data), EngineStart(st, pi), e);
    if errs != [] {
      assert AdvanceProcess(cfg, st, id, e, data) == (st, Err(PreconditionsNotMet(pi.state, errs)));
    } else if target.None? {
      assert AdvanceProcess(cfg, st, id, e, data) == (st, Err(NoNextStep(pi.state)));
    } else {
      var pi' := pi.(state := target.value, variables := Seed(pi, data));
      assert AdvanceProcess(cfg, st, id, e, data) == (Transit(st, id, pi', pi.state, e, data), Ok(pi'));
      TransitEffects(st, id, pi', pi.state, e, data);
    }
  }

  /** In a consistent store the engine starts from the stored state. */
  lemma EngineStartsFromStored(st: Store, id: ProcessId)
    requires Consistent(st) && id in st.processes
    ensures EngineStart(st, st.processes[id]) == st.processes[id].state
  {
  }

  // ----------------------------------------------------- invariant kept

  /** Storing a process and appending the record that reflects it keeps the
      store consistent. */
  lemma WriteKeepsConsistent(st: Store, pi: ProcessInstance, snapshots: map<ProcessId, ProcessState>,
                             rec: ProcessHistory, nextId: nat)
    requires Consistent(st)
    requires pi.id < nextId && st.nextId <= nextId
    requires rec.processId == pi.id && rec.toState == pi.state && rec.variablesSnapshot == pi.variables
    requires pi.id in st.processes ==> rec.fromState == Some(st.processes[pi.id].state)
    requires pi.id !in st.processes ==> && st.nextId <= pi.id
                                        && rec.fromState == None && rec.event == None && rec.toState == STARTED
    requires forall id :: id in snapshots ==> (id in st.snapshots && id != pi.id && snapshots[id] == st.snapshots[id])
                                              || (id == pi.id && snapshots[id] == pi.state)
    ensures Consistent(Store(st.processes[pi.id := pi], st.history + [rec], snapshots, nextId))
  {
    var st' := Store(st.processes[pi.id := pi], st.history + [rec], snapshots, nextId);
    forall id | id in st'.processes
      ensures Reflected(st', id)
    {
      HistoryOfAppend(st.history, rec, id);
    }
    forall id | id in st'.processes
      ensures Chained(HistoryOf(st'.history, id))
    {
      WriteKeepsChain(st, pi, rec, id);
    }
  }

  /** The record of a write extends the written process's chain, or opens
      it for a new process, and leaves every other chain as it was. */
  lemma WriteKeepsChain(st: Store, pi: ProcessInstance, rec: ProcessHistory, id: ProcessId)
    requires Consistent(st)
    requires rec.processId == pi.id
    requires pi.id in st.processes ==> rec.fromState == Some(st.processes[pi.id].state)
    requires pi.id !in st.processes ==> && st.nextId <= pi.id
                                        && rec.fromState == None && rec.event == None && rec.toState == STARTED
    requires id in st.processes || id == pi.id
    ensures Chained(HistoryOf(st.history + [rec], id))
  {
    HistoryOfAppend(st.history, rec, id);
    if id != pi.id {
      assert Chained(HistoryOf(st.history, id));
    } else if id in st.processes {
      assert Reflected(st, id);
      ChainedAppend(HistoryOf(st.history, id), rec);
    } else {
      HistoryOfNone(st.history, id);
      assert HistoryOf(st.history + [rec], id) == [rec];
    }
  }

  lemma StartProcessKeepsConsistent(st: Store, clientId: string, t: Option<ProcessType>, initialData: Vars)
    requires Consistent(st)
    ensures Consistent(StartProcess(st, clientId, t, initialData).0)
  {
    if !IsBlank(clientId) && t.Some? {
      var pi := ProcessInstance(st.nextId, clientId, t.value, STARTED, initialData);
      var rec := ProcessHistory(pi.id, None, STARTED, None, initialData, initialData);
      assert StartProcess(st, clientId, t, initialData).0
             == Store(st.processes[pi.id := pi], st.history + [rec], st.snapshots, st.nextId + 1);
      assert st.nextId !in st.processes && st.nextId !in st.snapshots;
      WriteKeepsConsistent(st, pi, st.snapshots, rec, st.nextId + 1);
    }
  }

  lemma UpdateVariablesKeepsConsistent(st: Store, id: ProcessId, updates: Vars)
    requires Consistent(st)
    ensures Consistent(UpdateVariables(st, id, updates).0)
  {
    if id in st.processes {
      var pi := st.processes[id];
      var pi' := pi.(variables := pi.variables + updates);
      WriteKeepsConsistent(st, pi', st.snapshots,
                           ProcessHistory(id, Some(pi.state), pi.state, None, updates, pi'.variables), st.nextId);
    }
  }

  /** The writes of an accepted transition out of the stored state keep a
      consistent store consistent, whatever the new state and variables. */
  lemma TransitKeepsConsistent(st: Store, id: ProcessId, pi': ProcessInstance, from: ProcessState, e: ProcessEvent,
                                data: Vars)
    requires Consistent(st) && id in st.processes && pi'.id == id && from == st.processes[id].state
    ensures Consistent(Transit(st, id, pi', from, e, data))
  {
    var rec := ProcessHistory(id, Some(from), pi'.state, Some(e), data, pi'.variables);
    WriteKeepsConsistent(st, pi', st.snapshots[id := pi'.state], rec, st.nextId);
    assert Transit(st, id, pi', from, e, data)
           == Store(st.processes[id := pi'], st.history + [rec], st.snapshots[id := pi'.state], st.nextId);
  }

  lemma HandleEventKeepsConsistent(cfg: Config, st: Store, id: ProcessId, e: ProcessEvent, data: Vars)
    requires Consistent(st)
    ensures Consistent(HandleEvent(cfg, st, id, e, data).0)
  {
    var (st', r) := HandleEvent(cfg, st, id, e, data);
    if r.Ok? {
      var pi := st.processes[id];
      TransitKeepsConsistent(st, id, r.value, pi.state, e, data);
      assert st' == Transit(st, id, r.value, pi.state, e, data);
    }
  }

  lemma AdvanceKeepsConsistent(cfg: Config, st: Store, id: ProcessId, data: Vars)
    requires Consistent(st)
    ensures Consistent(Advance(cfg, st, id, data).0)
  {
    if id in st.processes {
      var pi := st.processes[id];
      if Next(pi.processType, pi.state).Some? {
        HandleEventKeepsConsistent(cfg, st, id, Next(pi.processType, pi.state).value, data);
      }
    }
  }

  lemma AdvanceProcessKeepsConsistent(cfg: Config, st: Store, id: ProcessId, e: ProcessEvent, data: Vars)
    requires Consistent(st)
    ensures Consistent(AdvanceProcess(cfg, st, id, e, data).0)
  {
    var (st', r) := AdvanceProcess(cfg, st, id, e, data);
    if r.Ok? {
      var pi := st.processes[id];
      TransitKeepsConsistent(st, id, r.value, pi.state, e, data);
      assert st' == Transit(st, id, r.value, pi.state, e, data);
    }
  }

  // -------------------------------------------------------------- findings

  /** handleEvent on an event whose preconditions pass and which the engine
      accepts: the writes of the accepted transition, and the updated process. */
  lemma HandleEventAccepted(cfg: Config, st: Store, id: ProcessId, e: ProcessEvent, data: Vars, n: ProcessState)
    requires id in st.processes
    requires cfg.validate(st.processes[id], e, data) == []
    requires cfg.fire(Seed(st.processes[id], data), EngineStart(st, st.processes[id]), e) == Some(n)
    ensures var pi := st.processes[id];
            var pi' := pi.(state := n, variables := pi.variables + data);
            HandleEvent(cfg, st, id, e, data) == (Transit(st, id, pi', pi.state, e, data), Ok(pi'))
  {
  }

  /** The corrected advanceProcess on an event whose preconditions pass and
      which the engine accepts: the writes of the accepted transition, with
      the seeded variables stored. */
  lemma AdvanceProcessAccepted(cfg: Config, st: Store, id: ProcessId, e: ProcessEvent, data: Vars, n: ProcessState)
    requires id in st.processes
    requires cfg.validate(st.processes[id], e, data) == []
    requires cfg.fire(Seed(st.processes[id], data), EngineStart(st, st.processes[id]), e) == Some(n)
    ensures var pi := st.processes[id];
            var pi' := pi.(state := n, variables := Seed(pi, data));
            AdvanceProcess(cfg, st, id, e, data) == (Transit(st, id, pi', pi.state, e, data), Ok(pi'))
  {
  }

  /** handleEvent on an event whose preconditions pass but which the engine
      rejects: EventNotAccepted, and nothing changes. */
  lemma HandleEventRejected(cfg: Config, st: Store, id: ProcessId, e: ProcessEvent, data: Vars)
    requires id in st.processes
    requires cfg.validate(st.processes[id], e, data) == []
    requires cfg.fire(Seed(st.processes[id], data), EngineStart(st, st.processes[id]), e) == None
    ensures HandleEvent(cfg, st, id, e, data) == (st, Err(EventNotAccepted(e)))
  {
  }

  /** A single owner's process in STARTED with no variables, handled
      START_FLOW with no payload, moves to the account questions and the
      engine context is written there. */
  lemma FlowStartFromStarted(cfg: Config, strict: bool, checks: seq<Check>, st: Store, id: ProcessId)
    requires Wired(cfg, strict, checks) && Consistent(st) && id in st.processes
    requires st.processes[id].processType == SINGLE_OWNER && st.processes[id].state == STARTED
    requires st.processes[id].variables == map[]
    ensures var st' := HandleEvent(cfg, st, id, START_FLOW, map[]).0;
            && Consistent(st') && id in st'.snapshots
            && st'.processes[id] == st.processes[id].(state := ANSWER_ACCOUNT_QUESTIONS)
  {
    var pi := st.processes[id];
    EngineStartsFromStored(st, id);
    var seed := Seed(pi, map[]);
    assert Lookup(seed, EXT_TYPE) == VType(SINGLE_OWNER);
    OnlyEntry(strict, seed, 0);
    UncheckedEvents(checks, pi, START_FLOW, map[]);
    HandleEventAccepted(cfg, st, id, START_FLOW, map[], ANSWER_ACCOUNT_QUESTIONS);
    var pi' := pi.(state := ANSWER_ACCOUNT_QUESTIONS, variables := pi.variables + map[]);
    assert pi' == pi.(state := ANSWER_ACCOUNT_QUESTIONS);
    TransitKeepsConsistent(st, id, pi', STARTED, START_FLOW, map[]);
    TransitEffects(st, id, pi', STARTED, START_FLOW, map[]);
  }

  /** How the stale-snapshot scenario arises from any consistent store: a
      single owner's process is started with no data and then START_FLOW is
      handled; the engine context is written at the account questions. */
  lemma StaleSnapshotSetup(cfg: Config, strict: bool, checks: seq<Check>, st: Store, clientId: string)
    requires Wired(cfg, strict, checks) && Consistent(st) && !IsBlank(clientId)
    ensures var id := st.nextId;
            var st1 := StartProcess(st, clientId, Some(SINGLE_OWNER), map[]).0;
            var st2 := HandleEvent(cfg, st1, id, START_FLOW, map[]).0;
            && Consistent(st2) && id in st2.processes && id in st2.snapshots
            && st2.processes[id] == ProcessInstance(id, clientId, SINGLE_OWNER, ANSWER_ACCOUNT_QUESTIONS, map[])
  {
    StartProcessOutcome(st, clientId, Some(SINGLE_OWNER), map[]);
    StartProcessKeepsConsistent(st, clientId, Some(SINGLE_OWNER), map[]);
    var st1 := StartProcess(st, clientId, Some(SINGLE_OWNER), map[]).0;
    FlowStartFromStarted(cfg, strict, checks, st1, st.nextId);
  }

  /** advanceProcess as written on a single owner's answers with no
      citizen flag: the stored state moves to KYC_IN_PROGRESS with the seeded
      variables, and nothing else changes. */
  lemma AnswersAsWritten(cfg: Config, strict: bool, checks: seq<Check>, st: Store, id: ProcessId)
    requires Wired(cfg, strict, checks) && Consistent(st) && id in st.processes
    requires st.processes[id].processType == SINGLE_OWNER
    requires st.processes[id].state == ANSWER_ACCOUNT_QUESTIONS
    requires st.processes[id].variables == map[]
    ensures var pi := st.processes[id];
            var pi1 := pi.(state := KYC_IN_PROGRESS, variables := Seed(pi, map[]));
            AdvanceProcessAsWritten(cfg, st, id, SUBMIT_ANSWERS, map[])
            == (st.(processes := st.processes[id := pi1]), Ok(pi1))
  {
    var pi := st.processes[id];
    var seed := Seed(pi, map[]);
    assert Lookup(seed, EXT_TYPE) == VType(SINGLE_OWNER);
    assert Lookup(seed, "isUSCitizen") == VNull;
    EngineStartsFromStored(st, id);
    CitizenBranch(strict, seed);
  }

  /** From a snapshot left at the account questions, BACK is accepted and
      leads to STARTED whatever state is stored. */
  lemma BackFromStaleSnapshot(cfg: Config, strict: bool, checks: seq<Check>, st: Store, id: ProcessId)
    requires Wired(cfg, strict, checks) && id in st.processes && st.processes[id].id == id && id in st.snapshots
    requires st.snapshots[id] == ANSWER_ACCOUNT_QUESTIONS
    requires Lookup(Seed(st.processes[id], map[]), EXT_TYPE) == VType(SINGLE_OWNER)
    ensures var r := HandleEvent(cfg, st, id, BACK, map[]).1;
            r.Ok? && r.value.state == STARTED
  {
    var pi := st.processes[id];
    assert EngineStart(st, pi) == ANSWER_ACCOUNT_QUESTIONS;
    UncheckedEvents(checks, pi, BACK, map[]);
    BackPolicy(strict, Seed(pi, map[]), ANSWER_ACCOUNT_QUESTIONS);
    HandleEventAccepted(cfg, st, id, BACK, map[], STARTED);
  }

  /** The stale snapshot. A single-owner process whose engine context was
      written at the account questions answers them through advanceProcess
      as written: the stored state moves to KYC_IN_PROGRESS but the snapshot
      stays behind, the store is no longer consistent, and a later BACK is
      accepted from the stale snapshot and sends the process back to STARTED
      although BACK is not allowed from KYC_IN_PROGRESS. */
  lemma StaleSnapshotAsWritten(cfg: Config, strict: bool, checks: seq<Check>, st: Store, id: ProcessId)
    requires Wired(cfg, strict, checks) && Consistent(st) && id in st.processes && id in st.snapshots
    requires st.processes[id].processType == SINGLE_OWNER
    requires st.processes[id].state == ANSWER_ACCOUNT_QUESTIONS
    requires st.processes[id].variables == map[]
    ensures var (st1, r1) := AdvanceProcessAsWritten(cfg, st, id, SUBMIT_ANSWERS, map[]);
            && r1.Ok? && r1.value.state == KYC_IN_PROGRESS
            && st1.snapshots[id] == ANSWER_ACCOUNT_QUESTIONS
            && !Consistent(st1)
            && BackTarget(VType(SINGLE_OWNER), KYC_IN_PROGRESS).None?
            && var r2 := HandleEvent(cfg, st1, id, BACK, map[]).1;
               r2.Ok? && r2.value.state == STARTED
  {
    var pi := st.processes[id];
    AnswersAsWritten(cfg, strict, checks, st, id);
    var pi1 := pi.(state := KYC_IN_PROGRESS, variables := Seed(pi, map[]));
    StaleStore(st, id, pi1);
    BackFromStaleSnapshot(cfg, strict, checks, st.(processes := st.processes[id := pi1]), id);
  }

  /** The store advanceProcess as written leaves behind when a single
      owner's process at the account questions moves to KYC_IN_PROGRESS. */
  lemma StaleStore(st: Store, id: ProcessId, pi1: ProcessInstance)
    requires Consistent(st) && id in st.processes && id in st.snapshots
    requires st.processes[id].state == ANSWER_ACCOUNT_QUESTIONS
    requires pi1 == st.processes[id].(state := KYC_IN_PROGRESS, variables := Seed(st.processes[id], map[]))
    requires st.processes[id].processType == SINGLE_OWNER && st.processes[id].variables == map[]
    ensures var st1 := st.(processes := st.processes[id := pi1]);
            && st1.processes[id] == pi1 && st1.processes[id].id == id
            && st1.snapshots[id] == ANSWER_ACCOUNT_QUESTIONS
            && !Consistent(st1)
            && Lookup(Seed(pi1, map[]), EXT_TYPE) == VType(SINGLE_OWNER)
  {
    assert Seed(pi1, map[])[EXT_TYPE] == VType(SINGLE_OWNER);
  }

  /** In a consistent store BACK is refused, with no effect, once a single
      owner's stored state is KYC_IN_PROGRESS. */
  lemma BackRefusedAtKyc(cfg: Config, strict: bool, checks: seq<Check>, st: Store, id: ProcessId)
    requires Wired(cfg, strict, checks) && Consistent(st) && id in st.processes
    requires st.processes[id].processType == SINGLE_OWNER
    requires st.processes[id].state == KYC_IN_PROGRESS
    requires EXT_TYPE in st.processes[id].variables ==> st.processes[id].variables[EXT_TYPE] == VType(SINGLE_OWNER)
    ensures HandleEvent(cfg, st, id, BACK, map[]) == (st, Err(EventNotAccepted(BACK)))
  {
    var pi := st.processes[id];
    var seed := Seed(pi, map[]);
    assert Lookup(seed, EXT_TYPE) == VType(SINGLE_OWNER);
    EngineStartsFromStored(st, id);
    UncheckedEvents(checks, pi, BACK, map[]);
    BackPolicy(strict, seed, KYC_IN_PROGRESS);
    HandleEventRejected(cfg, st, id, BACK, map[]);
  }

  /** The corrected advanceProcess on a single owner's answers with no
      citizen flag: the process moves to KYC_IN_PROGRESS and the snapshot
      follows it. */
  lemma AnswersCorrected(cfg: Config, strict: bool, checks: seq<Check>, st: Store, id: ProcessId)
    requires Wired(cfg, strict, checks) && Consistent(st) && id in st.processes
    requires st.processes[id].processType == SINGLE_OWNER
    requires st.processes[id].state == ANSWER_ACCOUNT_QUESTIONS
    requires st.processes[id].variables == map[]
    ensures var pi := st.processes[id];
            var pi1 := pi.(state := KYC_IN_PROGRESS, variables := Seed(pi, map[]));
            AdvanceProcess(cfg, st, id, SUBMIT_ANSWERS, map[])
            == (Transit(st, id, pi1, ANSWER_ACCOUNT_QUESTIONS, SUBMIT_ANSWERS, map[]), Ok(pi1))
  {
    var pi := st.processes[id];
    var seed := Seed(pi, map[]);
    assert Lookup(seed, EXT_TYPE) == VType(SINGLE_OWNER);
    assert Lookup(seed, "isUSCitizen") == VNull;
    EngineStartsFromStored(st, id);
    CitizenBranch(strict, seed);
    UncheckedEvents(checks, pi, SUBMIT_ANSWERS, map[]);
  }

  /** The stale snapshot, corrected: the snapshot follows the stored state,
      the store stays consistent, and BACK from KYC_IN_PROGRESS is refused
      with no effect. */
  lemma StaleSnapshotCorrected(cfg: Config, strict: bool, checks: seq<Check>, st: Store, id: ProcessId)
    requires Wired(cfg, strict, checks) && Consistent(st) && id in st.processes
    requires st.processes[id].processType == SINGLE_OWNER
    requires st.processes[id].state == ANSWER_ACCOUNT_QUESTIONS
    requires st.processes[id].variables == map[]
    ensures var (st1, r1) := AdvanceProcess(cfg, st, id, SUBMIT_ANSWERS, map[]);
            && r1.Ok? && r1.value.state == KYC_IN_PROGRESS
            && st1.snapshots[id] == KYC_IN_PROGRESS
            && Consistent(st1)
            && HandleEvent(cfg, st1, id, BACK, map[]) == (st1, Err(EventNotAccepted(BACK)))
  {
    var pi := st.processes[id];
    AnswersCorrected(cfg, strict, checks, st, id);
    var pi1 := pi.(state := KYC_IN_PROGRESS, variables := Seed(pi, map[]));
    TransitKeepsConsistent(st, id, pi1, ANSWER_ACCOUNT_QUESTIONS, SUBMIT_ANSWERS, map[]);
    TransitEffects(st, id, pi1, ANSWER_ACCOUNT_QUESTIONS, SUBMIT_ANSWERS, map[]);
    var st1 := Transit(st, id, pi1, ANSWER_ACCOUNT_QUESTIONS, SUBMIT_ANSWERS, map[]);
    assert st1.processes[id] == pi1;
    assert pi1.variables[EXT_TYPE] == VType(SINGLE_OWNER);
    BackRefusedAtKyc(cfg, strict, checks, st1, id);
  }

  /** The skipped preconditions. With lenient guards and the registered
      checks, a single-owner process in KYC_IN_PROGRESS with no KYC status
      is moved on by advanceProcess as written, while handleEvent refuses
      the same event because the KYC result is missing. */
  lemma SkippedPreconditionsAsWritten(cfg: Config, strict: bool, checks: seq<Check>, st: Store, id: ProcessId)
    requires Wired(cfg, strict, checks) && Consistent(st) && id in st.processes
    requires !strict && checks == Registered
    requires st.processes[id].processType == SINGLE_OWNER
    requires st.processes[id].state == KYC_IN_PROGRESS
    requires st.processes[id].variables == map[]
    ensures var r := AdvanceProcessAsWritten(cfg, st, id, KYC_VERIFIED, map[]).1;
            r.Ok? && r.value.state == WAITING_FOR_BIOMETRY
    ensures HandleEvent(cfg, st, id, KYC_VERIFIED, map[])
            == (st, Err(PreconditionsNotMet(KYC_IN_PROGRESS, [KYC_RESULT_PRESENT])))
  {
    var pi := st.processes[id];
    var seed := Seed(pi, map[]);
    assert Lookup(seed, EXT_TYPE) == VType(SINGLE_OWNER);
    EngineStartsFromStored(st, id);
    KycGate(strict, seed, SINGLE_OWNER);
    RegisteredAtKyc(pi, map[]);
    assert KycStatus(pi.variables, map[]) == VNull;
  }

  /** The skipped preconditions, corrected: advanceProcess refuses the same
      event with the same errors as handleEvent and changes nothing. */
  lemma SkippedPreconditionsCorrected(cfg: Config, strict: bool, checks: seq<Check>, st: Store, id: ProcessId)
    requires Wired(cfg, strict, checks) && Consistent(st) && id in st.processes
    requires !strict && checks == Registered
    requires st.processes[id].processType == SINGLE_OWNER
    requires st.processes[id].state == KYC_IN_PROGRESS
    requires st.processes[id].variables == map[]
    ensures AdvanceProcess(cfg, st, id, KYC_VERIFIED, map[])
            == (st, Err(PreconditionsNotMet(KYC_IN_PROGRESS, [KYC_RESULT_PRESENT])))
  {
    var pi := st.processes[id];
    RegisteredAtKyc(pi, map[]);
    assert KycStatus(pi.variables, map[]) == VNull;
  }
}
