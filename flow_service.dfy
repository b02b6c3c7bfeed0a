/** The orchestrator as an object: the process store, the history store and
    the engine-context store are fields its methods update in place. Each
    method is proved to leave the fields, and to answer, exactly as the
    corresponding function over the whole state prescribes, and to keep the
    store consistent. */
module FlowService {
  import opened Domain
  import opened Values
  import opened Records
  import opened Guards
  import opened Transitions
  import opened StepPlan
  import opened Preconditions
  import opened Registry
  import opened FlowSpec

  class FlowService {
    /** The injected precondition registry. */
    const validate: Validator
    /** The injected state-machine factory, as the machine it builds. */
    const fire: Engine

    /** The process repository, keyed by id. */
    var processes: map<ProcessId, ProcessInstance>
    /** The history repository, in the order records were written. */
    var history: seq<ProcessHistory>
    /** The engine-context store: the state last written per process. */
    var snapshots: map<ProcessId, ProcessState>
    /** The next id the repository hands out. */
    var nextId: nat

    function Cfg(): Config {
      Config(validate, fire)
    }

    function State(): Store
      reads this
    {
      Store(processes, history, snapshots, nextId)
    }

    predicate Valid()
      reads this
    {
      Consistent(State())
    }

    constructor(validate: Validator, fire: Engine)
      ensures Cfg() == Config(validate, fire)
      ensures State() == EmptyStore
      ensures Valid()
    {
      this.validate := validate;
      this.fire := fire;
      processes := map[];
      history := [];
      snapshots := map[];
      nextId := 0;
      EmptyConsistent();
    }

    /** saveHistory: append one record whose variables snapshot is what the
        store holds for the process now, or empty. */
    method SaveHistory(id: ProcessId, from: Option<ProcessState>, to: ProcessState,
                       event: Option<ProcessEvent>, payload: Vars)
      modifies this
      ensures history == old(history) + [Record(processes, id, from, to, event, payload)]
      ensures processes == old(processes) && snapshots == old(snapshots) && nextId == old(nextId)
    {
      var snapshot: Vars := map[];
      if id in processes {
        snapshot := processes[id].variables;
      }
      history := history + [ProcessHistory(id, from, to, event, payload, snapshot)];
    }

    /** The writes that complete an accepted transition: the process is
        saved, the engine context persisted and the transition recorded. */
    method Commit(id: ProcessId, pi': ProcessInstance, from: ProcessState, e: ProcessEvent, data: Vars)
      modifies this
      ensures State() == Transit(old(State()), id, pi', from, e, data)
      ensures old(Valid()) && id in old(processes) && pi'.id == id && from == old(processes)[id].state ==> Valid()
    {
      ghost var st := State();
      processes := processes[id := pi'];
      snapshots := snapshots[id := pi'.state];
      SaveHistory(id, Some(from), pi'.state, Some(e), data);
      if Consistent(st) && id in st.processes && pi'.id == id && from == st.processes[id].state {
        TransitKeepsConsistent(st, id, pi', from, e, data);
      }
    }

    /** The engine-context store's read: the state written for the process, if any. */
    method ReadSnapshot(id: ProcessId) returns (r: Option<ProcessState>)
      ensures r.Some? <==> id in snapshots
      ensures r.Some? ==> r.value == snapshots[id]
    {
      if id in snapshots {
        r := Some(snapshots[id]);
      } else {
        r := None;
      }
    }

    /** initStateMachine: the starting state is the snapshot if present,
        otherwise the stored state; the variables are filled with the type,
        then the stored variables, then the payload. */
    method InitStateMachine(pi: ProcessInstance, data: Vars) returns (start: ProcessState, ext: Vars)
      ensures start == EngineStart(State(), pi)
      ensures ext == Seed(pi, data)
      ensures Lookup(ext, EXT_TYPE) == if EXT_TYPE in pi.variables + data then (pi.variables + data)[EXT_TYPE]
                                       else VType(pi.processType)
    {
      var persisted := ReadSnapshot(pi.id);
      if persisted.Some? {
        start := persisted.value;
      } else {
        start := pi.state;
      }
      ext := map[];
      ext := ext[EXT_TYPE := VType(pi.processType)];
      ext := ext + pi.variables;
      ext := ext + data;
    }

    method StartProcess(clientId: string, t: Option<ProcessType>, initialData: Vars)
      returns (r: Result<ProcessInstance>)
      modifies this
      ensures (State(), r) == FlowSpec.StartProcess(old(State()), clientId, t, initialData)
      ensures old(Valid()) ==> Valid()
    {
      ghost var st := State();
      if IsBlank(clientId) {
        return Err(InvalidArgument(CLIENT_ID_BLANK));
      }
      if t.None? {
        return Err(InvalidArgument(TYPE_NULL));
      }
      var pi := ProcessInstance(nextId, clientId, t.value, STARTED, initialData);
      processes := processes[pi.id := pi];
      nextId := nextId + 1;
      SaveHistory(pi.id, None, STARTED, None, initialData);
      r := Ok(pi);
      if Consistent(st) {
        StartProcessKeepsConsistent(st, clientId, t, initialData);
      }
    }

    method GetProcess(id: ProcessId) returns (r: Result<ProcessInstance>)
      ensures r == FlowSpec.GetProcess(State(), id)
      ensures r.Ok? <==> id in processes
      ensures r.Ok? ==> r.value == processes[id]
    {
      if id in processes {
        r := Ok(processes[id]);
      } else {
        r := Err(NotFound);
      }
    }

    /** getHistory: the process's records in the order they were written;
        an unknown id has none. */
    method GetHistory(id: ProcessId) returns (r: seq<ProcessHistory>)
      ensures r == HistoryOf(history, id)
      ensures forall i :: 0 <= i < |r| ==> r[i].processId == id
    {
      r := HistoryOf(history, id);
    }

    method UpdateVariables(id: ProcessId, updates: Vars) returns (r: Result<ProcessInstance>)
      modifies this
      ensures (State(), r) == FlowSpec.UpdateVariables(old(State()), id, updates)
      ensures old(Valid()) ==> Valid()
    {
      ghost var st := State();
      var found := GetProcess(id);
      if found.Err? {
        return found;
      }
      var pi := found.value;
      var pi' := pi.(variables := pi.variables + updates);
      processes := processes[id := pi'];
      SaveHistory(id, Some(pi.state), pi.state, None, updates);
      r := Ok(pi');
      if Consistent(st) {
        UpdateVariablesKeepsConsistent(st, id, updates);
      }
    }

    method HandleEvent(id: ProcessId, e: ProcessEvent, data: Vars) returns (r: Result<ProcessInstance>)
      modifies this
      ensures (State(), r) == FlowSpec.HandleEvent(Cfg(), old(State()), id, e, data)
      ensures old(Valid()) ==> Valid()
    {
      ghost var st := State();
      var found := GetProcess(id);
      if found.Err? {
        r := found;
      } else {
        var pi := found.value;
        var errs := validate(pi, e, data);
        if errs != [] {
          r := Err(PreconditionsNotMet(pi.state, errs));
        } else {
          var start, ext := InitStateMachine(pi, data);
          var target := fire(ext, start, e);
          if target.None? {
            r := Err(EventNotAccepted(e));
            HandleEventRejected(Cfg(), st, id, e, data);
          } else {
            var n := target.value;
            var pi' := pi.(state := n, variables := pi.variables + data);
            Commit(id, pi', pi.state, e, data);
            r := Ok(pi');
            HandleEventAccepted(Cfg(), st, id, e, data, n);
          }
        }
      }
    }

    method Advance(id: ProcessId, data: Vars) returns (r: Result<ProcessInstance>)
      modifies this
      ensures (State(), r) == FlowSpec.Advance(Cfg(), old(State()), id, data)
      ensures old(Valid()) ==> Valid()
    {
      ghost var st := State();
      var found := GetProcess(id);
      if found.Err? {
        return found;
      }
      var pi := found.value;
      var next := Next(pi.processType, pi.state);
      if next.None? {
        return Err(NoNextStep(pi.state));
      }
      var errs := validate(pi, next.value, data);
      if errs != [] {
        return Err(PreconditionsNotMet(pi.state, errs));
      }
      r := HandleEvent(id, next.value, data);
    }

    /** advanceProcess, with the preconditions checked and the snapshot and
        history written (see the as-written function for the original). */
    method AdvanceProcess(id: ProcessId, e: ProcessEvent, data: Vars) returns (r: Result<ProcessInstance>)
      modifies this
      ensures (State(), r) == FlowSpec.AdvanceProcess(Cfg(), old(State()), id, e, data)
      ensures old(Valid()) ==> Valid()
    {
      ghost var st := State();
      var found := GetProcess(id);
      if found.Err? {
        r := found;
      } else {
        var pi := found.value;
        var errs := validate(pi, e, data);
        if errs != [] {
          r := Err(PreconditionsNotMet(pi.state, errs));
        } else {
          var start, ext := InitStateMachine(pi, data);
          var target := fire(ext, start, e);
          if target.None? {
            r := Err(NoNextStep(pi.state));
          } else {
            var n := target.value;
            var pi' := pi.(state := n, variables := ext);
            Commit(id, pi', pi.state, e, data);
            r := Ok(pi');
            AdvanceProcessAccepted(Cfg(), st, id, e, data, n);
          }
        }
      }
    }
  }
}
