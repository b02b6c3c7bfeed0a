/** The persisted aggregate and its audit record. */
module Records {
  import opened Domain
  import opened Values

  /** Process identifiers are assigned by the store when a process is created. */
  type ProcessId = nat

  /** A process record: identity, owner, flow variant, workflow position and
      the extended-variable bag. */
  datatype ProcessInstance = ProcessInstance(
    id: ProcessId,
    clientId: string,
    processType: ProcessType,
    state: ProcessState,
    variables: Vars)

  /** One audit record: the process, where it came from (none for the
      creation record), where it went, the triggering event (none for the
      creation record and for variable patches), the payload that caused it
      and the variables after it. */
  datatype ProcessHistory = ProcessHistory(
    processId: ProcessId,
    fromState: Option<ProcessState>,
    toState: ProcessState,
    event: Option<ProcessEvent>,
    payload: Vars,
    variablesSnapshot: Vars)
}
