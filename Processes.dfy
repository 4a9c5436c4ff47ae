/** The process definitions page: the fetched definitions, the start dialog for a
    selected definition and the start variables typed into the JSON editor. */
module Processes {
  import opened Wrappers
  import opened Json
  import opened Api
  import opened Editor

  /** The `startProcess` call the dialog sends: the selected definition's id in the
      `processKey` position, and the variables. */
  datatype StartRequest = StartRequest(processKey: string, variables: Json)

  class ProcessesPage {
    var processes: seq<ProcessDefinition>
    var loading: bool
    var selectedProcess: Option<ProcessDefinition>
    var variables: Json
    var startingProcess: bool
    var isConfirmOpen: bool

    constructor ()
      ensures processes == [] && loading && selectedProcess.None?
      ensures variables == JObject([]) && !startingProcess && !isConfirmOpen
    {
      processes := [];
      loading := true;
      selectedProcess := None;
      variables := JObject([]);
      startingProcess := false;
      isConfirmOpen := false;
    }

    /** `fetchProcesses()` given the outcome of `getProcessDefinitions`: data replaces the
        list, a response without data empties it, a thrown call leaves it; loading ends
        on every path. */
    method FetchProcesses(call: Call<seq<ProcessDefinition>>)
      modifies this
      ensures call.Returned? && call.response.data.Some? ==> processes == call.response.data.value
      ensures call.Returned? && call.response.data.None? ==> processes == []
      ensures call.Threw? ==> processes == old(processes)
      ensures !loading
      ensures selectedProcess == old(selectedProcess) && variables == old(variables)
      ensures startingProcess == old(startingProcess) && isConfirmOpen == old(isConfirmOpen)
    {
      loading := true;
      match call {
        case Threw(_) =>
        case Returned(response) =>
          if response.data.Some? {
            processes := response.data.value;
          } else {
            processes := [];
          }
      }
      loading := false;
    }

    /** `handleOpenConfirmDialog(process)`: selects the definition and opens the dialog. */
    method HandleOpenConfirmDialog(process: ProcessDefinition)
      modifies this
      ensures selectedProcess == Some(process) && isConfirmOpen
      ensures processes == old(processes) && loading == old(loading)
      ensures variables == old(variables) && startingProcess == old(startingProcess)
    {
      selectedProcess := Some(process);
      isConfirmOpen := true;
    }

    /** `handleStartProcess()` given the outcome of `startProcess`: with nothing selected
        nothing happens; otherwise the current variables are sent for the selected
        definition, a response with truthy data closes the dialog and resets the
        variables to `{}`, anything else (a falsy body such as `null` included) keeps
        both; starting ends on every path. */
    method HandleStartProcess(call: Call<Json>) returns (sent: Option<StartRequest>)
      modifies this
      ensures old(selectedProcess).None? ==>
        && sent.None? && startingProcess == old(startingProcess)
        && isConfirmOpen == old(isConfirmOpen) && variables == old(variables)
      ensures old(selectedProcess).Some? ==>
        && sent == Some(StartRequest(old(selectedProcess).value.id, old(variables)))
        && !startingProcess
        && (call.Returned? && HasTruthyData(call.response) ==> !isConfirmOpen && variables == JObject([]))
        && (!(call.Returned? && HasTruthyData(call.response)) ==> isConfirmOpen == old(isConfirmOpen) && variables == old(variables))
      ensures processes == old(processes) && loading == old(loading) && selectedProcess == old(selectedProcess)
    {
      if selectedProcess.None? {
        return None;
      }
      startingProcess := true;
      sent := Some(StartRequest(selectedProcess.value.id, variables));
      match call {
        case Threw(_) =>
        case Returned(response) =>
          if HasTruthyData(response) {
            isConfirmOpen := false;
            variables := JObject([]);
          }
      }
      startingProcess := false;
    }

    /** The variables editor's `onChange`: the variables follow the editor only while its
        text parses. */
    method OnVariablesChange(change: EditorChange)
      modifies this
      ensures variables == if change.errorFree then change.jsObject else old(variables)
      ensures processes == old(processes) && loading == old(loading) && selectedProcess == old(selectedProcess)
      ensures startingProcess == old(startingProcess) && isConfirmOpen == old(isConfirmOpen)
    {
      if change.errorFree {
        variables := change.jsObject;
      }
    }
  }
}
