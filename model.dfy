/** The records the dispatcher keeps in `state.json` and `task_list.json`,
    the routing tags, and the calls it makes to its collaborators. */
module Model {

  datatype Option<T> = None | Some(value: T)

  /** One queued unit of work, as the task list stores it. Python removes
      tasks by comparing all of these fields. */
  datatype Task = Task(id: int, description: string, agent: string, isolatedContext: Option<string>)

  /** Routing tags compared against `task["agent"]`. */
  const ExecutorAgent: string := "splunk_executor_agent"
  const WriterAgent: string := "spl_writer_agent"
  const FilterAgent: string := "spl_filter_agent"
  const StatisticalAgent: string := "spl_statistical_analysis_agent"
  const RefactorAgent: string := "spl_refactor_agent"

  /** The session record (`current_state`). `userHasResponded` and
      `splProcessed` are carried but never consulted. */
  datatype SessionState = SessionState(
    initialSetupDone: bool,
    userHasResponded: bool,
    splCommandUpdated: bool,
    promptedForInput: bool,
    splProcessed: bool,
    displaySpl: bool,
    splCommand: string,
    updatedSplCommand: string)

  function DefaultState(): SessionState
  {
    SessionState(false, false, false, false, false, false, "", "")
  }

  /** `load_state`: the saved record, or the default one when no state file
      exists. A file is `None` until something has been saved to it. */
  function LoadedState(file: Option<SessionState>): (s: SessionState)
    ensures file.None? ==>
      && !s.initialSetupDone && !s.userHasResponded && !s.splCommandUpdated
      && !s.promptedForInput && !s.splProcessed && !s.displaySpl
      && s.splCommand == "" && s.updatedSplCommand == ""
    ensures file.Some? ==> s == file.value
  {
    match file
    case None => DefaultState()
    case Some(saved) => saved
  }

  /** `load_task_list`: the saved list, or the empty list when no task file
      exists. */
  function LoadedTasks(file: Option<seq<Task>>): (tasks: seq<Task>)
    ensures file.None? ==> tasks == []
    ensures file.Some? ==> tasks == file.value
  {
    match file
    case None => []
    case Some(saved) => saved
  }

  /** One row returned by a search; only dictionary rows carry field values. */
  datatype SearchRow = DictRow(values: seq<string>) | OtherRow

  /** Event code -> field names seen for it. */
  type Schema = map<string, seq<string>>

  /** The objective sentence built from the user's input. */
  function Objective(userInput: string): string
  {
    "Build a Splunk SPL Query to detect " + userInput + " in a windows environment"
  }

  /** Everything the dispatcher asks of the outside world, in order: text
      shown to or asked of the human, and calls to the text-completion and
      search collaborators, with the arguments they receive. */
  datatype Event =
    | Research(userInput: string)
    | ExtractEventCodes(content: string)
    | FieldSearch(query: string)
    | Enhance(objective: string, content: string, splunkInfo: string, schema: Schema)
    | ShowQuery(query: string)
    | PromptHuman(prefill: string)
    | Execute(task: Task, query: string)
    | Analyse(objective: string, query: string, results: seq<SearchRow>)
    | Write(task: Task, objective: string, schema: Schema, splunkInfo: string)
    | Filter(task: Task, objective: string, query: string)
    | Statistics(task: Task, objective: string, query: string)
    | Refactor(task: Task, objective: string, query: string, splunkInfo: string, schema: Schema)
}
