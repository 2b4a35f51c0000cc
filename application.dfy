/** `main` and its persistence helpers, as a class whose fields are the two
    files and the variables `main` updates step by step. */
module Application {
  import opened ListOps
  import opened Model
  import opened SchemaInfo
  import opened Dispatch

  /** The calls the bootstrap makes, in order. */
  function SetupCalls(userInput: string, research: string, completion: string,
                      search: string -> seq<SearchRow>, splunkInfo: string): seq<Event>
  {
    var codes := ParseEventCodes(completion);
    [Research(userInput), ExtractEventCodes(research)] + FieldSearches(codes)
      + [Enhance(Objective(userInput), research, splunkInfo, SchemaOf(codes, search))]
  }

  class App {
    /** `state.json`; `None` while no such file exists. */
    var stateFile: Option<SessionState>
    /** `task_list.json`; `None` while no such file exists. */
    var taskFile: Option<seq<Task>>
    /** `current_state` */
    var state: SessionState
    /** `task_list_json` */
    var tasks: seq<Task>
    /** the local `spl_command` */
    var spl: string
    /** the local `updated_spl_command` */
    var updatedSpl: string

    /** A process that finds the given files on disk. */
    constructor (stateFile: Option<SessionState>, taskFile: Option<seq<Task>>)
      ensures Snapshot() == Config(stateFile, taskFile, DefaultState(), [], "", "")
    {
      this.stateFile := stateFile;
      this.taskFile := taskFile;
      state := DefaultState();
      tasks := [];
      spl := "";
      updatedSpl := "";
    }

    function Snapshot(): Config
      reads this
    {
      Config(stateFile, taskFile, state, tasks, spl, updatedSpl)
    }

    /** `load_state` */
    method LoadState() returns (s: SessionState)
      ensures s == LoadedState(stateFile)
    {
      if stateFile.Some? {
        s := stateFile.value;
      } else {
        s := DefaultState();
      }
    }

    /** `save_state`: overwrite the state file. */
    method SaveState(s: SessionState)
      modifies this`stateFile
      ensures stateFile == Some(s)
    {
      stateFile := Some(s);
    }

    /** `load_task_list` */
    method LoadTaskList() returns (list: seq<Task>)
      ensures list == LoadedTasks(taskFile)
    {
      if taskFile.Some? {
        list := taskFile.value;
      } else {
        list := [];
      }
    }

    /** `save_task_list`: overwrite the task file. */
    method SaveTaskList(list: seq<Task>)
      modifies this`taskFile
      ensures taskFile == Some(list)
    {
      taskFile := Some(list);
    }

    /** `update_task_list(task, task_list_json)`: remove the first task equal
        to `task` from the in-memory list and write the list out. When no
        task is equal, `list.remove` raises (`removed` is false) and nothing
        changes. */
    method UpdateTaskList(task: Task) returns (removed: bool)
      modifies this`tasks, this`taskFile
      ensures removed == (task in old(tasks))
      ensures removed ==> |tasks| == |old(tasks)| - 1
      ensures removed ==> tasks == RemoveFirst(old(tasks), task) && taskFile == Some(tasks)
      ensures !removed ==> tasks == old(tasks) && taskFile == old(taskFile)
    {
      if task !in tasks {
        return false;
      }
      tasks := RemoveFirst(tasks, task);
      SaveTaskList(tasks);
      removed := true;
    }

    /** The setup branch of `main`. The research text, the event-code
        completion, the search collaborator, `splunk_info` and the enhanced
        task list are what the collaborators answer. */
    method Bootstrap(userInput: string, research: string, completion: string,
                     search: string -> seq<SearchRow>, splunkInfo: string, enhanced: seq<Task>)
      returns (schema: Option<Schema>, calls: seq<Event>)
      modifies this`taskFile, this`stateFile, this`state
      ensures Snapshot() == Setup(old(Snapshot()), enhanced)
      ensures old(state.initialSetupDone) ==> schema == None && calls == []
      ensures !old(state.initialSetupDone) ==>
        schema == Some(SchemaOf(ParseEventCodes(completion), search))
        && calls == SetupCalls(userInput, research, completion, search, splunkInfo)
    {
      if state.initialSetupDone {
        return None, [];
      }
      var objective := Objective(userInput);
      calls := [Research(userInput)];
      var gathered, searches := GatherSchemaInfo(research, completion, search);
      calls := calls + searches + [Enhance(objective, research, splunkInfo, gathered)];
      SaveTaskList(enhanced);
      state := state.(initialSetupDone := true);
      SaveState(state);
      schema := Some(gathered);
    }

    /** One iteration of the task loop. */
    method Step(env: Env, turn: Turn) returns (events: seq<Event>)
      requires tasks != []
      modifies this
      ensures Outcome(Snapshot(), events) == Dispatch.Step(old(Snapshot()), env, turn)
    {
      var task := tasks[0];
      var agent := task.agent;
      if agent == ExecutorAgent {
        events := Checkpoint(env, turn);
        return;
      }
      events := [];
      if agent == WriterAgent {
        events := [Write(task, env.objective, env.schema, env.splunkInfo)];
        spl := turn.reply;
      } else if agent == FilterAgent {
        events := [Filter(task, env.objective, spl)];
        spl := turn.reply;
      } else if agent == StatisticalAgent {
        events := [Statistics(task, env.objective, spl)];
        spl := turn.reply;
      } else if agent == RefactorAgent {
        events := [Refactor(task, env.objective, spl, env.splunkInfo, env.schema)];
        spl := turn.reply;
      }
      ghost var handled := Snapshot();
      assert task in tasks;
      var removed := UpdateTaskList(task);
      tasks := LoadTaskList();
      assert Snapshot() == Remove(handled, task);
    }

    /** The executor branch: the local query takes the stored one, then the
        four guards run in order. */
    method Checkpoint(env: Env, turn: Turn) returns (events: seq<Event>)
      requires tasks != []
      modifies this
      ensures Outcome(Snapshot(), events) == ExecutorStep(old(Snapshot()), env, turn)
    {
      var task := tasks[0];
      spl := state.splCommand;
      var shown := ShowGuard();
      var prompted := PromptGuard(turn);
      MarkGuard();
      var ran := RunGuard(task, env, turn);
      events := shown + prompted + ran;
    }

    method ShowGuard() returns (events: seq<Event>)
      modifies this`state, this`stateFile
      ensures Outcome(Snapshot(), events) == ShowOnce(old(Snapshot()))
    {
      events := [];
      if !state.displaySpl {
        events := [ShowQuery(state.splCommand)];
        state := state.(displaySpl := true);
        state := state.(splCommand := spl);
        SaveState(state);
      }
    }

    method PromptGuard(turn: Turn) returns (events: seq<Event>)
      modifies this`state, this`stateFile, this`updatedSpl
      ensures Outcome(Snapshot(), events) == PromptOnce(old(Snapshot()), turn)
    {
      events := [];
      if !state.promptedForInput {
        events := [PromptHuman(spl)];
        updatedSpl := turn.humanText;
        state := state.(promptedForInput := true);
        state := state.(updatedSplCommand := updatedSpl);
        SaveState(state);
      }
    }

    method MarkGuard()
      modifies this`state, this`stateFile
      ensures Snapshot() == MarkEdited(old(Snapshot()))
    {
      if state.splCommand != state.updatedSplCommand {
        state := state.(splCommandUpdated := true);
        SaveState(state);
      }
    }

    method RunGuard(task: Task, env: Env, turn: Turn) returns (events: seq<Event>)
      requires task in tasks
      modifies this`tasks, this`taskFile
      ensures Outcome(Snapshot(), events) == RunEdited(old(Snapshot()), task, env, turn)
    {
      events := [];
      if state.splCommandUpdated {
        events := [Execute(task, state.updatedSplCommand), Analyse(env.objective, updatedSpl, turn.rows)];
        var removed := UpdateTaskList(task);
        tasks := LoadTaskList();
      }
    }

    /** The task loop of `main`, one iteration per turn while tasks remain. */
    method Loop(env: Env, turns: seq<Turn>) returns (events: seq<Event>)
      modifies this
      ensures Outcome(Snapshot(), events) == Steps(Enter(old(Snapshot())), env, turns)
    {
      spl := state.splCommand;
      updatedSpl := state.updatedSplCommand;
      tasks := LoadTaskList();
      ghost var entry := Snapshot();
      events := [];
      var rest := turns;
      while rest != [] && tasks != []
        invariant var remaining := Steps(Snapshot(), env, rest);
          Steps(entry, env, turns) == Outcome(remaining.after, events + remaining.events)
        decreases |rest|
      {
        StepsUnfold(Snapshot(), env, rest);
        var e := Step(env, rest[0]);
        events := events + e;
        rest := rest[1..];
      }
    }

    /** `main()`: load the record; with a non-empty input, bootstrap once and
        then run the task loop. `priorSchema` stands for the `schema`
        value when setup was already done; `splunkInfo` is `splunk_info` in
        both cases. */
    method Run(userInput: string, research: string, completion: string,
               search: string -> seq<SearchRow>, splunkInfo: string, enhanced: seq<Task>,
               priorSchema: Schema, turns: seq<Turn>)
      returns (events: seq<Event>)
      modifies this
      ensures userInput == "" ==> events == [] && Snapshot() == Start(old(Snapshot()))
      ensures userInput != "" ==>
        var begin := Start(old(Snapshot()));
        var schema := if begin.state.initialSetupDone then priorSchema
                      else SchemaOf(ParseEventCodes(completion), search);
        var setupCalls := if begin.state.initialSetupDone then []
                          else SetupCalls(userInput, research, completion, search, splunkInfo);
        var loop := Steps(Enter(Setup(begin, enhanced)), Env(Objective(userInput), schema, splunkInfo), turns);
        Snapshot() == loop.after && events == setupCalls + loop.events
      ensures userInput != "" ==>
        && Durable(Snapshot()) && state.initialSetupDone
        && state.splCommand == LoadedState(old(stateFile)).splCommand
    {
      state := LoadState();
      events := [];
      if userInput != "" {
        ghost var begin := Snapshot();
        var schema, setupCalls := Bootstrap(userInput, research, completion, search, splunkInfo, enhanced);
        var env := Env(Objective(userInput), if schema.Some? then schema.value else priorSchema, splunkInfo);
        ghost var entry := Enter(Snapshot());
        var loopEvents := Loop(env, turns);
        events := setupCalls + loopEvents;
        EnterDurable(begin, enhanced);
        StepsInvariants(entry, env, turns);
      }
    }
  }
}
