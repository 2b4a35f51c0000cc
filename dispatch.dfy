/** The task-execution loop of `main` as a function on values: one
    iteration (`Step`), a run of iterations (`Steps`), and the setup that
    precedes them. The class in application.dfy is proved to do exactly this. */
module Dispatch {
  import opened ListOps
  import opened Model

  /** What the loop reads but never changes: the objective, and the
      `schema` and `splunk_info` values the handlers receive. */
  datatype Env = Env(objective: string, schema: Schema, splunkInfo: string)

  /** What the collaborators answer during one iteration: the generation
      handler's reply, the human's text in the edit box, and the rows the
      executor's search returns. Each iteration uses only the ones its
      branch calls for. */
  datatype Turn = Turn(reply: string, humanText: string, rows: seq<SearchRow>)

  /** Everything one iteration can read or change: the two files, the
      in-memory `current_state` and `task_list_json`, and the locals
      `spl_command` and `updated_spl_command`. */
  datatype Config = Config(
    stateFile: Option<SessionState>,
    taskFile: Option<seq<Task>>,
    state: SessionState,
    tasks: seq<Task>,
    spl: string,
    updatedSpl: string)

  datatype Outcome = Outcome(after: Config, events: seq<Event>)

  /** Memory agrees with the files: a restart that reloads both finds the
      same record and the same queue. */
  predicate Durable(c: Config)
  {
    LoadedState(c.stateFile) == c.state && LoadedTasks(c.taskFile) == c.tasks
  }

  /** The local `updated_spl_command` mirrors the stored one. */
  predicate LocalsAgree(c: Config)
  {
    c.updatedSpl == c.state.updatedSplCommand
  }

  /** How the record may evolve inside the loop: the three checkpoint flags
      only go from false to true, the edited command is fixed once the
      human has been asked for it, and the other fields stay as they were. */
  predicate Progress(a: SessionState, b: SessionState)
  {
    && (a.displaySpl ==> b.displaySpl)
    && (a.promptedForInput ==> b.promptedForInput)
    && (a.splCommandUpdated ==> b.splCommandUpdated)
    && (a.promptedForInput ==> b.updatedSplCommand == a.updatedSplCommand)
    && b.initialSetupDone == a.initialSetupDone
    && b.userHasResponded == a.userHasResponded
    && b.splProcessed == a.splProcessed
    && b.splCommand == a.splCommand
  }

  /** `current_state = load_state()` at the start of `main`. */
  function Start(c: Config): Config
  {
    c.(state := LoadedState(c.stateFile))
  }

  /** The bootstrap's effect on the files and the record: when
      `initial_setup_done` is false, store the enhanced task list, then set
      the flag and store the record. */
  function Setup(c: Config, enhanced: seq<Task>): Config
  {
    if c.state.initialSetupDone then c
    else
      var s := c.state.(initialSetupDone := true);
      c.(taskFile := Some(enhanced), state := s, stateFile := Some(s))
  }

  /** Before the loop: the locals take the stored commands and the queue is
      loaded from its file. */
  function Enter(c: Config): Config
  {
    c.(spl := c.state.splCommand, updatedSpl := c.state.updatedSplCommand,
       tasks := LoadedTasks(c.taskFile))
  }

  /** `update_task_list(task, task_list_json)` followed by
      `task_list_json = load_task_list()`. */
  function Remove(c: Config, task: Task): Config
    requires task in c.tasks
  {
    var rest := RemoveFirst(c.tasks, task);
    var saved := c.(tasks := rest, taskFile := Some(rest));
    saved.(tasks := LoadedTasks(saved.taskFile))
  }

  /** First guard: show the query once (`display_spl`). */
  function ShowOnce(c: Config): Outcome
  {
    if c.state.displaySpl then Outcome(c, [])
    else
      var s := c.state.(displaySpl := true, splCommand := c.spl);
      Outcome(c.(state := s, stateFile := Some(s)), [ShowQuery(c.state.splCommand)])
  }

  /** Second guard: ask for the edit once (`prompted_for_input`); the edit
      box starts with the local query. */
  function PromptOnce(c: Config, turn: Turn): Outcome
  {
    if c.state.promptedForInput then Outcome(c, [])
    else
      var s := c.state.(promptedForInput := true, updatedSplCommand := turn.humanText);
      Outcome(c.(updatedSpl := turn.humanText, state := s, stateFile := Some(s)), [PromptHuman(c.spl)])
  }

  /** Third guard: record that the edit differs (`spl_command_updated`). */
  function MarkEdited(c: Config): Config
  {
    if c.state.splCommand == c.state.updatedSplCommand then c
    else
      var s := c.state.(splCommandUpdated := true);
      c.(state := s, stateFile := Some(s))
  }

  /** Fourth guard: once the edit flag is set, search with the edited query,
      have the results analysed, and drop the task. */
  function RunEdited(c: Config, task: Task, env: Env, turn: Turn): Outcome
    requires task in c.tasks
  {
    if !c.state.splCommandUpdated then Outcome(c, [])
    else
      Outcome(Remove(c, task),
              [Execute(task, c.state.updatedSplCommand), Analyse(env.objective, c.updatedSpl, turn.rows)])
  }

  /** The human checkpoint: the local query takes the stored one, then the
      four guards are evaluated in order on every visit. */
  function ExecutorStep(c: Config, env: Env, turn: Turn): Outcome
    requires c.tasks != []
  {
    var shown := ShowOnce(c.(spl := c.state.splCommand));
    var prompted := PromptOnce(shown.after, turn);
    var marked := MarkEdited(prompted.after);
    var ran := RunEdited(marked, c.tasks[0], env, turn);
    Outcome(ran.after, shown.events + prompted.events + ran.events)
  }

  /** One iteration of `while task_list_json`: route the head task by its
      agent tag. */
  function Step(c: Config, env: Env, turn: Turn): Outcome
    requires c.tasks != []
  {
    var task := c.tasks[0];
    if task.agent == ExecutorAgent then
      ExecutorStep(c, env, turn)
    else if task.agent == WriterAgent then
      Outcome(Remove(c.(spl := turn.reply), task), [Write(task, env.objective, env.schema, env.splunkInfo)])
    else if task.agent == FilterAgent then
      Outcome(Remove(c.(spl := turn.reply), task), [Filter(task, env.objective, c.spl)])
    else if task.agent == StatisticalAgent then
      Outcome(Remove(c.(spl := turn.reply), task), [Statistics(task, env.objective, c.spl)])
    else if task.agent == RefactorAgent then
      Outcome(Remove(c.(spl := turn.reply), task), [Refactor(task, env.objective, c.spl, env.splunkInfo, env.schema)])
    else
      Outcome(Remove(c, task), [])
  }

  /** Iterations while the queue is non-empty, one per turn. */
  function Steps(c: Config, env: Env, turns: seq<Turn>): Outcome
    decreases |turns|
  {
    if turns == [] || c.tasks == [] then Outcome(c, [])
    else
      var first := Step(c, env, turns[0]);
      var rest := Steps(first.after, env, turns[1..]);
      Outcome(rest.after, first.events + rest.events)
  }

  /** One more iteration on a non-empty queue. */
  lemma StepsUnfold(c: Config, env: Env, turns: seq<Turn>)
    requires turns != [] && c.tasks != []
    ensures var first := Step(c, env, turns[0]);
      var rest := Steps(first.after, env, turns[1..]);
      Steps(c, env, turns) == Outcome(rest.after, first.events + rest.events)
  {
  }

  predicate IsHandlerCall(e: Event)
  {
    e.Write? || e.Filter? || e.Statistics? || e.Refactor? || e.Execute? || e.Analyse?
  }

  // ---------------------------------------------------------------------
  // Setup

  /** Setup runs at most once: a second setup changes nothing, the flag is
      set afterwards, and the stored queue is the enhanced list exactly when
      the flag was clear before. */
  lemma SetupOnce(c: Config, enhanced: seq<Task>, again: seq<Task>)
    ensures Setup(Setup(c, enhanced), again) == Setup(c, enhanced)
    ensures Setup(c, enhanced).state.initialSetupDone
    ensures !c.state.initialSetupDone ==>
      LoadedTasks(Setup(c, enhanced).taskFile) == enhanced
      && LoadedState(Setup(c, enhanced).stateFile) == Setup(c, enhanced).state
    ensures c.state.initialSetupDone ==> Setup(c, enhanced) == c
  {
  }

  /** Entering the loop right after start-up and setup leaves memory in
      agreement with the files and the locals with the record. */
  lemma {:induction false} EnterDurable(c: Config, enhanced: seq<Task>)
    ensures Durable(Enter(Setup(Start(c), enhanced)))
    ensures LocalsAgree(Enter(Setup(Start(c), enhanced)))
    ensures Enter(Setup(Start(c), enhanced)).state.initialSetupDone
  {
    var s := Start(c);
    assert LoadedState(s.stateFile) == s.state;
  }

  // ---------------------------------------------------------------------
  // One iteration

  /** Each guard keeps memory and files in agreement, keeps the local edited
      command equal to the stored one, leaves the queue alone (all but the
      last) and moves the record only forward. */
  lemma ShowOnceInvariants(c: Config)
    ensures var d := ShowOnce(c).after;
      && (Durable(c) ==> Durable(d)) && (LocalsAgree(c) ==> LocalsAgree(d))
      && (c.spl == c.state.splCommand ==> Progress(c.state, d.state))
      && d.tasks == c.tasks && d.taskFile == c.taskFile && d.spl == c.spl
  {
  }

  lemma PromptOnceInvariants(c: Config, turn: Turn)
    ensures var d := PromptOnce(c, turn).after;
      && (Durable(c) ==> Durable(d)) && (LocalsAgree(c) ==> LocalsAgree(d))
      && Progress(c.state, d.state)
      && d.tasks == c.tasks && d.taskFile == c.taskFile && d.spl == c.spl
  {
  }

  lemma MarkEditedInvariants(c: Config)
    ensures var d := MarkEdited(c);
      && (Durable(c) ==> Durable(d)) && (LocalsAgree(c) ==> LocalsAgree(d))
      && Progress(c.state, d.state)
      && d.tasks == c.tasks && d.taskFile == c.taskFile && d.spl == c.spl
    ensures MarkEdited(c).state == c.state.(splCommandUpdated :=
      c.state.splCommandUpdated || c.state.splCommand != c.state.updatedSplCommand)
  {
  }

  lemma RunEditedInvariants(c: Config, task: Task, env: Env, turn: Turn)
    requires task in c.tasks
    ensures var d := RunEdited(c, task, env, turn).after;
      && (Durable(c) ==> Durable(d)) && (LocalsAgree(c) ==> LocalsAgree(d))
      && d.state == c.state && d.stateFile == c.stateFile
      && d.spl == c.spl && d.updatedSpl == c.updatedSpl
  {
  }

  /** Every iteration keeps memory and files in agreement, keeps the local
      edited command equal to the stored one, and moves the record only
      forward. */
  lemma StepInvariants(c: Config, env: Env, turn: Turn)
    requires c.tasks != []
    ensures Durable(c) ==> Durable(Step(c, env, turn).after)
    ensures LocalsAgree(c) ==> LocalsAgree(Step(c, env, turn).after)
    ensures Progress(c.state, Step(c, env, turn).after.state)
  {
    if c.tasks[0].agent == ExecutorAgent {
      var entered := c.(spl := c.state.splCommand);
      var shown := ShowOnce(entered);
      var prompted := PromptOnce(shown.after, turn);
      var marked := MarkEdited(prompted.after);
      ShowOnceInvariants(entered);
      PromptOnceInvariants(shown.after, turn);
      MarkEditedInvariants(prompted.after);
      RunEditedInvariants(marked, c.tasks[0], env, turn);
    } else {
      NonExecutorStep(c, env, turn);
    }
  }

  /** A task with any tag other than the executor's is removed in one
      iteration: the rest keep their order and the file holds the new
      queue. A generation handler's reply becomes the local query;
      the filter, statistics and refactor handlers receive the previous
      local query; an unknown tag calls nothing and leaves the query alone. */
  lemma {:induction false} NonExecutorStep(c: Config, env: Env, turn: Turn)
    requires c.tasks != [] && c.tasks[0].agent != ExecutorAgent
    ensures Step(c, env, turn).after.tasks == c.tasks[1..]
    ensures Step(c, env, turn).after.taskFile == Some(c.tasks[1..])
    ensures Step(c, env, turn).after.state == c.state
    ensures Step(c, env, turn).after.stateFile == c.stateFile
    ensures var o := Step(c, env, turn); var t := c.tasks[0];
        && (t.agent == WriterAgent ==>
              o.after.spl == turn.reply && o.events == [Write(t, env.objective, env.schema, env.splunkInfo)])
        && (t.agent == FilterAgent ==>
              o.after.spl == turn.reply && o.events == [Filter(t, env.objective, c.spl)])
        && (t.agent == StatisticalAgent ==>
              o.after.spl == turn.reply && o.events == [Statistics(t, env.objective, c.spl)])
        && (t.agent == RefactorAgent ==>
              o.after.spl == turn.reply && o.events == [Refactor(t, env.objective, c.spl, env.splunkInfo, env.schema)])
        && (t.agent !in {WriterAgent, FilterAgent, StatisticalAgent, RefactorAgent} ==>
              o.after.spl == c.spl && o.events == [])
  {
    RemoveHead(c.tasks);
  }

  /** The record after one executor visit: the query has been shown and the
      edit asked for; the edited command is the human's text unless it was
      asked for before; `spl_command_updated` is set exactly when it was set
      before or the stored command differs from the edited one. */
  lemma {:induction false} ExecutorFlags(c: Config, env: Env, turn: Turn)
    requires c.tasks != [] && c.tasks[0].agent == ExecutorAgent
    ensures var o := Step(c, env, turn); var s := o.after.state;
      && s.displaySpl && s.promptedForInput
      && s.updatedSplCommand == (if c.state.promptedForInput then c.state.updatedSplCommand else turn.humanText)
      && s.splCommandUpdated == (c.state.splCommandUpdated || c.state.splCommand != s.updatedSplCommand)
      && o.after.spl == c.state.splCommand
  {
    var entered := c.(spl := c.state.splCommand);
    var shown := ShowOnce(entered);
    var prompted := PromptOnce(shown.after, turn);
    var marked := MarkEdited(prompted.after);
    assert shown.after.state.(displaySpl := c.state.displaySpl) == c.state;
    assert prompted.after.state.updatedSplCommand
        == (if c.state.promptedForInput then c.state.updatedSplCommand else turn.humanText);
    assert prompted.after.state.splCommand == c.state.splCommand;
    assert prompted.after.state.splCommandUpdated == c.state.splCommandUpdated;
  }

  /** The queue after one executor visit: when the edit flag is set, the
      iteration ends with one search on the stored edited command and one
      analysis of its rows with the local edited command, and the task
      leaves the queue; otherwise no handler is called and the queue and its
      file are left as they were. */
  lemma {:induction false} ExecutorRemoval(c: Config, env: Env, turn: Turn)
    requires c.tasks != [] && c.tasks[0].agent == ExecutorAgent
    ensures var o := Step(c, env, turn); var s := o.after.state;
      && (s.splCommandUpdated ==>
            o.after.tasks == c.tasks[1..] && o.after.taskFile == Some(c.tasks[1..])
            && |o.events| >= 2
            && o.events[|o.events| - 2..]
               == [Execute(c.tasks[0], s.updatedSplCommand), Analyse(env.objective, o.after.updatedSpl, turn.rows)])
      && (!s.splCommandUpdated ==>
            o.after.tasks == c.tasks && o.after.taskFile == c.taskFile
            && forall e :: e in o.events ==> !IsHandlerCall(e))
  {
    var entered := c.(spl := c.state.splCommand);
    var shown := ShowOnce(entered);
    var prompted := PromptOnce(shown.after, turn);
    var marked := MarkEdited(prompted.after);
    var ran := RunEdited(marked, c.tasks[0], env, turn);
    var before := shown.events + prompted.events;
    assert Step(c, env, turn) == Outcome(ran.after, before + ran.events);
    assert ran.after.state == marked.state;
    assert marked.tasks == c.tasks && marked.taskFile == c.taskFile;
    if marked.state.splCommandUpdated {
      var tail := [Execute(c.tasks[0], marked.state.updatedSplCommand),
                   Analyse(env.objective, marked.updatedSpl, turn.rows)];
      assert ran.events == tail && ran.after.updatedSpl == marked.updatedSpl;
      assert (before + tail)[|before + tail| - 2..] == tail;
      RemoveHead(c.tasks);
    } else {
      assert ran.events == [];
      assert forall e :: e in before ==> !IsHandlerCall(e);
    }
  }

  /** Once setup is done and the query has been shown and the edit asked
      for, a restart that reloads the files (setup then does nothing) and
      visits the executor task neither shows the query again nor prompts
      again, and keeps the stored edit. */
  lemma {:induction false} CheckpointResumes(c: Config, enhanced: seq<Task>, env: Env, turn: Turn)
    requires Durable(c) && c.tasks != [] && c.tasks[0].agent == ExecutorAgent
    requires c.state.initialSetupDone && c.state.displaySpl && c.state.promptedForInput
    ensures var o := Step(Enter(Setup(Start(c), enhanced)), env, turn);
      forall e :: e in o.events ==> !e.ShowQuery? && !e.PromptHuman?
    ensures Step(Enter(Setup(Start(c), enhanced)), env, turn).after.state.updatedSplCommand
         == c.state.updatedSplCommand
  {
    var r := Enter(Setup(Start(c), enhanced));
    assert Start(c).state == c.state;
    assert r.state == c.state && r.tasks == c.tasks;
  }

  /** An edited query runs in the same iteration that asks for it: the
      search receives the human's text and the task leaves the queue. */
  lemma {:induction false} EditedQueryRuns(c: Config, env: Env, turn: Turn)
    requires c.tasks != [] && c.tasks[0].agent == ExecutorAgent
    requires !c.state.promptedForInput && turn.humanText != c.state.splCommand
    ensures var o := Step(c, env, turn);
      && o.after.tasks == c.tasks[1..]
      && o.after.state.splCommandUpdated
      && Execute(c.tasks[0], turn.humanText) in o.events
  {
    ExecutorFlags(c, env, turn);
    ExecutorRemoval(c, env, turn);
  }

  /** Once all three checkpoint flags are set, a later executor task runs
      at once with the old edited command: nothing is shown or asked. */
  lemma {:induction false} LaterExecutorSkipsCheckpoint(c: Config, env: Env, turn: Turn)
    requires c.tasks != [] && c.tasks[0].agent == ExecutorAgent
    requires c.state.displaySpl && c.state.promptedForInput && c.state.splCommandUpdated
    ensures var o := Step(c, env, turn);
      && o.after.tasks == c.tasks[1..]
      && o.events == [Execute(c.tasks[0], c.state.updatedSplCommand), Analyse(env.objective, c.updatedSpl, turn.rows)]
  {
    RemoveHead(c.tasks);
  }

  // ---------------------------------------------------------------------
  // Many iterations

  /** The invariants of one iteration hold over any run. */
  lemma {:induction false} StepsInvariants(c: Config, env: Env, turns: seq<Turn>)
    ensures Durable(c) ==> Durable(Steps(c, env, turns).after)
    ensures LocalsAgree(c) ==> LocalsAgree(Steps(c, env, turns).after)
    ensures Progress(c.state, Steps(c, env, turns).after.state)
    decreases |turns|
  {
    if turns != [] && c.tasks != [] {
      StepInvariants(c, env, turns[0]);
      StepsInvariants(Step(c, env, turns[0]).after, env, turns[1..]);
    }
  }

  /** The loop never reorders, duplicates or adds tasks: the queue after
      any run is a suffix of the queue before it. */
  lemma {:induction false} StepsKeepSuffix(c: Config, env: Env, turns: seq<Turn>)
    ensures var q := Steps(c, env, turns).after.tasks;
      |q| <= |c.tasks| && q == c.tasks[|c.tasks| - |q|..]
    decreases |turns|
  {
    if turns != [] && c.tasks != [] {
      var next := Step(c, env, turns[0]).after;
      StepKeepsOrRemovesHead(c, env, turns[0]);
      StepsKeepSuffix(next, env, turns[1..]);
    }
  }

  /** One iteration either leaves the queue as it is or drops its head. */
  lemma StepKeepsOrRemovesHead(c: Config, env: Env, turn: Turn)
    requires c.tasks != []
    ensures Step(c, env, turn).after.tasks in {c.tasks, c.tasks[1..]}
  {
    if c.tasks[0].agent == ExecutorAgent {
      ExecutorRemoval(c, env, turn);
    } else {
      NonExecutorStep(c, env, turn);
    }
  }

  /** One iteration shows and prefills only the stored `spl_command`. */
  lemma StepPromptsShowStoredCommand(c: Config, env: Env, turn: Turn)
    requires c.tasks != []
    ensures forall e :: e in Step(c, env, turn).events ==>
      (e.ShowQuery? ==> e.query == c.state.splCommand)
      && (e.PromptHuman? ==> e.prefill == c.state.splCommand)
  {
    if c.tasks[0].agent == ExecutorAgent {
      var entered := c.(spl := c.state.splCommand);
      var shown := ShowOnce(entered);
      var prompted := PromptOnce(shown.after, turn);
      var marked := MarkEdited(prompted.after);
      var ran := RunEdited(marked, c.tasks[0], env, turn);
      assert shown.after.spl == c.state.splCommand;
      assert forall e :: e in ran.events ==> !e.ShowQuery? && !e.PromptHuman?;
    } else {
      NonExecutorStep(c, env, turn);
    }
  }

  /** The query shown to the human and the text the edit box starts with are
      always the stored `spl_command` from before the run: handler replies
      only ever reach the local variable. */
  lemma {:induction false} PromptsShowStoredCommand(c: Config, env: Env, turns: seq<Turn>)
    ensures forall e :: e in Steps(c, env, turns).events ==>
      (e.ShowQuery? ==> e.query == c.state.splCommand)
      && (e.PromptHuman? ==> e.prefill == c.state.splCommand)
    decreases |turns|
  {
    if turns != [] && c.tasks != [] {
      var first := Step(c, env, turns[0]);
      StepPromptsShowStoredCommand(c, env, turns[0]);
      StepInvariants(c, env, turns[0]);
      PromptsShowStoredCommand(first.after, env, turns[1..]);
      StepsUnfold(c, env, turns);
    }
  }

  /** The queue drains when no executor task can stall it (there is none,
      or the edit flag is already set): one task leaves per iteration. */
  lemma {:induction false} QueueDrains(c: Config, env: Env, turns: seq<Turn>)
    requires |turns| >= |c.tasks|
    requires c.state.splCommandUpdated || forall t :: t in c.tasks ==> t.agent != ExecutorAgent
    ensures Steps(c, env, turns).after.tasks == []
    decreases |turns|
  {
    if c.tasks != [] {
      var next := Step(c, env, turns[0]).after;
      if c.tasks[0].agent == ExecutorAgent {
        ExecutorFlags(c, env, turns[0]);
        ExecutorRemoval(c, env, turns[0]);
      } else {
        NonExecutorStep(c, env, turns[0]);
        forall t | t in next.tasks ensures t in c.tasks { }
      }
      StepInvariants(c, env, turns[0]);
      QueueDrains(next, env, turns[1..]);
    }
  }

  /** The liveness gap: an executor task whose edit equals the stored
      command is never removed and never searched, however many iterations
      follow. */
  lemma {:induction false} UnchangedQueryStalls(c: Config, env: Env, turns: seq<Turn>)
    requires c.tasks != [] && c.tasks[0].agent == ExecutorAgent
    requires c.state.promptedForInput && !c.state.splCommandUpdated
    requires c.state.splCommand == c.state.updatedSplCommand
    ensures Steps(c, env, turns).after.tasks == c.tasks
    ensures !Steps(c, env, turns).after.state.splCommandUpdated
    ensures forall e :: e in Steps(c, env, turns).events ==> !IsHandlerCall(e)
    ensures forall e :: e in Steps(c, env, turns).events ==>
      !e.PromptHuman? && (c.state.displaySpl ==> !e.ShowQuery?)
    decreases |turns|
  {
    StepsNoRepeat(c, env, turns);
    if turns != [] {
      ExecutorFlags(c, env, turns[0]);
      ExecutorRemoval(c, env, turns[0]);
      UnchangedQueryStalls(Step(c, env, turns[0]).after, env, turns[1..]);
    }
  }

  /** The human hands back the query unchanged: the task stays at the head
      after that iteration and after every later one. */
  lemma {:induction false} EchoedQueryStallsForever(c: Config, env: Env, turn: Turn, turns: seq<Turn>)
    requires c.tasks != [] && c.tasks[0].agent == ExecutorAgent
    requires !c.state.promptedForInput && !c.state.splCommandUpdated
    requires turn.humanText == c.state.splCommand
    ensures Steps(c, env, [turn] + turns).after.tasks == c.tasks
    ensures !Steps(c, env, [turn] + turns).after.state.splCommandUpdated
  {
    var first := Step(c, env, turn);
    ExecutorFlags(c, env, turn);
    ExecutorRemoval(c, env, turn);
    UnchangedQueryStalls(first.after, env, turns);
    assert ([turn] + turns)[1..] == turns;
  }

  /** One iteration shows the query only while `display_spl` is false and
      asks for the edit only while `prompted_for_input` is false. */
  lemma StepNoRepeat(c: Config, env: Env, turn: Turn)
    requires c.tasks != []
    ensures c.state.displaySpl ==> forall e :: e in Step(c, env, turn).events ==> !e.ShowQuery?
    ensures c.state.promptedForInput ==> forall e :: e in Step(c, env, turn).events ==> !e.PromptHuman?
  {
    if c.tasks[0].agent == ExecutorAgent {
      var entered := c.(spl := c.state.splCommand);
      var shown := ShowOnce(entered);
      var prompted := PromptOnce(shown.after, turn);
      var marked := MarkEdited(prompted.after);
      var ran := RunEdited(marked, c.tasks[0], env, turn);
      assert shown.after.state.promptedForInput == c.state.promptedForInput;
      assert c.state.displaySpl ==> shown.events == [];
      assert forall e :: e in prompted.events ==> e.PromptHuman?;
      assert forall e :: e in ran.events ==> !e.ShowQuery? && !e.PromptHuman?;
    } else {
      NonExecutorStep(c, env, turn);
    }
  }

  /** The checkpoint fires at most once per run: once the query has been
      shown, no later iteration shows it again, and once the edit has been
      asked for, no later iteration asks again. */
  lemma {:induction false} StepsNoRepeat(c: Config, env: Env, turns: seq<Turn>)
    ensures c.state.displaySpl ==> forall e :: e in Steps(c, env, turns).events ==> !e.ShowQuery?
    ensures c.state.promptedForInput ==> forall e :: e in Steps(c, env, turns).events ==> !e.PromptHuman?
    decreases |turns|
  {
    if turns != [] && c.tasks != [] {
      var first := Step(c, env, turns[0]);
      StepNoRepeat(c, env, turns[0]);
      StepInvariants(c, env, turns[0]);
      StepsNoRepeat(first.after, env, turns[1..]);
      StepsUnfold(c, env, turns);
    }
  }
}
