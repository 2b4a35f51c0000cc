# SplunkGPT task dispatcher, modelled in Dafny

SplunkGPT builds a Splunk SPL detection query from a user's objective. It
chains language-model agents and stops once for a human to edit the query.
This project models the part of `Application/app.py` that has real control
flow:

- the two persisted records, `state.json` (the session flags and query
  strings) and `task_list.json` (the ordered task queue), with their
  load/save helpers and `update_task_list`;
- the one-time bootstrap in `main`, gated by `initial_setup_done`;
- the event-code parser and the per-code field gathering in
  `gather_schema_info`;
- the `while task_list_json` loop. It routes the head task by its `agent`
  tag to the writer, filter, statistical-analysis or refactor handler, or
  to the human checkpoint of the `splunk_executor_agent` branch. That
  checkpoint is a state machine over three durable flags: `display_spl`,
  `prompted_for_input` and `spl_command_updated`.

Layout:

- `list_ops.dfy` (`ListOps`): Python's `list.remove`.
- `strings.dfy` (`Strings`): Python's `s[1:-1]`, `str.split(sep)` and `sep.join`.
- `model.dfy` (`Model`): the task and session records, the routing tags, the
  files as values (`None` means no file), and the `Event` trace of calls
  to collaborators.
- `schema.dfy` (`SchemaInfo`): the event-code parse and `gather_schema_info`.
- `dispatch.dfy` (`Dispatch`): one loop iteration (`Step`) and a run of
  iterations (`Steps`) as functions on a `Config` value, plus the lemmas
  about them.
- `application.dfy` (`Application`): class `App`. Its fields are the two
  files, `current_state`, `task_list_json` and the locals `spl_command`
  and `updated_spl_command`. Its methods mirror the Python step by step,
  and each is proved to produce exactly what the `Dispatch` functions
  describe.

Each call to a collaborator becomes a parameter: the research text, the
event-code completion, the search function, the enhanced task list, and
one `Turn` per loop iteration (the handler's reply, the human's text and the
search rows). Each modelled call is also recorded as an `Event` with the
arguments it receives. The three chains inside `enhance_tasks` make one
`Enhance` event, and the search inside `gather_splunk_info` is not recorded. That is how the contracts say which handler runs, with what input,
and that nothing runs at all.

Details of the code that the model keeps as they are:

- `spl_command_updated` is set once and never reset, so it does not say
  whether the two commands currently differ.
- A handler's reply only updates the local `spl_command`. The executor
  shows, pre-fills and compares `current_state['spl_command']`, which the
  loop never changes.
- The bootstrap makes one research call and one event-code call, then runs
  the three enhancement chains inside `enhance_tasks`.

## Model

| member | source | states |
|---|---|---|
| `Model.LoadedState` | Application/app.py:25-40 | With no state file the record is the default: every flag false and both command strings empty. Otherwise it is the saved record. |
| `Model.LoadedTasks` | Application/app.py:58-63 | With no task file the queue is empty. Otherwise it is the saved list. |
| `Application.App.LoadState` | Application/app.py:25-29 | Returns the saved record, or the default one when there is no file. |
| `Application.App.SaveState` | Application/app.py:42-45 | Overwrites the state file with the given record. |
| `Application.App.LoadTaskList` | Application/app.py:58-63 | Returns the saved queue, or `[]` when there is no file. |
| `Application.App.SaveTaskList` | Application/app.py:65-68 | Overwrites the task file with the given list. |
| `Application.App.UpdateTaskList` | Application/app.py:50-56 | If an equal task is present, removes the first one, the length drops by one, and the file equals the in-memory list. If none is present (Python raises ValueError), nothing changes and nothing is written. |
| `ListOps.FirstIndex` | Application/app.py:53 | The index found holds the task, and no earlier element equals it. |
| `ListOps.RemoveFirst` | Application/app.py:53 | `list.remove` shortens the list by one and removes exactly one copy of the value (multiset difference). |
| `ListOps.RemoveFirstSplice` | Application/app.py:53 | The result is the list with the element at the first matching index cut out, so all other elements keep their relative order. |
| `ListOps.RemoveHead` | Application/app.py:143-187 | Removing the task taken from position 0 removes exactly the head. |
| `Strings.StripEnds` | Application/app.py:96 | `s[1:-1]` keeps everything between the first and last character (`s` is rebuilt from them). Strings shorter than two characters give `""`. |
| `Strings.Split` | Application/app.py:96 | `str.split` always returns at least one piece. |
| `Strings.SplitJoin` | Application/app.py:96 | Joining the pieces with the separator gives back the input. |
| `Strings.SplitPiecesFree` | Application/app.py:96 | No piece contains the separator. |
| `Strings.SplitAtFirstSeparator` | Application/app.py:96 | A separator that follows a piece without the separator's first character is the first cut. |
| `Strings.SplitWithoutSeparator` | Application/app.py:96 | A string without the separator's first character splits into itself. |
| `Strings.SplitOfJoin` | Application/app.py:96 | Splitting a joined list gives the list back when no element holds the separator's first character. |
| `SchemaInfo.ParseEventCodes` | Application/app.py:96 | The parse never yields an empty list. |
| `SchemaInfo.ParsePieces` | Application/app.py:96 | The codes are the bracketed text cut at every `", "`: joined back they give the text between the brackets, and none of them holds a separator. |
| `SchemaInfo.ParseListFormat` | Application/app.py:96 | A completion `"[" + ", ".join(codes) + "]"` parses back to `codes` when no code holds a comma. |
| `SchemaInfo.ParseExample` | Application/prompts.py:589-590 | The prompt's example `"[4769, 4688]"` parses to `["4769", "4688"]`. |
| `SchemaInfo.ParseEmptyList` | Application/app.py:96 | `"[]"` parses to `[""]`, so an empty list still produces one (empty) code. |
| `SchemaInfo.AllFieldsMembers` | Application/app.py:101 | A field name is collected exactly when some dictionary row of the search result holds it. Rows that are not dictionaries contribute nothing. |
| `SchemaInfo.SchemaOfKeys` | Application/app.py:97-102 | The schema has exactly one key per parsed code, and each key maps to the fields its own search reported. |
| `SchemaInfo.FieldSearchesAt` | Application/app.py:97-100 | One search per parsed code, in order and duplicates included, each with that code's `fieldsummary` query. |
| `SchemaInfo.GatherSchemaInfo` | Application/app.py:93-103 | The loop builds exactly `SchemaOf(codes)` and issues the event-code call followed by exactly one search per code. |
| `Model.Objective` | Application/app.py:115 | Definition (no contract): the objective sentence wraps the user's input in the fixed detection request. It is used by `Bootstrap` and `Run`. |
| `SchemaInfo.FieldQuery` | Application/app.py:99 | Definition (no contract): the `fieldsummary` search for one event code. `FieldSearchesAt` states its use. |
| `SchemaInfo.AllFields` | Application/app.py:101 | Definition (no contract): the field values of the dictionary rows, in order. `AllFieldsMembers` characterises it. |
| `Application.SetupCalls` | Application/app.py:117-128 | Definition (no contract): the bootstrap's calls in order, which are research, event codes, one search per code, then enhancement. `Bootstrap` proves it issues them. |
| `Dispatch.Start` | Application/app.py:112 | Definition (no contract): `current_state = load_state()`. |
| `Dispatch.Enter` | Application/app.py:137-140 | Definition (no contract): the locals take the stored commands, and the queue is reloaded. `EnterDurable` states its effect. |
| `Dispatch.Remove` | Application/app.py:179-180 | Definition (no contract): `update_task_list` followed by `load_task_list`. `NonExecutorStep` and `ExecutorRemoval` state its effect. |
| `Model.DefaultState` | Application/app.py:31-40 | Definition (no contract): the record `load_state` returns when there is no file. `LoadedState` states it field by field. |
| `Strings.Join` | Application/app.py:96 | Definition (no contract): `sep.join(parts)`, the inverse of the split. `SplitJoin` and `SplitOfJoin` relate the two. |
| `SchemaInfo.SchemaOf` | Application/app.py:94-102 | Definition (no contract): the schema the gathering loop builds. `SchemaOfKeys` states its keys and values. |
| `SchemaInfo.FieldSearches` | Application/app.py:97-100 | Definition (no contract): the searches issued for the codes, in order. `FieldSearchesAt` states them. |
| `Dispatch.Setup` | Application/app.py:117-132 | Definition (no contract): the bootstrap's effect on the files and the record. `SetupOnce` states its properties. |
| `Dispatch.ShowOnce` | Application/app.py:149-155 | Definition (no contract): the display guard. `ShowOnceInvariants` states what it keeps. |
| `Dispatch.PromptOnce` | Application/app.py:159-164 | Definition (no contract): the prompt guard. `PromptOnceInvariants` states what it keeps. |
| `Dispatch.MarkEdited` | Application/app.py:167-169 | Definition (no contract): the diff guard. `MarkEditedInvariants` gives its exact new record. |
| `Dispatch.RunEdited` | Application/app.py:171-180 | Definition (no contract): the execute guard. `RunEditedInvariants` and `ExecutorRemoval` state its effect. |
| `Dispatch.ExecutorStep` | Application/app.py:146-180 | Definition (no contract): the four guards in order, after the local query takes the stored one. `ExecutorFlags` and `ExecutorRemoval` state its effect. |
| `Dispatch.Step` | Application/app.py:142-207 | Definition (no contract): one iteration, routed by the head task's `agent` tag. `StepInvariants`, `NonExecutorStep`, `ExecutorFlags`, `ExecutorRemoval` and `StepNoRepeat` state its effect. |
| `Dispatch.Steps` | Application/app.py:142-207 | Definition (no contract): iterations while the queue is non-empty, one per turn. `StepsInvariants`, `StepsKeepSuffix`, `StepsNoRepeat`, `QueueDrains` and `UnchangedQueryStalls` state its effect. |
| `Dispatch.SetupOnce` | Application/app.py:117-132 | Setup is idempotent and leaves `initial_setup_done` true. When it runs, the task file holds the enhanced list and the state file holds the record. When the flag was already true, neither file nor the record changes. |
| `Dispatch.EnterDurable` | Application/app.py:112-140 | At the loop's entry the in-memory record and queue equal what a reload of the files gives, the local edited command equals the stored one, and `initial_setup_done` is true. |
| `Dispatch.ShowOnceInvariants` | Application/app.py:149-155 | The display guard keeps memory and files in agreement, moves flags only forward, and leaves the queue alone. |
| `Dispatch.PromptOnceInvariants` | Application/app.py:159-164 | The prompt guard persists the edit, keeps the local edited command equal to the stored one, and leaves the queue alone. |
| `Dispatch.MarkEditedInvariants` | Application/app.py:167-169 | The diff guard changes only `spl_command_updated`. It is set exactly when it already was or the stored command differs from the edited one. The guard persists the record and leaves the queue alone. |
| `Dispatch.RunEditedInvariants` | Application/app.py:171-180 | The execute guard changes only the queue and its file, and keeps them equal. |
| `Dispatch.StepInvariants` | Application/app.py:142-207 | Each iteration keeps memory equal to the files, keeps the local edited command equal to the stored one, and changes the record only by setting checkpoint flags and, until the human has been asked, the edited command. `updated_spl_command` is fixed once `prompted_for_input` is true, and `state['spl_command']` never changes. |
| `Dispatch.NonExecutorStep` | Application/app.py:183-207 | For every tag other than the executor's, the head task is removed, the rest keep their order, and the file holds the new queue. Writer, filter, statistics and refactor each make their one call, and the local query becomes the reply. Filter, statistics and refactor receive the previous local query. An unknown tag calls nothing. |
| `Dispatch.ExecutorFlags` | Application/app.py:146-169 | After an executor visit the query has been shown and the edit asked for. The edit is the human's text unless it was asked for earlier. `spl_command_updated` is true exactly when it already was or the stored command differs from the edit. |
| `Dispatch.ExecutorRemoval` | Application/app.py:167-180 | When `spl_command_updated` is true, the task leaves the queue. The iteration then ends with exactly two calls: one search on the stored `updated_spl_command`, then one analysis of its rows, given the objective and the local `updated_spl_command`. When the flag is false, no handler is called and the queue and its file are unchanged. |
| `Dispatch.CheckpointResumes` | Application/app.py:111-164 | Once setup is done and display and prompt have fired and been persisted, a restart reloads both files and runs setup, which then does nothing. Its executor visit neither shows the query again nor prompts again, and keeps the stored edit. |
| `Dispatch.EditedQueryRuns` | Application/app.py:159-180 | When the human changes the query, the same iteration runs the search with the human's text and removes the task. |
| `Dispatch.LaterExecutorSkipsCheckpoint` | Application/app.py:146-180 | The flags are global: once all three are set, a later executor task runs at once with the old edited command, with nothing shown or asked. |
| `Dispatch.StepPromptsShowStoredCommand` | Application/app.py:147-160 | Within one iteration, any query shown and any edit-box pre-fill is the stored `spl_command`. |
| `Dispatch.StepsInvariants` | Application/app.py:142-207 | Over any number of iterations, memory keeps agreeing with the files, the flags only go false to true, `updated_spl_command` is fixed from the first prompt on, and `state['spl_command']` is never changed. |
| `Dispatch.StepKeepsOrRemovesHead` | Application/app.py:142-207 | One iteration either leaves the queue as it is or drops exactly its head task. |
| `Dispatch.StepsKeepSuffix` | Application/app.py:142-207 | After any run the queue is a suffix of the original one. Tasks are never reordered, duplicated or added. |
| `Dispatch.PromptsShowStoredCommand` | Application/app.py:147-160 | Over a whole run, the query shown and the edit-box pre-fill are always the stored command from before the run. Handler replies never reach the human. |
| `Dispatch.StepNoRepeat` | Application/app.py:150-164 | One iteration shows the query only while `display_spl` is false and asks for the edit only while `prompted_for_input` is false. |
| `Dispatch.StepsNoRepeat` | Application/app.py:142-207 | Over a whole run, once the query has been shown it is never shown again, and once the edit has been asked for it is never asked for again. |
| `Dispatch.QueueDrains` | Application/app.py:142-207 | With no executor task, or with `spl_command_updated` already set, as many iterations as tasks empty the queue. |
| `Dispatch.UnchangedQueryStalls` | Application/app.py:150-180 | When the edit equals the stored command, the executor task is never removed or searched, however many iterations follow. The stall is silent: nothing asks the human again, and nothing is shown again once the query has been shown. |
| `Dispatch.EchoedQueryStallsForever` | Application/app.py:159-180 | If the human hands back the stored query unchanged, the task stays at the head and `spl_command_updated` stays false, then and for every later iteration. |
| `Application.App.Bootstrap` | Application/app.py:117-132 | With `initial_setup_done` false: the research, event-code, per-code search and enhancement calls are made in order, the task file holds the enhanced list, and the flag is set and saved. With the flag true: no call is made and nothing is written. |
| `Application.App.Step` | Application/app.py:142-207 | One iteration produces exactly `Dispatch.Step` of the previous state. |
| `Application.App.Checkpoint` | Application/app.py:146-180 | The executor branch produces exactly `Dispatch.ExecutorStep`. |
| `Application.App.ShowGuard` | Application/app.py:149-155 | Display guard, equal to `Dispatch.ShowOnce`. |
| `Application.App.PromptGuard` | Application/app.py:157-164 | Prompt guard, equal to `Dispatch.PromptOnce`. |
| `Application.App.MarkGuard` | Application/app.py:167-169 | Diff guard, equal to `Dispatch.MarkEdited`. |
| `Application.App.RunGuard` | Application/app.py:171-180 | Execute guard, equal to `Dispatch.RunEdited`. |
| `Application.App.Loop` | Application/app.py:134-207 | The loop's entry and iterations produce exactly `Dispatch.Steps` from the entry state. |
| `Application.App.Run` | Application/app.py:111-207 | `main`: with empty input, only the record is loaded. Otherwise it bootstraps and runs the loop exactly as `Setup` and `Steps` describe. Afterwards memory equals the files, the setup flag is set, and the stored `spl_command` is the one loaded at start. |

## Left out

- Termination of `while task_list_json`. The loop is driven by a finite sequence of turns, one per iteration. With the executor flag unset and an unchanged query, the real loop never ends (see `Dispatch.UnchangedQueryStalls`).
- `perform_research`, `gather_splunk_info` and `enhance_tasks` (app.py:75-109) only wrap calls into the `helpers` module (agents, chains, `run_splunk_search`), which is not part of this model. They, `event_id_chain.run` and every `handle_*` handler (also from `helpers`) are not modelled: their results are parameters and their calls are `Event`s. `gather_splunk_info` discards its search result and returns the characters of a fixed string, so `splunk_info` is a plain parameter and its search is not recorded.
- Streamlit output (`st.markdown`, `st.write`) is not modelled. The edit box `st.text_input` is the turn's `humanText`. The 30-second `time.sleep` is timing only.
- File and JSON I/O: each file is an `Option` value, and loading returns what was last saved. Serialisation is not modelled. Neither is a state file that lacks a key, which would raise KeyError in Python.
- `schema` and `splunk_info` are bound only in the setup branch. When setup was done in an earlier run, the Python code would fail with NameError at the first writer or refactor task. The model takes `schema` from a parameter (`priorSchema`) in that case, and `splunk_info` is the `splunkInfo` parameter in both branches.
- Tasks are records with `id`, `description`, `agent` and an optional isolated context. Other keys a task dictionary might carry are not modelled. Neither is a task without an `agent` key, which would raise KeyError.
- `user_has_responded` and `spl_processed` are carried in the record, and nothing is proved about them beyond their never changing.
- The `user_input` widget is not modelled: its text is `Run`'s `userInput`, and empty text means nothing happens.
- Collaborator failures are not modelled: every call to the research agent, the event-code chain, `run_splunk_search`, the enhancement chains (including `json.loads(...)["tasks"]` at app.py:109) and the `handle_*` handlers is assumed to return. In Python, nothing in `main` catches such an exception. A raise during bootstrap happens before `save_task_list` and `save_state` (app.py:129-132), so both files stay as they were and the next run bootstraps again. A raise inside an iteration happens before `update_task_list`, so the head task stays queued, together with any guard flags already saved, and runs again after a restart. The model represents only a stop between iterations, as a shorter `turns` sequence. `App.Bootstrap` always writes both files, and every `Turn` completes its iteration.
- SchemaInfo.SchemaOf: the search collaborator is a function, so it is deterministic. A code that appears twice in the completion gets the same rows both times. In Python, the second search's rows win at app.py:102, and they may differ from the first.
