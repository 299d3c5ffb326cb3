# Conditional-routing chat agents, modelled in Dafny

This project models the core of a mental-health chatbot. A conversation runs through a graph of stages declared with LangGraph's `StateGraph`. Each stage's handler answers with a message delta. After a stage, an edge function turns a classification into a label. The stage's path map then sends that label to the next stage or to `END`.

The model covers:

- **`StateGraph`** (`state_graph.dfy`) — the generic graph and its engine.
  - Graphs are declared through a `Builder` class (`set_entry_point`, `add_node`, `add_edge`, `add_conditional_edges`).
  - `WellFormed` is the structural check done at compile time.
  - `Valid` adds that every label an edge function can return has a path.
  - `Run` is the recursive definition of one invocation. `RunLoop` is the step loop, proved equal to it.
  - A step that raises, or whose label has no path, leaves the state as it was before that step.
  - `Checkpointer` keeps each thread's state, keyed by `thread_id`.
  - General run lemmas: bounds, one message per stage, valid graphs always route, nothing raised means nothing fails, runs on a chain of stages.
- **`DemoAgent`** (`demo_agent.dfy`) — the main agent in `MentalHealthChatbot/src/agents/demo_agent.py`.
  - Stages, in order: nurse → counsellor → psychologist → psychiatrist.
  - Edge functions: an identity check against the `cases` table, an emotion check (fails to "negative") and a danger check (fails to "safe").
  - Handlers turn model errors into apologies.
  - `patient_info` is one module-level record, shared by every conversation and overwritten by the nurse.
  - `MainAgent` is a class that holds `patient_info`, the database and the per-thread histories. Its `Invoke` runs the steps in place and is proved to compute exactly `MainRun`.
- **`EarlyDemoAgent`** (`early_demo_agent.dfy`) — the earlier three-stage agent in `src/agents/demo_agent.py`, using the schemas in `src/agents/check.py`.
  - It has no exception handling.
  - The identity check trusts the classifier's `is_completed`.
  - The emotion label is passed through as any string.
- **`Counsellor`** (`counsellor.dfy`) — the research graph in `src/agents/counsellor.py`.
  - An input safety gate.
  - A tool-using counsellor with an output safety gate and the last-step rule.
  - A tools node that loops back to the counsellor.
  - Placeholder stages.
- **`Db`** (`db.dfy`) — `MentalHealthChatbot/src/utils/db.py` as in-memory tables.
  - `cases` is append-only; the newest row wins.
  - `users` is keyed by e-mail and stores a password hash.
  - `conversations` is keyed by id and carries created/updated stamps.
- **Helpers:**
  - `Text` — Python's `strip`, `join` and `str(int)`.
  - `Messages` — LangChain messages.
  - `Collaborators` — run configuration and collaborator results.
  - `Wrappers` — `Option`/`Result`.

Language models, structured-output classifiers, LlamaGuard, tool outputs, e-mail and the insert's success are inputs: each agent's `Oracle` datatype. They are given per stage, or per step number where a stage can run many times.

Where the code and the design intent differ, the model follows the code:

- **Errors that end a run.** A model error does not always become an apology. The model-registry lookup `models[...]` sits outside the `try` in `generic_agent`, `check_emotion`, `check_danger` and the nurse's intake path, so an unknown model name raises and ends the run at that stage. The earlier agent and the counsellor graph have no fallbacks at all.
- **Identity check.** The main agent's identity check consults only the database, not a classifier. So without a `user_id` it answers "incompleted", even right after the nurse accepted a valid profile.
- **Counsellor graph routing.** The counsellor graph compiles, but its routing is not covered by its edge functions:
  - `edge_counsellor` returns "ethical_check", which has no path from `counsellor`;
  - `edge_counsellor` is reused for `emotion_analysis`, whose paths are "info" and "warn";
  - `edge_nurse` and `edge_diagnose` return `None`.
  `CounsellorGraphNotValid` proves the graph is not `Valid`. `AnswerWithoutToolsHasNoPath` shows that a run stops with no route at the counsellor's first answer without tool calls.
- **Counsellor entry stage.** The entry stage `nurse` of the counsellor graph returns a bare message instead of a state update. The model takes LangGraph to refuse that update (`InvalidUpdateError`), so every invocation of that graph fails at its entry (`CounsellorRunFailsAtEntry`). The placeholder stages `emotion_analysis`, `ethical_check`, `psychologist` and `psychiatrist` do the same. `rag`, `edge_nurse` and `edge_diagnose` take no parameters, so calling them with the state raises `TypeError`.
- **Step budget.** When the step budget runs out, the engine simply stops (`OutOfSteps`); it does not add a message. The only "need more steps" message is the one the counsellor itself emits on a step flagged as the last.

## Model

| member | source | states |
|---|---|---|
| Text.LStrip | MentalHealthChatbot/src/agents/demo_agent.py:26-28 | the result is a suffix of the input that does not start with whitespace, and every character dropped is whitespace |
| Text.RStrip | MentalHealthChatbot/src/agents/demo_agent.py:26-28 | the result is a prefix of the input that does not end with whitespace, and every character dropped is whitespace |
| Text.StripEmptyIff | MentalHealthChatbot/src/agents/demo_agent.py:26-28 | `s.strip() == ""` exactly when `s` is all whitespace (empty included) |
| Text.JoinSnoc | src/agents/counsellor.py:67 | joining one more part appends the separator and that part |
| Text.NatToStringRoundTrip | MentalHealthChatbot/src/agents/demo_agent.py:139 | the decimal text written for the age is non-empty, all digits, and reads back as the same number |
| Db.LatestCase | MentalHealthChatbot/src/utils/db.py:41-60 | `None` exactly when the user id is missing or no row has it; otherwise the profile of the newest row for that user (no later row has that id) |
| Db.LatestAfterInsert | MentalHealthChatbot/src/utils/db.py:62-75 | after appending a case, that user's lookup gives the new profile and every other user's lookup is unchanged |
| Db.Authenticate | MentalHealthChatbot/src/utils/db.py:91-98 | a row is returned exactly when the e-mail is a key whose stored hash equals the password's hash, and it is that e-mail and stored hash |
| Db.OwnedBy | MentalHealthChatbot/src/utils/db.py:125-127 | the summaries are exactly those of the conversations whose `user_email` matches |
| Db.InsertByRecency | MentalHealthChatbot/src/utils/db.py:128 | inserting a summary adds exactly that summary (as a multiset) |
| Db.InsertKeepsRecencyOrder | MentalHealthChatbot/src/utils/db.py:128 | inserting into a most-recent-first sequence keeps it most recent first |
| Db.SortByRecency | MentalHealthChatbot/src/utils/db.py:128 | the result is ordered by `last_updated` descending and is a permutation of the input |
| Db.UserConversations | MentalHealthChatbot/src/utils/db.py:122-131 | most recently updated first, a permutation of that user's conversations, and every row belongs to that user |
| Db.Touch | MentalHealthChatbot/src/utils/db.py:137-139 | same length; every row keeps its id, user e-mail, title and creation time; `last_updated` becomes `now` exactly on the rows with that id and is kept on the others |
| Db.Database.constructor | MentalHealthChatbot/src/utils/db.py:14-39 | the three tables start empty and conversation ids are unique |
| Db.Database.InsertCase | MentalHealthChatbot/src/utils/db.py:62-75 | exactly one row is appended, the other tables are unchanged, and the lookup for that user then gives the new profile |
| Db.Database.CreateUser | MentalHealthChatbot/src/utils/db.py:78-89 | answers `true` exactly when the e-mail was not a key; then it stores the password's hash (and that user now authenticates), otherwise it changes nothing |
| Db.Database.CreateConversation | MentalHealthChatbot/src/utils/db.py:101-120 | inserts one row stamped `now` twice, titled with the given title or "New Conversation", under the given or first uuid; if that id is taken, under the retry uuid; if that is taken too, IntegrityError with no change; answers the id stored and keeps ids unique |
| Db.Database.UpdateConversationTimestamp | MentalHealthChatbot/src/utils/db.py:133-141 | only the `last_updated` of the row with that id changes; ids stay unique and the other tables are unchanged |
| StateGraph.AnyTextNeverCovered | src/agents/check.py:15-17 | an edge function that may return any string is never covered by a finite path map |
| StateGraph.RunLoop | MentalHealthChatbot/src/run_agent.py:28-31 | the engine's step loop gives exactly the recursive run from the entry stage |
| StateGraph.RunStep | MentalHealthChatbot/src/agents/demo_agent.py:273-288 | a step whose handler returned and whose label has a path continues from that target with the delta merged |
| StateGraph.RunBounds | MentalHealthChatbot/src/run_agent.py:28-31 | a run only extends the history and the completed stages, completes at most one stage per step, and runs out of steps only after using all of them |
| StateGraph.OneMessagePerStage | MentalHealthChatbot/src/agents/demo_agent.py:85 | with one-message handlers, the history grows by exactly one message per completed stage |
| StateGraph.ValidRunAlwaysRoutes | MentalHealthChatbot/src/agents/demo_agent.py:273-288 | in a valid graph whose edge functions keep to their ranges, no run stops at a label without a path |
| StateGraph.NothingRaisedNothingFails | MentalHealthChatbot/src/agents/demo_agent.py:273-288 | in a well-formed graph where no handler or edge function raises, no run fails |
| StateGraph.ChainRun | MentalHealthChatbot/src/agents/demo_agent.py:273-288 | a run started on a chain of stages visits a prefix of it, in order, and never runs out of steps when the budget covers the rest of the chain |
| StateGraph.Builder.constructor | MentalHealthChatbot/src/agents/demo_agent.py:210 | the builder starts with no entry, no stages and no edges |
| StateGraph.Builder.SetEntryPoint | MentalHealthChatbot/src/agents/demo_agent.py:211 | sets the entry stage and changes nothing else |
| StateGraph.Builder.AddNode | MentalHealthChatbot/src/agents/demo_agent.py:212-215 | adds one new stage and changes nothing else |
| StateGraph.Builder.AddEdge | MentalHealthChatbot/src/agents/demo_agent.py:288 | gives a stage an unconditional edge and changes nothing else |
| StateGraph.Builder.AddConditionalEdges | MentalHealthChatbot/src/agents/demo_agent.py:273-287 | gives a stage an edge function with its range and path map, and changes nothing else |
| StateGraph.Checkpointer.constructor | MentalHealthChatbot/src/agents/demo_agent.py:290-292 | a new checkpointer holds no thread |
| StateGraph.Checkpointer.Invoke | MentalHealthChatbot/src/run_agent.py:28-31 | the input is appended to that thread's saved state, the graph runs, and the state reached is saved for that thread only |
| DemoAgent.IsValid | MentalHealthChatbot/src/agents/demo_agent.py:22-31 | valid exactly when name and email are present and not all whitespace, and gender and age are present |
| DemoAgent.NurseStep | MentalHealthChatbot/src/agents/demo_agent.py:117-179 | fails exactly when there is no stored record and the model is unknown; a stored record gives the welcome-back message and becomes `patient_info`; with no stored record the result is the intake's; `cases` changes only by appending the valid answer's profile for a truthy user id when the insert succeeds |
| DemoAgent.Intake | MentalHealthChatbot/src/agents/demo_agent.py:143-179 | fails exactly when the model is unknown; a classifier error gives the apology and changes nothing; a valid answer becomes `patient_info` and is thanked with the recorded text, and its row is appended exactly when the user id is truthy and the insert succeeds; an invalid answer gets the nurse model's reply (the apology when it raises) and changes nothing |
| DemoAgent.CheckIdentity | MentalHealthChatbot/src/agents/demo_agent.py:218-235 | "completed" exactly when `user_id` is truthy and `cases` holds a row for it, otherwise "incompleted" |
| DemoAgent.CheckEmotion | MentalHealthChatbot/src/agents/demo_agent.py:238-253 | raises exactly when the model is unknown; "positive" exactly when the classifier answered positive; every other outcome, a classifier error included, is "negative" |
| DemoAgent.CheckDanger | MentalHealthChatbot/src/agents/demo_agent.py:256-269 | raises exactly when the model is unknown; "dangerous" exactly when the classifier answered true; "safe" on false or on a classifier error |
| DemoAgent.DeclareMainGraph | MentalHealthChatbot/src/agents/demo_agent.py:210-292 | the builder calls declare exactly the main graph |
| DemoAgent.MainGraphValid | MentalHealthChatbot/src/agents/demo_agent.py:273-288 | the main graph is valid: entry and targets exist and every label of its three edge functions has a path |
| DemoAgent.MainRoutersInRange | MentalHealthChatbot/src/agents/demo_agent.py:218-269 | the three edge functions only return the labels their paths name |
| DemoAgent.MainGraphIsChain | MentalHealthChatbot/src/agents/demo_agent.py:273-288 | no edge leaves the line nurse, counsellor, psychologist, psychiatrist, skips ahead or goes back |
| DemoAgent.KnownModelNeverRaises | MentalHealthChatbot/src/agents/demo_agent.py:67-206 | with a known model, no handler and no edge function raises |
| DemoAgent.NurseAlwaysRoutes | MentalHealthChatbot/src/agents/demo_agent.py:230-235 | the identity check never raises and both its labels have a path |
| DemoAgent.MainRunOrder | MentalHealthChatbot/src/agents/demo_agent.py:273-288 | every run visits a prefix of nurse, counsellor, psychologist, psychiatrist (at most four stages, no repeats); four steps always suffice |
| DemoAgent.MainRunMessages | MentalHealthChatbot/src/agents/demo_agent.py:82-88 | a run keeps the history as a prefix and adds exactly one message per completed stage |
| DemoAgent.MainRunAlwaysRoutes | MentalHealthChatbot/src/agents/demo_agent.py:273-288 | no classifier answer leaves a run without a path |
| DemoAgent.KnownModelNeverFails | MentalHealthChatbot/src/agents/demo_agent.py:82-88 | with a known model no run fails, whatever the models, classifiers, database or e-mail do |
| DemoAgent.FromPsychiatrist | MentalHealthChatbot/src/agents/demo_agent.py:190-206 | the psychiatrist step appends the booking or booking-failed message and ends the run |
| DemoAgent.FromPsychologist | MentalHealthChatbot/src/agents/demo_agent.py:283-287 | the psychologist's answer, then the psychiatrist exactly when the danger check says dangerous |
| DemoAgent.FromCounsellor | MentalHealthChatbot/src/agents/demo_agent.py:278-282 | an unknown model fails at the counsellor; otherwise its answer, then END on positive and the psychologist otherwise |
| DemoAgent.FromNurse | MentalHealthChatbot/src/agents/demo_agent.py:273-277 | the nurse step, then END on "incompleted" and the counsellor on "completed" |
| DemoAgent.MainRunIsScripted | MentalHealthChatbot/src/agents/demo_agent.py:210-292 | given four steps, the compiled graph computes exactly the straight-line pipeline (intake, identity, counsel, emotion, assess, danger, book) |
| DemoAgent.PsychiatristExactlyWhen | MentalHealthChatbot/src/agents/demo_agent.py:190-287 | the psychiatrist runs exactly when the model is known, intake succeeds, identity is completed, emotion is not positive and danger is true; its message reports whether the e-mail for the current `patient_info` went out |
| DemoAgent.NewPatientIsRecorded | MentalHealthChatbot/src/agents/demo_agent.py:143-172 | a new patient with a user id and a valid answer is stored, becomes `patient_info`, is thanked, and reaches the counsellor; the run finishes |
| DemoAgent.CounselShape | MentalHealthChatbot/src/agents/demo_agent.py:182-187 | past the counsellor with a known model the run finishes, the world is unchanged, and the counsellor's answer follows the history |
| DemoAgent.WithoutUserIdOnlyTheNurse | MentalHealthChatbot/src/agents/demo_agent.py:143-158 | without a user id nothing is stored and no stage after the nurse runs; a valid answer from a patient with no stored row still becomes `patient_info` |
| DemoAgent.UnrecordedIntakeEndsAtNurse | MentalHealthChatbot/src/agents/demo_agent.py:173-179 | a new patient whose classifier raises gets the apology, and one whose answer is invalid gets the nurse model's reply; the world is unchanged and the run finishes after the nurse alone |
| DemoAgent.ReturningPatientIsWelcomed | MentalHealthChatbot/src/agents/demo_agent.py:124-142 | a stored record becomes `patient_info` and is greeted with the welcome-back text; nothing is stored; with a known model the counsellor runs next |
| DemoAgent.CounsellorErrorIsApology | MentalHealthChatbot/src/agents/demo_agent.py:82-88 | when the counsellor's model raises, the run still finishes and the counsellor's message is the fixed apology |
| DemoAgent.ScriptedCounsels | MentalHealthChatbot/src/agents/demo_agent.py:273-282 | a run that reaches the counsellor did so through a successful intake and a completed identity check |
| DemoAgent.MainAgent.constructor | MentalHealthChatbot/src/agents/demo_agent.py:34 | `patient_info` starts empty and no thread has a history |
| DemoAgent.MainAgent.Nurse | MentalHealthChatbot/src/agents/demo_agent.py:117-179 | acting in place on `patient_info` and `cases`, it answers and leaves the world exactly as `NurseStep` says; a failure changes nothing |
| DemoAgent.MainAgent.RecordIntake | MentalHealthChatbot/src/agents/demo_agent.py:143-179 | acting in place, it answers and leaves the world exactly as `Intake` says |
| DemoAgent.MainAgent.RunNode | MentalHealthChatbot/src/agents/demo_agent.py:182-206 | running a stage in place matches the graph's handler; only a successful nurse step changes the world |
| DemoAgent.MainAgent.Invoke | MentalHealthChatbot/src/run_agent.py:28-31 | running the steps in place gives exactly `MainRun` on the thread's saved history plus the input; the world ends as the run's state; only that thread's history is saved |
| EarlyDemoAgent.DeclareEarlyGraph | src/agents/demo_agent.py:80-134 | the builder calls declare exactly the earlier graph |
| EarlyDemoAgent.ModelCall | src/agents/demo_agent.py:37-76 | a handler returns exactly when the model is known and answers, and then its one message is the answer |
| EarlyDemoAgent.CheckIdentity | src/agents/demo_agent.py:87-102 | "completed" exactly when the model is known and the classifier answered with `is_completed` set; raises exactly when the model is unknown or the classifier raises |
| EarlyDemoAgent.CheckEmotion | src/agents/demo_agent.py:105-116 | returns the classifier's label verbatim, whatever string it is; raises exactly when the model is unknown or the classifier raises |
| EarlyDemoAgent.InvokeEarly | src/agents/demo_agent.py:132-134 | the input is appended to the thread's saved history, the earlier graph runs, and that thread's state is saved |
| EarlyDemoAgent.EarlyGraphNotValid | src/agents/demo_agent.py:125-129 | the graph compiles but is not valid: an emotion label other than the two mapped has no path |
| EarlyDemoAgent.EarlyGraphIsChain | src/agents/demo_agent.py:120-130 | no edge leaves the line nurse, counsellor, psychologist, skips ahead or goes back |
| EarlyDemoAgent.EarlyRunShape | src/agents/demo_agent.py:120-130 | every run visits a prefix of nurse, counsellor, psychologist (at most three stages) and adds one message per completed stage; three steps suffice |
| EarlyDemoAgent.FromPsychologist | src/agents/demo_agent.py:65-76 | the psychologist's answer is appended and the run ends |
| EarlyDemoAgent.FromCounsellor | src/agents/demo_agent.py:125-129 | after the counsellor: END on "positive", the psychologist on "negative", no path for any other label, and failure on a classifier error |
| EarlyDemoAgent.EarlyRunIsScripted | src/agents/demo_agent.py:37-130 | given three steps, the compiled graph computes exactly the straight-line pipeline, with every collaborator error ending the run at its stage |
| EarlyDemoAgent.OffLabelEmotionStrands | src/agents/check.py:14-17 | an emotion label other than "positive" or "negative" stops the run at the counsellor without keeping the counsellor's answer |
| EarlyDemoAgent.EarlyRunFinishesExactlyWhen | src/agents/demo_agent.py:37-130 | a run finishes exactly when the model is known, every collaborator reached answers, and the emotion label is one of the two mapped |
| EarlyDemoAgent.UnknownModelAbortsAtEntry | src/agents/demo_agent.py:39 | an unknown model aborts the run at the nurse with nothing added |
| Counsellor.RegisterTools | src/agents/counsellor.py:33-39 | web search and calculator always, in that order; the weather tool joins exactly when its API key is set |
| Counsellor.FormatSafety | src/agents/counsellor.py:66-68 | a plain model message without tool calls whose text starts with the flagged-content prefix |
| Counsellor.FormatSafetyLists | src/agents/counsellor.py:66-68 | no categories give the bare prefix, one gives prefix plus that category, and each further category adds ", " and itself |
| Counsellor.AcallModel | src/agents/counsellor.py:71-95 | returns exactly when the model is known, the model answers and the output LlamaGuard call answers, always with one message; a model error or, after an answer, a guard error is raised as it is; an unsafe output verdict gives the flagged message and records the verdict; otherwise on the last step a tool-calling answer becomes the need-more-steps message with the answer's id; otherwise the answer itself |
| Counsellor.AcallModelLastStepAndGuard | src/agents/counsellor.py:78-95 | on the last step the new message never asks for tools, and an unsafe verdict always replaces the answer |
| Counsellor.BlockUnsafeContent | src/agents/counsellor.py:108-110 | raises exactly when no verdict is recorded; otherwise one flagged message from the recorded verdict |
| Counsellor.ToolReplies | src/agents/counsellor.py:174 | one tool message per tool call, in order, each carrying its call's id |
| Counsellor.CheckSafety | src/agents/counsellor.py:147-153 | "unsafe" exactly when the recorded verdict is unsafe, "safe" for any other verdict; raises when none is recorded |
| Counsellor.EdgeCounsellor | src/agents/counsellor.py:157-163 | raises on an empty history, and a type error when the last message is not a model answer; otherwise "tools" exactly when that answer has tool calls, "ethical_check" when not |
| Counsellor.DeclareCounsellorGraph | src/agents/counsellor.py:166-226 | the builder calls declare exactly the counsellor graph |
| Counsellor.AddCounsellorNodes | src/agents/counsellor.py:168-178 | the `add_node` calls declare the ten stages and no edge |
| Counsellor.AddCounsellorEdges | src/agents/counsellor.py:180-222 | the edge calls declare exactly the graph's edges and change no stage |
| Counsellor.AddFrontEdges | src/agents/counsellor.py:180-201 | the edges of nurse, guard_input, block_unsafe_content and counsellor |
| Counsellor.AddBackEdges | src/agents/counsellor.py:202-222 | the remaining edges, completing the graph |
| Counsellor.CounsellorGraphWellFormed | src/agents/counsellor.py:166-226 | the graph compiles: the entry and every edge target are declared stages |
| Counsellor.CounsellorGraphNotValid | src/agents/counsellor.py:180-218 | of the five edge functions only `check_safety` is covered by its path map, so the graph is not valid |
| Counsellor.CounsellorRunFailsAtEntry | src/agents/counsellor.py:113-115 | every invocation fails at the entry stage `nurse` with nothing added |
| Counsellor.UnsafeInputIsBlocked | src/agents/counsellor.py:187-193 | an unsafe input gets one flagged message, the verdict is recorded, and the run ends after two stages |
| Counsellor.SafeInputReachesCounsellor | src/agents/counsellor.py:187-191 | any other verdict is recorded without a message and hands over to the counsellor |
| Counsellor.InputGuardErrorFails | src/agents/counsellor.py:102-105 | when the input LlamaGuard call raises, the run fails at `guard_input` with its error and the state unchanged |
| Counsellor.OutputGuardErrorFails | src/agents/counsellor.py:71-79 | when the model answers but the output LlamaGuard call raises, the run fails at the counsellor with that error and the answer is not added |
| Counsellor.AnswerWithoutToolsHasNoPath | src/agents/counsellor.py:194-201 | a counsellor answer without tool calls (or replaced, or flagged) meets "ethical_check", which has no path: the step is dropped and the run stops |
| Counsellor.CounsellorNeverFinishes | src/agents/counsellor.py:194-210 | no run from the counsellor reaches END |
| Counsellor.ToolsNeverFinish | src/agents/counsellor.py:210 | no run from the tools node reaches END |
| Counsellor.OnlyBlockingFinishes | src/agents/counsellor.py:187-210 | from the input gate, the only run that finishes is the one that blocks an unsafe input |
| Counsellor.CounsellorCycleRunsOut | src/agents/counsellor.py:194-210 | when the model keeps asking for tools and no step is flagged as the last (which the engine's own `is_last_step` never allows), a run from the counsellor only stops by running out of steps |
| Counsellor.ToolsCycleRunsOut | src/agents/counsellor.py:210 | the same from the tools node, under the same assumption that no step is flagged as the last |
| Counsellor.ToolsCycleBoundedOnlyByBudget | src/agents/counsellor.py:194-210 | with a safe input, a model that keeps asking for tools and no step flagged as the last, the run uses every step and stops only for lack of steps |
| Counsellor.CounsellorCycleMeetsLastStep | src/agents/counsellor.py:85-95 | with the last step flagged exactly on the budget's last step, a run from the counsellor ends with no path at "ethical_check" when an odd number of steps is left, and out of steps otherwise |
| Counsellor.ToolsCycleMeetsLastStep | src/agents/counsellor.py:85-95 | the same from the tools node: no path when an even, non-zero number of steps is left, out of steps otherwise |
| Counsellor.LastStepEndsToolsCycle | src/agents/counsellor.py:85-210 | with a safe input and the last step flagged as the engine flags it, the tools cycle ends at the counsellor's need-more-steps answer, which has no path, when the steps left are even, and out of steps when they are odd |
| Counsellor.InvokeCounsellor | src/agents/counsellor.py:224-226 | the input is appended to the thread's saved state, the counsellor graph runs, and that thread's state is saved |

## Left out

- Db.Database.CreateConversation: `None` stands for an omitted `title` argument, which gives "New Conversation". An explicit Python `None`, which would store a `NULL` title, is not modelled; no caller passes one.
- Language models, structured-output classifiers, LlamaGuard, the tools and ToolNode internals are foreign library calls. Their results are inputs (`Oracle`); each model, classifier and LlamaGuard call answers or raises. The counsellor's per-step answers, verdicts and tool outputs are indexed by step number.
- `is_last_step` is computed inside LangGraph and is not part of this model. It is an input per step.
- `send_email`, imported by the main agent, is not defined in `MentalHealthChatbot/src/utils/gmail.py`. Notification is an input that says whether the e-mail for a given `patient_info` went out. `gmail.py` is not part of this model.
- LangGraph's engine is not part of this model. The modelled engine assumes the following:
  - it runs from the entry stage;
  - it appends message deltas and overwrites other keys;
  - it calls an edge function after its stage's update;
  - it keeps the state as it was before a step that raises or whose label has no path;
  - it refuses a handler result that is not a state update (`InvalidUpdateError`);
  - it stops at END or when the step budget is used up (the recursion limit);
  - it keeps each thread's state in memory.
- LangGraph would raise the recursion error at budget exhaustion. The model reports `OutOfSteps` with the state reached.
- `MainAgent.Invoke` keeps `patient_info` and `cases` changes made by completed steps. A failed step changes neither, so no rollback is needed there.
- Async execution, streaming and concurrent invocations are left out. The model is sequential, one invocation at a time.
- The SQLite connection, SQL execution, `datetime.now()`, `uuid4` and SHA-256 are left out. The clock, both uuids and the hash are parameters. Timestamps are abstract numbers.
- Two cases rows inserted in the same second tie under `ORDER BY created_at`. The model treats the last appended row as newest.
- The foreign key from `conversations.user_email` to `users` is not enforced; SQLite does not enforce it by default either.
- The `NOT NULL` columns of `cases` are not modelled. Only valid answers reach `insert_case`.
- `Builder.AddNode`, `AddEdge` and `AddConditionalEdges` require that the stage is not already declared. LangGraph's own errors for duplicate declarations are not modelled.
- DemoAgent.GenericAgent, DemoAgent.Psychiatrist, Counsellor.LlamaGuardInput, Counsellor.ToolNode and the per-graph `Handle`/`Route` dispatchers carry no contract row of their own. What they do is stated through the contracts and run lemmas above (`Intake`, `CounselShape`, `PsychiatristExactlyWhen`, `UnsafeInputIsBlocked`, `SafeInputReachesCounsellor`, `InputGuardErrorFails`, `ToolsCycleRunsOut`). The `ValueError` cases of `ToolNode` are unreachable in a run, because "tools" is entered only through the counsellor's "tools" edge.
- Prompt texts, `create_agent_instructions`, the system-message preprocessing and `cus_print` logging are left out. They only shape what the model is asked.
- The Streamlit app, `run_agent.py`'s CLI loop and graph rendering, `display_graph.py`, `start_web_app.py`, `rag.py` and the name-to-agent registry in `graph.py` are left out. They are user interface and wrappers around the graphs modelled here.
