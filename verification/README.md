# Storyteller workflow, modelled in Dafny

The system is a console storyteller for children. Each line the user types
goes through a small state graph:

- an intent classifier routes the message either to the story pipeline or
  to a general chat answer;
- the story pipeline builds or revises a structured specification, writes
  a story from it and has a judge review it;
- a rejection sends the run back to the specification step with the judge's
  explanation as feedback;
- the console driver carries the specification, the story and the verdict
  from one turn to the next, and keeps the conversation history.

This project models that core and proves properties of the model:

- the state and the node functions of `graph.py`;
- the routers and the edge tables;
- an engine that runs the compiled graph;
- the record schemas of `schema.py`;
- the helpers of `debug_utils.py`;
- the per-turn bookkeeping of `main.py`.

The text-generation service is replaced by an `Oracle`: one total function
per kind of call. The classifier, specification writer and judge return a
JSON value, or `None` for text that is not JSON. The storyteller and the
general responder return text. The three calls made from inside the revision
cycle also receive the number of judge verdicts already given, so that a
revision can be answered differently. JSON text is seen as a parsed `Json`
value.

Modules, one file each:

- **`Wrappers`**: `Option` and `Result`.
- **`JsonValue`**: JSON values.
- **`Text`**: Python's `str.strip()` with the exact `isspace` set; ASCII
  `lower()`; `split(sep)[0]`.
- **`Schema`**: the pydantic records, their validation, and the
  serialisation of the specification.
- **`DebugUtils`**: `_shorten` and `DEBUG_ENABLED`.
- **`StateModel`**: the state dictionary, whose every key may be absent,
  and the key-overwrite merge of a node's result.
- **`Prompts`**: which blocks each prompt carries. The wording is not
  modelled.
- **`Nodes`**: the five node functions. `n_intent` is modelled twice: as
  an imperative method and as the function that specifies it.
- **`Graph`**: the routers; the graph builder as a class with
  `add_node`/`add_edge` methods; `build_graph`; where each step leads.
- **`Engine`**: the run of a compiled graph.
  - `Run` is a specification function with fuel. Each node visit spends one
    unit.
  - `Invoke` is the step-by-step engine loop, proved equal to `Run`.
  - Both take the node handlers as a parameter. `StoryHandlers` are the
    handlers of `graph.py`.
- **`Driver`**: `main.py`. It has the payload and carry functions and a
  `Session` class holding the carried state and the history list, which
  its methods update in place.

Where the code and its documentation could be read differently, the model
follows the code:

- **Routing after the judge.** `e_after_judge` treats an absent verdict as
  true. An absent `judge_evaluation` therefore routes to the end ("OK"), and
  only `False` routes back to spec.
- **Routing after the classifier.** `e_after_intent` defaults to `"story"`
  only when `intent` is absent. A present label without an entry in the
  branch table is an error (`UnknownBranch`), not a fallback to story. Such
  a label cannot arise in practice, because `UserIntent` admits only the
  three labels.
- **A new story request after an earlier story.** The comment at graph.py:155
  says a fresh specification is built unless the intent is feedback. But
  `n_spec` always passes the stored specification, and the driver carries
  `specifications` into the next payload. A later "story" request therefore
  revises the carried specification rather than rebuilding it
  (`Driver.StoryTurnRevisesCarriedSpec`).
- **Story text without the end marker.** It is still whitespace-stripped,
  because `split` returns the whole text.

## Model

| member | source | states |
|---|---|---|
| Text.Strip | graph.py:117 | The result is the slice of the input left once whitespace is removed from both ends. Everything removed is whitespace, and the result neither starts nor ends with whitespace. |
| Text.Lower | main.py:64 | Lower-casing keeps the length and folds each character on its own. |
| Text.BeforeFirst | graph.py:117 | `split(sep)[0]` is a prefix of the text containing no occurrence of the separator. When it is shorter than the text, the separator occurs right after it. |
| Text.BeforeFirstAt | graph.py:117 | When the separator occurs at `n` and at no earlier index, the part before the first occurrence is exactly `s[..n]`. |
| Schema.Label | schema.py:10-11 | Every intent is labelled "story", "feedback" or "general". |
| Schema.IntentOf | schema.py:10-11 | A label is read back exactly when it is one of the three strings, and then it names the same intent. |
| Schema.LabelRoundTrip | schema.py:11 | Reading back the label of an intent gives the intent. |
| Schema.ParseStoryRequest | schema.py:6-7 | Validation succeeds exactly for an object with a string `request`, and keeps that string. |
| Schema.ParseStoryGenerated | schema.py:23-24 | Validation succeeds exactly for an object with a string `story`, and keeps that string. |
| Schema.ParseUserFeedback | schema.py:31-32 | Validation succeeds exactly for an object with a string `feedback`, and keeps that string. |
| Schema.ParseUserIntent | schema.py:10-11 | Validation succeeds exactly when `intent` is one of the three labels. Anything else is rejected. |
| Schema.ParseSpecifications | schema.py:14-19 | Validation succeeds exactly when topic, tone, style and plan are strings and `length` is absent or an integer, and it yields those fields with `length` defaulting to 1000. |
| Schema.ParseJudgeEvaluation | schema.py:27-29 | Validation succeeds exactly when `is_appropriate` is a boolean and `feedback`, if present, is a string. `feedback` defaults to "". |
| Schema.SpecificationsToJson | graph.py:164 | The dump of a specification has exactly the five declared keys, `length` included. |
| Schema.SpecificationsRoundTrip | graph.py:164-169 | A specification dumped by `n_spec` and validated again by `n_generate` is the same five fields. |
| Schema.SpecificationsIgnoreExtraKeys | schema.py:14-19 | Keys the schema does not declare do not change what validation yields. |
| DebugUtils.Shorten | debug_utils.py:9-16 | A long string becomes its first `limit` characters plus "…". A short string is unchanged. An object keeps its keys, with each value shortened. An array keeps its length and order, with each element shortened. Any other value is unchanged. |
| DebugUtils.ShortenBounds | debug_utils.py:10-11 | After shortening, no string anywhere in the value is longer than `limit + 1`. |
| DebugUtils.ShortenIdempotent | debug_utils.py:9-16 | Shortening an already shortened value changes nothing. |
| DebugUtils.ShortenKeepsShortValues | debug_utils.py:9-16 | A value whose strings are all within the limit is left as it is. |
| DebugUtils.DebugEnabled | debug_utils.py:6 | Diagnostics are off exactly when the lower-cased value of the variable is "0", "false" or "no". The default is "1". |
| DebugUtils.DebugFlagExamples | debug_utils.py:6 | Unset, empty, "yes" and "1" switch diagnostics on. "0", "FALSE", "False", "No" and "NO" switch them off. |
| StateModel.CopyKey | main.py:20-21 | `dst[k] = src[k]` when `k in src`. Nothing else changes. |
| StateModel.Merge | graph.py:132-141 | definition: the state after a node returns. Keys have no reducer, so each key of the node's result replaces the current value. |
| StateModel.MergeOverwrites | graph.py:219 | Merging a node's result into the state: each key of the result overwrites, and each key it lacks keeps its value. |
| StateModel.AgreeEverywhere | graph.py:132-141 | Two states that agree on every key are equal. |
| StateModel.MergeEmpty | graph.py:219 | Merging an empty result leaves the state unchanged. |
| Prompts.RecentTurns | graph.py:33 | `history[-6:]` has min(6, length) turns and is a suffix of the history. |
| Prompts.ContextBlock | graph.py:32-35 | The context block is absent exactly when the history is None or empty. Otherwise it is `history[-6:]`: the suffix of exactly min(6, length) turns. |
| Prompts.PromptClassifyIntent | graph.py:30-37 | The classifier sees the message and the context block of the history: none for a None or empty history, otherwise its last six turns (the whole history when shorter). |
| Prompts.PromptGeneralResponse | graph.py:92-102 | The general responder sees the message and the context block of the history: none for a None or empty history, otherwise its last six turns (the whole history when shorter). |
| Prompts.PromptBuildSpec | graph.py:39-42 | The prior-spec block is present exactly when a prior specification is given. The feedback block is present exactly when the feedback is non-empty. |
| Nodes.StoryText | graph.py:114-118 | The story never contains `<END>` and has no surrounding whitespace. Without `<END>` it is the stripped text. Otherwise it is the stripped text before the first `<END>`. |
| Nodes.StoryTextDropsTail | graph.py:117 | For any text without `<END>`, followed by `<END>` and any tail, the story is the stripped text and the tail is dropped. |
| Nodes.NoEarlierSentinel | graph.py:117 | In a text without `<END>` followed by `<END>`, no occurrence of the marker starts inside the text. |
| Nodes.NoOccurrenceInSlice | graph.py:117 | A slice of a text without `<END>` has no `<END>` either. |
| Nodes.IntentResult | graph.py:144-152 | An absent message fails. Success holds exactly when the reply validates. The intent is always set to the label. `feedback` is set, to the message, exactly when the intent is "feedback". No other key is set. |
| Nodes.NIntent | graph.py:144-152 | The step-by-step `n_intent` computes exactly `IntentResult`. |
| Nodes.NSpec | graph.py:154-166 | Success holds exactly when the reply validates. The stored specification validates to the same record, the feedback is cleared to "", and no other key is set. |
| Nodes.NGenerate | graph.py:168-174 | An absent specification fails. Success holds exactly when it validates. The story is the truncated text written from it. No other key is set. |
| Nodes.NJudge | graph.py:176-201 | An absent story fails. `judge_evaluation` is the verdict and `judge_feedback` the judge's explanation. `feedback` is "" on approval and the explanation on rejection. No other key is set. |
| Nodes.NGeneral | graph.py:203-209 | Success holds exactly when a message is present. The response is the stripped reply, and no other key is set. |
| Graph.AfterJudge | graph.py:211-213 | "OK" exactly when the verdict is not False (an absent verdict counts as True). "FIX" exactly when it is False. |
| Graph.AfterIntent | graph.py:215-216 | The stored intent, or "story" when there is none. |
| Graph.StoryGraph | graph.py:226-231 | definition: the compiled edge tables. Entry at intent. Intent and judge branch through their label tables. Spec, generate and general have fixed edges. |
| Graph.Next | graph.py:226-231 | definition: resolving a node's outgoing edge on the merged state. A fixed edge is followed, a router's label is looked up in its table, and a missing label is an `UnknownBranch` error. |
| Graph.IntentRouting | graph.py:227 | After intent: story and feedback go to spec, general goes to general, and any other label fails. |
| Graph.JudgeRouting | graph.py:230 | After judge: a False verdict goes back to spec. Otherwise the run ends. |
| Graph.FixedRouting | graph.py:228-231 | Spec goes to generate, generate to judge, and general to the end. |
| Graph.NextFollowsEdges | graph.py:226-231 | Every node-to-node step is one of the declared edges. Only general, or a judge whose verdict is not False, leads to the end. |
| Graph.StoryGraphClosed | graph.py:220-231 | Every edge and every branch of the tables ends at one of the five registered nodes. |
| Graph.GraphBuilder.constructor | graph.py:219 | A new builder has no nodes, no entry and no edges. |
| Graph.GraphBuilder.AddNode | graph.py:220-224 | Registers one node and changes nothing else. |
| Graph.GraphBuilder.AddEntry | graph.py:226 | Sets the entry and changes nothing else. |
| Graph.GraphBuilder.AddEdge | graph.py:228-231 | Sets the fixed edge of one node and changes nothing else. |
| Graph.GraphBuilder.AddConditionalEdges | graph.py:227-230 | Sets the router and label table of one node and changes nothing else. |
| Graph.GraphBuilder.Compile | graph.py:232 | Compiles exactly when the entry is set and every edge is between registered nodes. The result holds that entry and those edges. |
| Graph.BuildGraph | graph.py:218-242 | The builder calls of `build_graph` compile to exactly the story graph. |
| Graph.RejectionRevisesSpec | graph.py:184-191 | A rejection routes back to spec with the judge's explanation as the pending feedback. The next spec prompt quotes that explanation when it is non-empty. |
| Graph.UserFeedbackRevisesSpec | graph.py:149-150 | Feedback from the user routes to spec. The spec prompt quotes the user's message as the feedback when it is non-empty. |
| Engine.ExecuteNode | main.py:71 | One pass of the engine loop either finishes with `Run`'s result, or is `Run` continued from the resolved next node. |
| Engine.Step | graph.py:220-224 | definition: the node-name-to-function registrations, dispatching each node to its node function. |
| Engine.StoryHandlers | graph.py:220-224 | definition: the registered node functions as the engine's handler table, with the oracle supplied. |
| Engine.Run | main.py:71 | definition: `invoke` from a node. Run the handler, merge its result, then resolve the next edge. Stop at the end, at a failure, or when the fuel is spent. |
| Engine.Resume | main.py:71 | definition: the continuation of `Run` once a node's handler has returned. |
| Engine.Invoke | main.py:71 | The engine loop returns exactly `Run` of the graph from its entry on the payload. |
| Engine.StoryHandlersWellBehaved | graph.py:144-209 | The five nodes never write the message or the history. Only `n_intent` writes the intent. A judge verdict that is not False is True, and then the feedback is "". |
| Engine.RunPath | graph.py:226-231 | Every run starts at its node, visits at most one node per unit of fuel, and moves only along edges of the graph. |
| Engine.RunOutcome | graph.py:211-213 | A run keeps the message and history it started with. A finished run ended at general, or at a judge that approved with no pending feedback. |
| Engine.FinishedStoryRun | graph.py:226-231 | A finished story run goes intent, spec, and then repeats spec → generate → judge. Every judge but the last sends it back to spec. The last judge approved with the feedback cleared. |
| Engine.CycleKeepsIntent | graph.py:227-230 | Once in the spec/generate/judge cycle, a run never reaches general and keeps its intent. |
| Engine.DispatchMatchesRoute | main.py:74-78 | A finished run ended at general exactly when its final intent is "general", so the driver's dispatch agrees with the route taken. |
| Engine.GeneralRun | graph.py:227-231 | A general message runs intent then general, and then ends. Every key but intent and general_response is as it came in. |
| Driver.Payload | main.py:17-22 | The payload holds the message, the history, and each STATE_KEYS key present in the carry, with the same value. It holds nothing else. |
| Driver.BuildPayload | main.py:17-22 | The key-by-key loop builds exactly `Payload`. |
| Driver.Carried | main.py:46-49 | Each STATE_KEYS key present in the final state overwrites the carried value. Every other carried entry is unchanged. |
| Driver.CarryReachesNextPayload | main.py:14-22 | The next turn's payload holds every STATE_KEYS value the last state had, and the older carried value for the rest. |
| Driver.CarriedKeepsKeys | main.py:46-49 | Carrying never adds a key outside STATE_KEYS. |
| Driver.GeneralReplies | main.py:25-29 | At most one turn is added, an assistant turn holding the response, and only when the response is non-empty. |
| Driver.StoryReplies | main.py:32-43 | First the story if non-empty, then "Judge feedback: " plus the feedback if non-empty. All are assistant turns, and nothing else is added. |
| Driver.Replies | main.py:74-78 | Intent "general" dispatches to the general replies. Anything else, absent included, dispatches to the story replies. |
| Driver.LineStep | main.py:61-80 | A blank line is skipped, and "exit" or "quit" in any case stops; both leave the carry and the history as they were. Any other line runs the graph on the payload whose history already ends with the user turn. A finished run is answered: the carry becomes `Carried` of the final state, and the history becomes that history plus `Replies`. A failed run crashes with the run's status, and keeps the carry and the history with the user turn. |
| Driver.Converse | main.py:60-80 | Over a whole session the history is append-only, and the carry never holds a key outside STATE_KEYS. |
| Driver.CarryStaysWithinKeys | main.py:46-49 | One line never puts a key outside STATE_KEYS into the carry. |
| Driver.ExitInAnyCase | main.py:61-66 | A line holding "exit" or "quit" in any mix of letter case, with any whitespace around it, quits and leaves the carry and the history unchanged. |
| Driver.BlankLineSkipped | main.py:61-63 | Every line made only of whitespace, the empty line included, is skipped by `LineStep`. |
| Driver.GeneralTurnKeepsCarry | main.py:74-80 | A general turn is answered, appends the user turn and at most one reply, and leaves the carry unchanged. |
| Driver.StoryTurnRevisesCarriedSpec | main.py:14-22 | A later story request with a carried specification goes to spec. The spec prompt quotes the carried specification as the current one and has no feedback block. |
| Driver.CarryUnchangedByGeneral | main.py:46-49 | When the final state differs from the payload only in intent and general response, the carried state is unchanged. |
| Driver.StoryAnswerApproved | main.py:74-80 | A story answer appends the story replies, and the verdict carried to the next turn is an approval. |
| Driver.Session.constructor | main.py:53-58 | The graph is built once. The carry and the history start empty. |
| Driver.Session.UpdateCarry | main.py:46-49 | The in-place update leaves the carry equal to `Carried`. |
| Driver.Session.HandleGeneral | main.py:25-29 | Appends exactly the general replies to the history. |
| Driver.Session.HandleStory | main.py:32-43 | Appends exactly the story replies to the history. |
| Driver.Session.HandleLine | main.py:61-80 | One pass of the loop updates the carry and the history exactly as `LineStep` says. |
| Driver.Session.Chat | main.py:60-80 | The loop over the input lines updates the carry and the history exactly as `Converse` says. |

## Left out

- `call_model` and the service it calls (graph.py:15-27) are replaced by the `Oracle`. The model's answers are fixed functions of the prompt and of the revision round; the real service is not deterministic.
- The `temperature` and `max_tokens` arguments, which are floating-point and numeric settings of the service.
- Prompt wording. Only which blocks a prompt carries is modelled.
- LangGraph's internals. Its recursion limit is not modelled: a fuel argument stands in for it, and running out of fuel counts as a crash of the turn. The judge-to-spec cycle has no bound in the source, so its termination is not claimed.
- Graph.GraphBuilder.AddNode and Graph.GraphBuilder.AddEdge: LangGraph raises on a duplicate node name and keeps a second edge from the same node as a parallel edge. The model adds to a set and overwrites. `build_graph` does neither.
- JSON text. `json.loads` is a reply that is either a `Json` value or `None`. The `.strip()` applied to the specification text before `json.loads` belongs to that abstraction.
- Schema.ParseSpecifications: accepts exactly JSON strings and integers. Pydantic's lax mode also coerces some other values, such as a numeric string for `length`. The `Json` value has no floating-point constructor, so a reply such as `"length": 500.0`, which pydantic turns into 500, cannot be expressed.
- Schema.ParseJudgeEvaluation: accepts exactly a JSON boolean for `is_appropriate`. Pydantic's lax mode also accepts values such as `"true"` or `1`.
- Nodes.NGeneral: assumes the service returns text. A `None` content, which would make `.strip()` raise, is not modelled. The same holds for the storyteller in `Nodes.NGenerate`.
- DebugUtils.Shorten: the limit is a natural number. Python's slicing with a negative limit is not modelled.
- The printing in `debug_log` (debug_utils.py:19-24), `load_dotenv`, `input` and `print`.
- `input()` reaching the end of input raises `EOFError`. `Driver.Session.Chat` instead stops when the lines run out.
- History aliasing: `main.py` passes its history list itself as the payload's `history`. The model passes its value at the time of the call. No node writes the history, so the nodes see the same turns either way.
- Text.Lower: folds ASCII letters only. Python's `lower()` also folds other letters. No non-ASCII character lower-cases to a letter of "exit", "quit", "0", "false" or "no", so the two comparisons that use it decide the same.
