# LangGraph mastery agents, modelled in Dafny

This project models the executable logic of three small agent scripts and
proves properties about each model.

- **The hand-written ReAct travel agent** (`1-simple-react-agent/main.py`):
  - An `Agent` object keeps a role-tagged transcript. Each call appends the
    prompt and the model's reply.
  - Three deterministic travel tools (`check_weather`, `search_hotels`,
    `get_attractions`) sit in a registry.
  - `run_agent_loop` asks the agent, reads the first `Action: <tool>: <input>`
    line of each reply, runs that tool, and feeds back
    `Observation: <result>`. It stops on a final answer, on an unknown tool,
    or when it runs out of iterations.
- **The reflection graph** (`03-reflection/main.py`):
  - A generate node and a critique node alternate.
  - Before each critique, the critique node swaps the roles of the history
    (`cls_map`).
  - A rule on the number of messages decides when to stop.
- **The reflexion essay writer** (`04-reflexion/main.py`):
  - The graph runs plan, then research, then write.
  - While the iteration budget lasts, it repeats review, critique research
    and write.
  - The research nodes append search results to the sources. The writer
    counts iterations.

The chat models, the structured-output query generator and the web search
are oracles: each is a fixed function from its request to its answer.

Files:

- `wrappers.dfy`: the `Option` type.
- `text.dfy`: the Python string operations the scripts use. These are
  `str.isspace`, `strip`, `split` on one character, `join` and an ASCII
  `title`.
- `travel_tools.dfy`: the tool tables, the tools and the registry.
- `react_agent.dfy`: the transcript, the `Agent` class and the action-line
  parser. It also has `Loop`, a function that specifies one run of the loop,
  and the `RunAgentLoop` method proved against it.
- `reflection.dfy`: the role swap, the two nodes, the stop rule, the graph
  and its runs.
- `reflexion.dfy`: the writer state, the nodes, the nested-loop source
  gathering, the stop rule, the graph and its iteration counts.

Design points:

- **The agent is a class.**
  - It holds the system text, the backend and a mutable transcript.
  - `Call` is proved to append exactly a user turn and an assistant turn.
  - It preserves `Valid()`: an optional system turn, then whole user and
    assistant exchanges.
- **The automation loop** is a `while` loop in `ReactAgent.Drive`.
  - The loop body is the method `ReactAgent.Round`. It returns either the
    value to return or the next input.
  - Both are proved against `ReactAgent.Loop`.
  - `Loop` records how the run ended, the final transcript, every input sent
    to the agent, and every directive dispatched.
  - `ReactAgent.RunAgentLoop` runs it with the regex reader `ParseAction`.
  - The lemmas about `Loop` prove the loop's promises: the bound on calls,
    the observation hand-off, the answer and the unknown-tool exits, and
    timeouts.
- **The action pattern** `^Action: (\w+): (.*)$` in multi-line mode is
  modelled one line at a time.
  - A line matches when it starts with `Action: `, continues with the longest
    non-empty run of word characters, and then has `: `. The rest of the line
    is group 2.
  - `re.search` takes the earliest matching line, and the loop strips group 2.
  - A run of word characters can only be followed by `:` when it is the
    longest run, so the greedy `\w+` cannot match any other way.
- **The graphs.** Node updates are merged as LangGraph merges them.
  - The reflection state's `messages` channel appends.
  - The reflexion state's fields are overwritten.
  - A graph run is a function that follows the declared edges from the entry
    node and records the trace of nodes.
- **Source gathering** in the reflexion research nodes is imperative.
  - `Reflexion.GatherSources` keeps the nested `for` loops as `while` loops
    with invariants.
  - Its result is the old list followed by `Gathered(queries, search)`.
  - The graph functions use `Gathered`. The node methods are proved to agree
    with it.

## Model

| member | source | states |
|---|---|---|
| `ReactAgent.Opening` | 1-simple-react-agent/main.py:16-20 | The transcript a new agent starts with: one system turn holding the system text, or nothing when that text is empty |
| `ReactAgent.Agent.constructor` | 1-simple-react-agent/main.py:11-20 | A new agent keeps its system text and backend, and its transcript is the opening. This satisfies the agent invariant |
| `ReactAgent.SystemTurnOnlyFirst` | 1-simple-react-agent/main.py:16-20 | In every transcript the agent can reach, a system turn appears only at the front and carries the system text. It is there exactly when the system text is non-empty |
| `ReactAgent.ExchangesRoles` | 1-simple-react-agent/main.py:27-29 | In whole exchanges, user turns sit at even offsets and assistant turns at odd ones, and the length is even |
| `ReactAgent.ExchangesExtend` | 1-simple-react-agent/main.py:27-29 | Appending a user turn and then an assistant turn keeps a transcript made of whole exchanges |
| `ReactAgent.Agent.Call` | 1-simple-react-agent/main.py:22-30 | A call appends exactly the user prompt and then the reply, keeps all earlier turns, and returns the reply. The reply is the backend's answer to the whole transcript ending with the prompt. The invariant is preserved |
| `ReactAgent.IsWordChar` | 1-simple-react-agent/main.py:176 | The `\w` class as modelled: ASCII letters, digits and `_` |
| `ReactAgent.Lines` | 1-simple-react-agent/main.py:176 | The lines that `^` and `$` delimit in multi-line mode: at least one, and none contains a line break |
| `ReactAgent.WordRun` | 1-simple-react-agent/main.py:176 | The greedy `\w+`: the front of the string up to the result is all word characters, and the next character, if any, is not one |
| `ReactAgent.WordRunOf` | 1-simple-react-agent/main.py:176 | A run of word characters followed by a non-word character is matched exactly |
| `ReactAgent.MatchLine` | 1-simple-react-agent/main.py:176 | Sound: a line that matches is `Action: ` + a non-empty word run + `: ` + the rest, which are the returned groups |
| `ReactAgent.MatchLineComplete` | 1-simple-react-agent/main.py:176 | Complete: every line of that shape matches, with exactly that tool name and raw input |
| `ReactAgent.MatchLineIff` | 1-simple-react-agent/main.py:176 | A line matches with given groups if and only if it has the action-line shape with those parts |
| `ReactAgent.MissingSpaceIsNoAction` | 1-simple-react-agent/main.py:176 | `Action: foo:`, with no space after the second colon, is not an action line |
| `ReactAgent.FirstActionLine` | 1-simple-react-agent/main.py:189 | `re.search` position: the returned line matches and no earlier line does. No result means no line matches |
| `ReactAgent.ParseAction` | 1-simple-react-agent/main.py:189-198 | The directive read from a reply: group 1 of the earliest matching line, and group 2 stripped |
| `ReactAgent.ParseActionSpec` | 1-simple-react-agent/main.py:189-198 | A reply carries no directive if and only if no line matches. Otherwise the directive is the earliest matching line's tool and its stripped input |
| `ReactAgent.ParseActionFirstLine` | 1-simple-react-agent/main.py:189-198 | The earliest action line wins, whatever later lines say |
| `ReactAgent.ParseActionSingleLine` | 1-simple-react-agent/main.py:176-198 | A one-line reply `Action: name: raw` parses to `name` and `raw` stripped |
| `ReactAgent.NoActionPrefixNoAction` | 1-simple-react-agent/main.py:189-194 | A reply in which no line starts with `Action: ` is a final answer |
| `ReactAgent.Outcome.Result` | 1-simple-react-agent/main.py:194-214 | The loop's return value: the answer text, or None for an unknown tool and for a timeout |
| `ReactAgent.Loop` | 1-simple-react-agent/main.py:178-214 | One run of the loop, defined on the transcript, the input, the registry, the backend, the reader and the remaining iterations |
| `ReactAgent.LoopShape` | 1-simple-react-agent/main.py:179-214 | The agent is called at most `max_iterations` times, and never when that is `<= 0`. Each call adds one exchange and keeps earlier turns. The first input is the question. One tool runs per call, except that a run ending with an answer or an unknown tool runs none on its last call. A timeout uses the whole budget |
| `ReactAgent.LoopPrefix` | 1-simple-react-agent/main.py:184-185 | A run that calls the agent begins its transcript with the question and the first reply |
| `ReactAgent.LoopExchangeAt` | 1-simple-react-agent/main.py:183-211 | Exchange k of a run is the k-th input as a user turn, then the backend's reply to everything before it |
| `ReactAgent.LoopTranscript` | 1-simple-react-agent/main.py:183-211 | The whole transcript after a run is the list of its exchanges in order |
| `ReactAgent.LoopDirectiveAt` | 1-simple-react-agent/main.py:189-205 | Dispatch k names a registered tool and is what the reader got from reply k |
| `ReactAgent.LoopObservationAt` | 1-simple-react-agent/main.py:205-211 | The input after dispatch k is `Observation: ` + that tool's result on the directive's stripped input |
| `ReactAgent.LoopObservations` | 1-simple-react-agent/main.py:196-211 | The observation hand-off holds for every dispatch of a run |
| `ReactAgent.LoopAnswerIsLastReply` | 1-simple-react-agent/main.py:189-194 | A run that ends with an answer returns the last reply unchanged, and that reply has no directive |
| `ReactAgent.LoopUnknownToolIsLastReply` | 1-simple-react-agent/main.py:200-203 | A run that ends on an unknown tool stops at the reply that named it, and the name is not registered |
| `ReactAgent.LoopFirstReplyFinal` | 1-simple-react-agent/main.py:189-194 | A first reply without a directive is returned after one call, with no tool run |
| `ReactAgent.LoopUnknownToolStops` | 1-simple-react-agent/main.py:200-203 | A first reply naming an unregistered tool gives None at once: one call, no tool run, no further call |
| `ReactAgent.LoopActs` | 1-simple-react-agent/main.py:205-211 | A reply naming a registered tool runs it, and the loop continues with its observation and one iteration fewer |
| `ReactAgent.LoopTimeout` | 1-simple-react-agent/main.py:179-214 | With a backend whose every reply names a registered tool, the loop uses all its iterations, runs one tool per call and returns None |
| `ReactAgent.Drive` | 1-simple-react-agent/main.py:178-214 | The `while` loop, for any reader: its result and the agent's new transcript are those of `Loop`, and the agent invariant is kept |
| `ReactAgent.Round` | 1-simple-react-agent/main.py:183-211 | One iteration with budget left. The transcript always gains the input and the backend's reply to it. It continues only when the reply's directive names a registered tool, and the next input is `Observation: ` followed by that tool's result on the directive's input. When it stops, the result and transcript are those of `Loop`; when it continues, `Loop` from the new transcript and observation with one iteration fewer ends as the whole run does |
| `ReactAgent.RunAgentLoop` | 1-simple-react-agent/main.py:165-214 | `run_agent_loop`: it returns `Loop(...).outcome.Result()` with the regex reader, and leaves the agent's transcript as `Loop` says |
| `TravelTools.AvailableToolsRegistry` | 1-simple-react-agent/main.py:117-121 | `available_tools` (the constant `AVAILABLE_TOOLS`) maps exactly `check_weather`, `search_hotels` and `get_attractions` to those tools. Any other name, such as `book_flight`, is unregistered, so `LoopUnknownToolStops` applies to it |
| `TravelTools.CheckWeather` | 1-simple-react-agent/main.py:90-93 | `"<city>: <weather or 'City not found'>"` |
| `TravelTools.CheckWeatherFound` | 1-simple-react-agent/main.py:90-93 | The report says `City not found` exactly for cities missing from the weather table |
| `TravelTools.CheckWeatherParis` | 1-simple-react-agent/main.py:68-93 | The table value for Paris is what the tool reports |
| `TravelTools.HotelQuery` | 1-simple-react-agent/main.py:97-99 | The city is the stripped first comma field. The budget is the stripped second field, or `mid` |
| `TravelTools.HotelQueryFields` | 1-simple-react-agent/main.py:97-99 | The city comes from the text before the first comma. The budget comes from the text between the first and second commas |
| `TravelTools.HotelQueryDefaultBudget` | 1-simple-react-agent/main.py:97-99 | Without a comma, the whole argument stripped is the city and the budget is `mid` |
| `TravelTools.HotelQueryOf` | 1-simple-react-agent/main.py:95-99 | The documented form `<city>, <budget>` reads back as exactly that city and budget |
| `TravelTools.SearchHotels` | 1-simple-react-agent/main.py:95-105 | The `search_hotels` answer text for every argument |
| `TravelTools.SearchHotelsIgnoresExtraFields` | 1-simple-react-agent/main.py:97-99 | Fields after the second comma do not change the answer |
| `TravelTools.SearchHotelsUnknownCity` | 1-simple-react-agent/main.py:101-102 | An unknown city gives `No hotels found for <city>`, whatever the budget |
| `TravelTools.SearchHotelsUnknownBudget` | 1-simple-react-agent/main.py:104-105 | A known city with an unlisted budget level gives an empty hotel list |
| `TravelTools.SearchHotelsListing` | 1-simple-react-agent/main.py:95-105 | A well-formed request for a listed city and level gives that level's hotels, joined by `, `, after the title-cased level |
| `TravelTools.GetAttractions` | 1-simple-react-agent/main.py:107-114 | The attractions table entry, or `No attractions data for <city>` |
| `TravelTools.GetAttractionsFound` | 1-simple-react-agent/main.py:107-114 | The fallback sentence is given exactly for cities missing from the table |
| `Text.TrimStart` | 1-simple-react-agent/main.py:98-99 | `lstrip` never lengthens |
| `Text.TrimStartSpec` | 1-simple-react-agent/main.py:98-99 | `lstrip` removes a prefix made only of white space and keeps a suffix that does not start with white space |
| `Text.TrimEnd` | 1-simple-react-agent/main.py:98-99 | `rstrip` never lengthens |
| `Text.TrimEndSpec` | 1-simple-react-agent/main.py:98-99 | `rstrip` removes a suffix made only of white space and keeps a prefix that does not end with white space |
| `Text.Strip` | 1-simple-react-agent/main.py:98-99 | `strip` never lengthens |
| `Text.StripTrimmed` | 1-simple-react-agent/main.py:98-99 | The result of `strip` neither starts nor ends with white space |
| `Text.StripPadded` | 1-simple-react-agent/main.py:98-99 | Stripping removes exactly the white-space padding around a trimmed core |
| `Text.StripIdentity` | 1-simple-react-agent/main.py:198 | `strip` leaves a string unchanged if and only if it is already trimmed |
| `Text.StripIdempotent` | 1-simple-react-agent/main.py:198 | Stripping twice is stripping once |
| `Text.Split` | 1-simple-react-agent/main.py:97 | `split(sep)`: at least one piece, no piece contains the separator, and a string without the separator is one piece |
| `Text.SplitCons` | 1-simple-react-agent/main.py:97 | The first piece is everything before the first separator |
| `Text.JoinSplit` | 1-simple-react-agent/main.py:97 | Joining the pieces with the separator gives the string back |
| `Text.Join` | 1-simple-react-agent/main.py:105 | `sep.join(parts)` |
| `Text.SplitJoin` | 1-simple-react-agent/main.py:105 | Splitting a join of separator-free pieces gives the pieces back |
| `Text.Title` | 1-simple-react-agent/main.py:105 | `title` keeps the length |
| `Text.TitleAfter` | 1-simple-react-agent/main.py:105 | Title-casing keeps the length and keeps letters as letters, position by position |
| `Text.TitleIdempotent` | 1-simple-react-agent/main.py:105 | Title-casing a title-cased string changes nothing |
| `Reflection.Prompt` | 03-reflection/main.py:14-25 | What a chain sends: its system instruction, then the messages |
| `Reflection.SwapRoles` | 03-reflection/main.py:37-38 | The `cls_map` comprehension. It fails when a type has no entry |
| `Reflection.SwapRolesSpec` | 03-reflection/main.py:37-38 | The swap succeeds if and only if every message is `ai` or `human`. It then keeps length, order and contents, and flips each type |
| `Reflection.Translate` | 03-reflection/main.py:38 | `[msgs[0]] + swapped msgs[1:]`. It fails on an empty list or a failed swap |
| `Reflection.TranslateSpec` | 03-reflection/main.py:37-38 | The translation succeeds if and only if the list is non-empty and every later message is `ai` or `human`. It then has the same length, keeps the first message unchanged, and flips ai and human on every later message with content and order kept |
| `Reflection.SwapRolesInvolution` | 03-reflection/main.py:37 | Swapping twice restores the messages |
| `Reflection.TranslateInvolution` | 03-reflection/main.py:37-38 | Translating a translation restores the original list, types included |
| `Reflection.TranslateRejectsSystem` | 03-reflection/main.py:37-38 | A `system` message after the first makes the translation fail |
| `Reflection.TranslateRejectsEmpty` | 03-reflection/main.py:38 | The empty list cannot be translated |
| `Reflection.GenerationNode` | 03-reflection/main.py:27-30 | The update is exactly one AI message |
| `Reflection.CritiqueNode` | 03-reflection/main.py:32-44 | The update is exactly one human message, and it exists exactly when the translation succeeds |
| `Reflection.ShouldContinue` | 03-reflection/main.py:46-51 | END if and only if there are more than 3 messages, otherwise `critique` |
| `Reflection.Next` | 03-reflection/main.py:59-61 | The declared edges: the conditional edge after generate, and critique to generate |
| `Reflection.Execute` | 03-reflection/main.py:55-63 | A graph run from a node: run it, append its update, and follow the edges until END or a failed node |
| `Reflection.Stream` | 03-reflection/main.py:59-69 | A run from the entry node, generate |
| `Reflection.ExecuteRound` | 03-reflection/main.py:27-61 | Below the stop rule, one generate and critique round appends an AI and then a human message, keeps the history translatable, and the run continues from generate |
| `Reflection.ExecuteFromGenerate` | 03-reflection/main.py:46-61 | From generate, on a translatable history, the run never fails and alternates generate and critique, each adding one message (AI, then human). Generate runs `Generations(n)` times, and the run stops with more than 3 messages |
| `Reflection.StreamFails` | 03-reflection/main.py:37-61 | A run fails if and only if a critique runs (fewer than 3 input messages) on a history with a later message that is neither ai nor human |
| `Reflection.StreamFromOneRequest` | 03-reflection/main.py:67-69 | From one human request: generate, critique, generate, END, with 4 messages (the request, AI, human, AI) |
| `Reflection.StreamCriticSees` | 03-reflection/main.py:36-41 | In that run the critic sees the request and the first post both as human messages |
| `Reflexion.Gathered` | 04-reflexion/main.py:66-69 | The results the searches for a query list contribute |
| `Reflexion.GatheredConcat` | 04-reflexion/main.py:66-69 | The results of two query lists come one after the other, in query order |
| `Reflexion.GatheredFirst` | 04-reflexion/main.py:66-69 | The first query's results come first, in result order |
| `Reflexion.Researched` | 04-reflexion/main.py:65-71 | A research node's state update: the sources become the old ones followed by `Gathered` over the planner's queries, and nothing else changes |
| `Reflexion.ResearchPlanUpdate` | 04-reflexion/main.py:58-71 | `research_plan_node`'s update: queries generated from the topic |
| `Reflexion.ResearchCritiqueUpdate` | 04-reflexion/main.py:97-110 | `research_critique_node`'s update: queries generated from the feedback |
| `Reflexion.GatherSources` | 04-reflexion/main.py:65-71 | The nested append loops leave the old sources followed by every result, in query order and then result order |
| `Reflexion.ResearchPlanNode` | 04-reflexion/main.py:58-71 | `research_plan_node` appends the results for the queries generated from the topic and changes nothing else |
| `Reflexion.ResearchCritiqueNode` | 04-reflexion/main.py:97-110 | `research_critique_node` appends the results for the queries generated from the feedback and changes nothing else |
| `Reflexion.ResearchKeepsSources` | 04-reflexion/main.py:65-71 | A research node never removes or reorders sources. The new ones follow them, and no other field changes |
| `Reflexion.PlanNode` | 04-reflexion/main.py:49-56 | `plan_node` sets the outline to the model's answer for the topic |
| `Reflexion.Context` | 04-reflexion/main.py:75 | The writer's context: no sources give the empty string, and one source gives itself |
| `Reflexion.ContextSplits` | 04-reflexion/main.py:75 | When no source has a line break, the context's lines are the sources with one empty line between neighbours |
| `Reflexion.WriteRequest` | 04-reflexion/main.py:77-80 | What the writer sends: the template with the context, then the topic and the outline |
| `Reflexion.WriteNode` | 04-reflexion/main.py:73-86 | The new iteration count is the old one plus one, with a missing one read as 0. Only the draft and the count change |
| `Reflexion.ReviewNode` | 04-reflexion/main.py:88-95 | `review_node` sets the feedback to the model's critique of the draft |
| `Reflexion.ShouldContinue` | 04-reflexion/main.py:112-116 | END if and only if `iteration > total_iterations`, otherwise `review` |
| `Reflexion.Successor` | 04-reflexion/main.py:128-133 | The fixed edges: plan to research_plan to write, and review to research_critique to write |
| `Reflexion.FromWrite` | 04-reflexion/main.py:128-133 | A run from write: write, then END or review, research_critique and write again |
| `Reflexion.Stream` | 04-reflexion/main.py:126-133 | A run from the entry node, plan |
| `Reflexion.RoundsCount` | 04-reflexion/main.py:130-133 | n review rounds hold n reviews, n critique searches and n writes |
| `Reflexion.FromWriteShape` | 04-reflexion/main.py:83-133 | From write with count i and total t, write runs `max(1, t - i + 1)` times, with a review round between each two. The final count is i plus that, and it exceeds t. Sources only grow |
| `Reflexion.RunTraceCounts` | 04-reflexion/main.py:126-133 | Counting nodes in the trace `plan, research_plan, write, (review, research_critique, write)*` |
| `Reflexion.StreamTrace` | 04-reflexion/main.py:83-133 | A whole run's trace is plan, research_plan, write and then `max(1, t - i + 1) - 1` review rounds. The final count is i plus the number of writes. The input sources stay a prefix |
| `Reflexion.StreamSteps` | 04-reflexion/main.py:126-133 | A whole run takes `3 * max(1, t - i + 1)` node steps |
| `Reflexion.StreamCounts` | 04-reflexion/main.py:83-133 | A whole run: plan and research_plan run once. Write runs `max(1, t - i + 1)` times, and review and research_critique one fewer. The final count is i plus the number of writes |
| `Reflexion.ShippedRun` | 04-reflexion/main.py:139-147 | Any inputs with `iteration = 1` and `total_iterations = 2`, under any oracles: plan, research_plan, write, review, research_critique, write. Write runs twice, review once, and the final count is 3 |
| `Reflexion.ShippedStream` | 04-reflexion/main.py:139-147 | The shipped inputs themselves give that trace and a final count of 3 |

## Left out

- **Oracles.** The model's remote calls are fixed functions:
  - The chat-completion call in `Agent.execute`.
  - `model.invoke`, `with_structured_output(Queries)` and `tavily.search`.
  - The model name, the temperature, API failures and the `max_results=2`
    cap are not modelled. Neither is the parsing of structured output.
- **Printing and setup.** The model has no printing. It also leaves out
  `load_dotenv` and the construction of the API clients.
- **The two scripts' top-level runs.** The concrete runs depend on what the
  model answers, so only the general lemmas cover them. These runs are:
  - `run_agent_loop(question, travel_agent, available_tools)` in the ReAct
    script.
  - `graph.stream`'s printed events in the graph scripts.
- **Word characters.** `ReactAgent.IsWordChar` treats only ASCII letters,
  digits and `_` as word characters. Python's `\w` also accepts non-ASCII
  letters and digits, so a non-ASCII tool name does not match here.
- **Title-casing.** `Text.Title` title-cases ASCII letters only. Non-ASCII
  letters are kept as they are, and `Text.TitleAfter` also treats them as
  word breaks. Python's `str.title` counts them as cased letters, so
  `"éLITE".title()` is `"Élite"` while `Text.Title` gives `"éLite"`.
- **Message fields.** `Reflection.Message` carries only the type and the
  content. Message ids, names and metadata are not modelled.
  - The `add_messages` reducer is modelled as appending. Replacing a message
    by id does not arise, because every node creates fresh messages.
- **Missing sources.** `Reflexion.WriterState` always holds a `sources`
  list, as its declared type says. A `None` value, which `or []` in
  `write_node` would absorb, is not modelled.
- **In-place updates.** `Reflexion.GatherSources` builds the new list as a
  value. The source appends to the very list object held in the state and
  returns that object. The graph then stores it as the new value, so the
  final contents are the same. The aliasing itself is not modelled.
- Reflexion.ShouldContinue requires the iteration count to be present.
  The source reads it with `state['iteration']`, which raises `KeyError`
  when the count is missing. It is always present after `write_node`.
- **Default arguments.** `ReactAgent.RunAgentLoop` takes `maxIterations`
  as a required parameter; the default `max_iterations=10` is not modelled.
  `ReactAgent.Agent.constructor` takes the system text as a required
  parameter; the default `system=""` is not modelled. Passing `10` or `""`
  gives the default behaviour.
- Reflexion.Stream has no step limit. `graph.stream(inputs, thread)` runs
  under LangGraph's default recursion limit of 25 steps and raises
  `GraphRecursionError` beyond it. A run takes `3 * max(1, t - i + 1)` steps
  (`Reflexion.StreamSteps`), so `Reflexion.FromWriteShape`,
  `Reflexion.StreamTrace` and `Reflexion.StreamCounts` describe the program
  only while that is at most 25, that is while `t - i <= 7`. The shipped run
  takes 6 steps.
- **Checkpointing.** `MemorySaver`, the thread configuration and
  `graph.get_state` are not part of this model.
- **Unmodelled files.** `02-building-with-langgraph/main.py` and
  `simple-react-agent/main.py` are not part of this model. Their only logic
  is API calls, printing and library-provided memory. The commented-out
  examples in `1-simple-react-agent/main.py` are left out too.
