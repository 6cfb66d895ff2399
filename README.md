# open-operator agent step protocol in Dafny

This project models how open-operator runs one agent turn: build the context for the language model, get a decision, run the chosen browser tool, append the step, and decide whether to go on. Three pieces of the repository are modelled, each in both of the versions it ships in.

- **Decision context.** This is `sendPrompt` in `backend/llm.ts` (current server) and in `llm.ts` (older server).
  - The prompt text renders the goal and the numbered history (module `Prompt`).
  - The current server attaches a screenshot only once some earlier step used GOTO. The older server always attaches one.
  - A previous extraction or observation is reported in a labelled text part.
  - The result carries the history with the new decision appended (modules `Llm` and `LegacyLlm`).
  - The language model is an oracle, `Decide`. It yields a `Decision` whose tool is one of the seven values of `Steps.Tool`, or one of the five of `LegacyDecision` for the older server, or an error.
- **Tool dispatch.** This is `runStagehand` in `backend/execute.ts` (module `Execute`) and `execute.ts` (module `LegacyExecute`).
  - The Stagehand instance is `Automation.Stagehand`, a class that logs every call made on it in `effects`.
  - The remote side is an oracle, `World`, which answers the n-th call on an instance with a value or an error.
  - Each dispatcher is an imperative method proved equal to a pure `Outcome` function. That function gives the result and the full trace of calls.
  - The lemmas count calls on those traces, above all calls to `close`.
- **Client-side history.** This is `runAgentLoop` and `initializeSession` of `StagehandSession.tsx` (module `Session`), and the `startAgentLoop` state update of `ChatFeed.tsx` (module `Feed`).
  - Both components are classes whose fields are the React state.
  - Server answers are given as `Api.AgentReply` values. For the recursive loop they are a script of answers.

Helper modules:
- `Wrappers`: `Option` and `Result`.
- `Text`: decimal rendering of numbers, `Array.prototype.join`, and occurrence of a piece of text at a position.
- `Steps`: the decision and displayed-step records, and the append shared by both clients.

Four behaviours of the code as written, each stated by a member below:
- An observation (an array of `ObserveResult` objects) goes into the template literal as `"[object Object]"` once per element, joined by commas. `Prompt.ObservationReportIgnoresItems` shows that the model never sees the observed actions themselves, only how many there were.
- `runAgentLoop` has no step budget (`StagehandSession.tsx:47-50`). `Session.NoBudget` shows that answers which are all successes without CLOSE never end the run, however many there are.
- In `ChatFeed.tsx` the auto-start effect (lines 87-91) tests the `steps` state, which is never written, so its condition never changes. `Feed.ChatFeed.StartAgentLoop` keeps `AutoStart()` unchanged.
- The effect also depends on `startAgentLoop`, whose dependencies include `agentState.steps` (line 86). Every success changes those steps (`Feed.SuccessChangesSteps`), a CLOSE decision included, while the condition still holds. So every successful round trip is followed by another; `ChatFeed` never tests for CLOSE.

The prompt text of `llm.ts:30-49` is the same, character for character, as that of `backend/llm.ts:30-49`. Both `sendPrompt` models therefore share `Prompt.PromptText`, and the rendering lemmas below apply to both versions.

## Model

| member | source | states |
|---|---|---|
| Prompt.StepRendered | backend/llm.ts:32-46 | for every index i of the history, block i (the step numbered i + 1) appears unchanged inside the prompt text, starting at `BlockStart(goal, steps, i)` |
| Prompt.BlocksInOrder | backend/llm.ts:35-45 | block i + 1 starts exactly one character after block i ends, and that character is the `"\n"` of `join("\n")`, so the blocks appear in history order, separated by newlines |
| Prompt.StepFields | backend/llm.ts:37-43 | inside the block of step n, the decimal step number sits right after "\nStep ", and the text, reasoning, tool name and instruction each sit right after their own label ("\n- Action: " and so on), in that order; only the closing newline follows the instruction |
| Prompt.StepNumberReadable | backend/llm.ts:38 | the digits after "Step " end at a colon and parse back to n, so each block names its step number unambiguously |
| Prompt.HistoryHeadingPresent | backend/llm.ts:31-34 | with a non-empty history the "\nPrevious steps taken:\n" heading directly follows the goal line |
| Prompt.EmptyHistoryOmitted | backend/llm.ts:31-49 | the history section is empty if and only if the history is empty; with an empty history the prompt is just the goal line followed by the closing instructions |
| Prompt.SomeGotoExists | backend/llm.ts:56 | `some(step => step.tool === "GOTO")` holds exactly when some index of the history holds a GOTO step |
| Prompt.WantsScreenshotIffNavigated | backend/llm.ts:53-57 | a screenshot is wanted exactly when some earlier step used GOTO; the length test is implied |
| Prompt.ExtractionParts | backend/llm.ts:67-74 | a truthy previous extraction adds exactly one text part and a falsy one adds none; the part opens with the "observation" label for an array and the "extraction" label otherwise |
| Prompt.ReportsTellKindApart | backend/llm.ts:70-72 | no observation report equals any extraction report, whatever the extracted string: the label says which kind of value came back |
| Prompt.ObservationReportIgnoresItems | backend/llm.ts:70-72 | two observations of the same length give the same report, whatever actions they list |
| Prompt.Content | backend/llm.ts:27-74 | the content array holds the prompt text first, the image second when there is one, and the extraction report last when there is one; no other part is an image |
| Llm.Message | backend/llm.ts:27-74 | in a built message, the only image part sits at index 1, and it is there exactly when the history navigated; a message fails only when it needed the screenshot |
| Llm.SendPrompt | backend/llm.ts:16-122 | the method builds exactly `Message`'s content and calls SCREENSHOT only when wanted; it answers `decide(content)` with the history extended by exactly that decision; a screenshot failure is propagated and the model is not asked |
| Llm.Answered | backend/llm.ts:119-122 | a decision yields `{result, previousSteps: [...previousSteps, result]}`; a model error propagates unchanged; it is generic in the decision type, so the older server (`llm.ts:103-106`, with the five-tool decisions) uses the same member |
| LegacyLlm.Message | llm.ts:27-67 | a built message always has the screenshot at index 1 and no other image part |
| LegacyLlm.ScreenshotAlways | llm.ts:51-57 | whatever the history, even with no navigation, a working session yields a message whose second part is the screenshot |
| LegacyLlm.SendPrompt | llm.ts:16-106 | the method always calls SCREENSHOT first and builds exactly `Message`'s content; the returned history is the input followed by the decision, whose tool is one of the five legacy tools |
| Steps.AppendStep | frontend/app/components/StagehandSession.tsx:39-45 | the updater appends exactly the decision, keeps the old steps as a prefix, and numbers the new step `prev.length + 1` unconditionally, so steps stay numbered 1..n |
| Steps.AppendAllExtends | frontend/app/components/StagehandSession.tsx:38-50 | any run of appends lengthens the list by the number of decisions, keeps the old steps, adds the decisions in order, and keeps the numbering 1..n |
| Steps.ToolNameInjective | backend/llm.ts:41 | different tools render under different names in the history |
| Text.ParseNatToString | backend/llm.ts:38 | the rendered step number reads back as the number itself |
| Text.JoinAt | backend/llm.ts:35-45 | every element of a `join` appears unchanged at its offset, and each next offset lies one separator beyond the end of the element before it |
| Text.JoinSep | backend/llm.ts:35-45 | between neighbouring elements of a `join` stands the separator itself |
| Text.JoinFramed | backend/llm.ts:30-49 | inside a join placed after a heading and framed by other text, every element sits at its offset shifted by the lengths of the text before it |
| Text.JoinFramedSep | backend/llm.ts:30-49 | in the same frame, the separator follows every element but the last, and the next element begins right after it |
| Execute.RunStagehand | backend/execute.ts:4-77 | the switch returns exactly `Outcome(...).0` and makes exactly the calls `Outcome(...).1` |
| Execute.InitFailureSkipsCleanup | backend/execute.ts:21-29 | every run starts with `init()`; a failed `init()` is thrown before the `try`, with no other call and in particular no close |
| Execute.ExactlyOneBranch | backend/execute.ts:30-72 | once started, the second call is the method's own primitive, followed at most by the cleanup close |
| Execute.CommandSelectsMethod | backend/execute.ts:30-72 | different methods never make the same primitive call |
| Execute.PrimitiveArguments | backend/execute.ts:31-71 | GOTO passes `waitUntil: "domcontentloaded"` and timeout 60000; OBSERVE passes `useAccessibilityTree: true`; ACT and EXTRACT pass the instruction; CLOSE, SCREENSHOT and NAVBACK call their primitive without arguments |
| Execute.CloseOnFailure | backend/execute.ts:73-76 | a failure inside the `try` comes from the method's primitive; it is followed by one `close()` and rethrown with the same error unless the close fails too |
| Execute.CloseCount | backend/execute.ts:53-76 | the number of closes is 0 after a failed start, otherwise 1 for CLOSE plus 1 for a failure inside the `try`, so a successful CLOSE closes exactly once |
| Execute.WaitTouchesNoPage | backend/execute.ts:63-67 | once started, WAIT makes no page call, only the timer, and cannot fail |
| Execute.ReturnValues | backend/execute.ts:42-61 | only EXTRACT, OBSERVE and SCREENSHOT resolve to a value, namely the answer of their call; every other method resolves to `undefined` |
| LegacyExecute.RunStagehand | execute.ts:4-50 | the chain of `if`s returns exactly `Outcome(...).0` and makes exactly the calls `Outcome(...).1` |
| LegacyExecute.CommandKnowsSixMethods | execute.ts:10-49 | exactly the six listed method names select a call; WAIT and NAVBACK are not among them |
| LegacyExecute.OnlyMatchingBranch | execute.ts:22-49 | only the matching `if` makes a call; an unknown name only starts the instance and resolves to `undefined` |
| LegacyExecute.PrimitiveArguments | execute.ts:22-48 | each of the six methods leaves the trace `init` followed by its own primitive, with GOTO waiting for `domcontentloaded` for at most 60000 ms |
| LegacyExecute.NoCleanupOnFailure | execute.ts:22-49 | the only close ever made is the one CLOSE asks for, and a failing primitive propagates its own error |
| LegacyExecute.ReturnValues | execute.ts:17-49 | for any method name, a successful run resolves to the call's answer for EXTRACT, OBSERVE and SCREENSHOT, and to `undefined` for GOTO, ACT, CLOSE and any name no branch matches |
| Session.Consumed | frontend/app/components/StagehandSession.tsx:47-53 | a run reads the answers up to and including the first one that stops it; every answer before that one is a success with a tool other than CLOSE |
| Session.RunShape | frontend/app/components/StagehandSession.tsx:38-56 | a run appends the decision of every answer it reads, except a final failure; that failure sets `error` to the server's message, or to "Error in agent loop" if the call threw |
| Session.RequestsFollowServer | frontend/app/components/StagehandSession.tsx:26-49 | one request is sent per answer read; the first carries the caller's history and each later one carries the `steps` the server returned last |
| Session.RunUnfolds | frontend/app/components/StagehandSession.tsx:38-50 | a successful answer first appends its decision, then the run goes on with the rest of the answers unless the decision is CLOSE |
| Session.NoBudget | frontend/app/components/StagehandSession.tsx:47-50 | answers that are all successes without CLOSE, however many, never end the run: the loop always asks for one more |
| Session.StagehandSession.constructor | frontend/app/components/StagehandSession.tsx:12-16 | the component starts with no session, no steps, no error, and not loading |
| Session.StagehandSession.RunAgentLoop | frontend/app/components/StagehandSession.tsx:18-59 | the recursive loop leaves the steps, requests and error that `RunDecisions`, `RunRequests` and `RunError` give; `loading` is false afterwards, the session fields are untouched, and steps stay numbered 1..n |
| Session.StagehandSession.InitializeSession | frontend/app/components/StagehandSession.tsx:62-78 | a created session is stored and the loop runs with the initial prompt and an empty history; a refused or failed creation only sets the error and never starts the loop |
| Session.StartSession | frontend/app/components/StagehandSession.tsx:61-81 | a fresh component shows exactly the run's decisions as steps 1..n, and its first request has an empty history; it sends nothing when the session is not created |
| Feed.Updated | frontend/app/components/ChatFeed.tsx:68-79 | the updater overwrites `sessionId` and `sessionUrl` from the response and appends exactly one step numbered `prev.steps.length + 1`; nothing else changes |
| Feed.ChatFeed.constructor | frontend/app/components/ChatFeed.tsx:34-47 | the component starts with an empty agent state that is not loading |
| Feed.ChatFeed.StartAgentLoop | frontend/app/components/ChatFeed.tsx:49-86 | the request carries the current `agentState.steps` and `sessionId`; a success applies `Updated`; a failure or a throw leaves `agentState` unchanged; `isLoading` is false afterwards; `steps` and the auto-start condition do not change |
| Feed.FoldKeepsNumbering | frontend/app/components/ChatFeed.tsx:67-79 | over any number of round trips the steps are exactly the successful decisions, numbered 1..n, and `agentState.isLoading` never changes |
| Feed.SuccessChangesSteps | frontend/app/components/ChatFeed.tsx:67-91 | every success, CLOSE included, changes `agentState.steps`, the dependency of `startAgentLoop` and so of the auto-start effect |
| Prompt.StepBlock | backend/llm.ts:37-43 | definition: the template of one step, "\nStep n:\n- Action: …\n- Reasoning: …\n- Tool Used: …\n- Instruction: …\n", filled from the decision |
| Prompt.StepBlocks | backend/llm.ts:35-44 | definition: the `map` over the history, block i numbered i + 1 |
| Prompt.HistorySection | backend/llm.ts:31-47 | definition: the heading and the blocks joined by newlines when the history is non-empty, otherwise the empty string |
| Prompt.PromptText | backend/llm.ts:30-49 | definition: the goal line, the history section and the closing instructions, in that order |
| Prompt.SomeGoto | backend/llm.ts:56 | definition: `previousSteps.some(step => step.tool === "GOTO")` as recursion over the history |
| Prompt.WantsScreenshot | backend/llm.ts:54-57 | definition: the guard of the screenshot branch, a length test and `some` |
| Prompt.Truthy | backend/llm.ts:67 | definition: JavaScript truthiness of `previousExtraction`, where `undefined` and "" are falsy and every array is truthy |
| Prompt.JsString | backend/llm.ts:70-72 | definition: `${previousExtraction}`, a string as itself and an array of objects as "[object Object]" per element joined by commas |
| Prompt.ExtractionText | backend/llm.ts:70-72 | definition: the report, with the "observation" label for an array and the "extraction" label otherwise |
| Execute.Command | backend/execute.ts:30-72 | definition: the one primitive call each `case` makes, with its arguments |
| Execute.Returned | backend/execute.ts:42-61 | definition: what a successful case resolves to, the answer for EXTRACT, OBSERVE and SCREENSHOT and `undefined` otherwise |
| Execute.Outcome | backend/execute.ts:21-76 | definition: result and trace of one call; `init` first, then the primitive, then one cleanup close and a rethrow if the primitive failed |
| LegacyExecute.Command | execute.ts:22-48 | definition: the call each of the six `if`s makes, and none for any other name |
| LegacyExecute.Outcome | execute.ts:17-49 | definition: result and trace of one call; `init`, then the matching primitive, whose failure propagates without cleanup |
| Session.RunDecisions | frontend/app/components/StagehandSession.tsx:38-53 | definition: the decisions a run appends, one per success up to and including a CLOSE, none for a failure |
| Session.RunRequests | frontend/app/components/StagehandSession.tsx:26-49 | definition: the requests a run sends, the first with the caller's history and each later one with the server's last `steps` |
| Session.RunError | frontend/app/components/StagehandSession.tsx:47-56 | definition: the error a run leaves, the server's message for a failure and "Error in agent loop" for a throw |
| Steps.AppendAll | frontend/app/components/StagehandSession.tsx:38-50 | definition: one `setSteps` append per decision, in order |
| Feed.Fold | frontend/app/components/ChatFeed.tsx:49-86 | definition: the agent state after one `startAgentLoop` per response, in order |
| Feed.Successes | frontend/app/components/ChatFeed.tsx:67-79 | definition: the decisions of the successful responses, in order |
| Text.NatToString | backend/llm.ts:38 | a non-empty run of decimal digits without a leading zero, the rendering of `${index + 1}` |
| Text.Join | backend/llm.ts:35-45 | definition: `Array.prototype.join`, the elements in order with the separator between neighbours, and "" for no elements |
| Text.JoinLength | backend/llm.ts:35-45 | a join ends with its last element: nothing follows it |
| Session.Stops | frontend/app/components/StagehandSession.tsx:38-53 | definition: the rule that ends the loop, a response that is not a success or whose tool is CLOSE; any other response makes the loop call itself again |
| Feed.Truthy | frontend/app/components/ChatFeed.tsx:88 | definition: `initialMessage` as a condition, present and not the empty string |
| Feed.ChatFeed.AutoStart | frontend/app/components/ChatFeed.tsx:87-91 | definition: the condition of the auto-start effect, `initialMessage && !steps.length`, which reads the `steps` state and not `agentState.steps` |
| Steps.ToolName | backend/llm.ts:41 | definition: `${step.tool}`, the enumeration literal of the tool as it appears in the schema |

## Left out

- The language model call (`generateObject`, the `openai("gpt-4o")` client, the schema descriptions) is the `Decide` oracle. The oracle is held only to the tool enumeration: seven tools for the current server, five for the older one.
- Stagehand, Playwright and CDP are the `World` oracle and the call log of `Automation.Stagehand`. The two CDP steps of SCREENSHOT are modelled as one call. The extraction and screenshot answers stand for the `extraction` and `data` fields of the results.
- WAIT: the `Number(instruction)` conversion and the real timer are not modelled. The requested duration is kept as the raw instruction in the `Sleep` entry of the trace.
- Exceptions are `Failure` values. A rejected `fetch` or `response.json()` is the `Thrown` answer.
- Step budgets, cancellation and schema violations are not modelled. The shown code has none of them.
- Session.StagehandSession.RunAgentLoop, Session.StagehandSession.InitializeSession, Session.StartSession: each requires that the scripted answers end the run (`EndsRun`), the last two only for a created session. The source has no step budget: it keeps recursing for as long as the server answers with successes other than CLOSE. `Session.NoBudget` states that behaviour, but these contracts do not cover such endless runs. In the source, `initializeSession` does not await `runAgentLoop` (`StagehandSession.tsx:71`), so it returns even when the run never ends. Only this model's sequential reading, in which the session call includes the whole run, needs the requirement.
- Feed.ChatFeed.StartAgentLoop: only the state after the call is stated. Its effect on what the UI shows during the call is not. `isLoading` being true while the request is in flight is visible only in the method body.
- React semantics are not modelled: state batching, effect re-runs, and the `useCallback` dependency lists. Each update is applied at once, in program order, and one call of a component method is one sequential step.
- The `messages` state and every rendering and animation part of `ChatFeed.tsx` and `StagehandSession.tsx` are not modelled.
- `backend/server.ts`, `frontend/app/api/agent/start/route.ts`, `app/api/session/route.ts`, `bb.ts`, `index.ts`, `app/page.tsx`, `frontend/app/layout.tsx` and `app/middleware.ts` are not part of this model. They are transport, SDK wrappers, a stale loop, or UI. The `/api/agent` route that answers the clients is not in the repository files either; its answers are the `AgentReply` values.
- Llm.SendPrompt: on a screenshot failure, the method also returns the content built so far (the prompt text alone). The JavaScript function throws and never exposes it.
- LegacyLlm.SendPrompt: on a screenshot failure the content is empty. The failing screenshot is awaited while the array literal is still being built.
