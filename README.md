# Recipe assistant: a verified model of its state machine and helpers

This project is a Dafny model of the recipe assistant. In that application a Next.js chat
front end talks to a Python back end that asks a language model for recipes. Four parts are
modelled:

- **The application store.** `AppState` (module `AppState`) holds two tab sessions (`text`,
  `image`) and the global UI slice. `AppReducer.Step` is `appReducer`, case by case.
  `AppReducer.Run` folds it over a sequence of dispatched actions.
- **The orchestration hooks and page handlers.** The hooks are `useChat`, `useProgress`,
  `useRecipe` and `useImageRecognition`; the page handlers live in both `page.tsx` files.
  - Each becomes a method on `Store.AppStore`, a class that holds:
    - the current state;
    - a log of what was done (dispatches, requests, sleeps, queued chat replies);
    - the callbacks queued with `setTimeout`.
  - Every method is proved against a trace function. That function gives its whole log, the
    state reached (`Run` over the log's actions) and the timers left queued.
  - What the back end answers is a parameter, an `Outcome`.
  - How far the unawaited progress simulation got before the reply is also a parameter,
    `ticksBeforeReply`. The rest of the simulation stays queued.
- **The intent classifier.**
  - `Intent.Fallback` is `isRecipeRequestFallback`: 13 regular expressions, modelled as a
    `Pattern` datatype with a declarative `Matches`. An executable scanner is proved equivalent
    to `Matches`.
  - `Intent.IsRecipeRequest` is the endpoint-or-fallback decision.
- **The back-end helpers.** Each error path is modelled as a `Result` carrying the Python
  exception:
  - requirement validation and defaulting (`Requirements`);
  - the generator's guard and constraint list (`RecipePrompt`);
  - the agent's error wrapping (`RecipeAgent`);
  - the optimizer's prompt fields and context window (`OptimizerPrompt`);
  - the image prompt and its style choice (`ImagePrompt`);
  - the vision analyzer's envelopes, brace-span fallback, ingredient text and MIME type
    (`Vision`).

Shared vocabulary lives in `Common` (option and outcome types), `Json` (decoded values, lookup
where the last binding wins, Python and JavaScript truthiness), `Python` (dicts, exceptions,
`str()`, f-string evaluation, `in`) and `Text`. `Text` covers JavaScript `trim`, Python `strip`,
`join`, containment, decimal rendering, ASCII lower-casing and `split(...)[-1]`.

Three parts of the source are handled differently from what a reader might expect:

- The old-layout page repeats the modern page's handlers and classifier. Only the intent URL
  differs, so one `Page` module models both, and the table cites both files.
- `backend/parser.py` and `generator.py` have earlier copies inside `main.py`. Their validation
  and constraint logic are the same, and the same members cite both.
- The off-topic optimization reply dispatches `RECIPE_OPTIMIZATION_ERROR` with an empty-string
  error, not `null`. The model follows the code (`RecipeHooks.OptimizeOffTopic`).

## Model

| member | source | states |
|---|---|---|
| AppState.OtherTab | frontend/src/types/appState.ts:5 | the other tab differs from the given one |
| AppState.TwoTabs | frontend/src/types/appState.ts:5 | `TabType` has exactly the two values `image` and `text`; `OtherTab` is an involution |
| AppState.WithSession | frontend/src/types/appState.ts:8-25 | replacing one tab's shared session fields leaves the other tab, the active tab, the UI and the tab-specific fields unchanged |
| AppState.InitialStateIsEmpty | frontend/src/types/appState.ts:124-143 | the initial state has the text tab active, and both sessions have empty conversations, no recipe, no error and are idle; no ingredients, no analysis and empty input |
| AppState.InitialUiIsIdle | frontend/src/types/appState.ts:144-153 | the initial UI has no image generation, no image error, and a hidden bar at 0 with empty message and the default variant |
| AppReducer.Without | frontend/src/store/appReducer.ts:145-147 | the filter removes every occurrence of the payload and keeps the rest in order |
| ReducerProperties.StartMarksBusy | frontend/src/store/appReducer.ts:30-41 | START_RECIPE_GENERATION, and START_RECIPE_OPTIMIZATION at lines 211-222, set the tab busy and clear its error; nothing else changes |
| ReducerProperties.SuccessReplacesRecipe | frontend/src/store/appReducer.ts:43-55 | RECIPE_GENERATION_SUCCESS, and RECIPE_OPTIMIZATION_SUCCESS at lines 224-236, replace the tab's recipe, end busy and clear the error; nothing else changes |
| ReducerProperties.FailureKeepsRecipe | frontend/src/store/appReducer.ts:57-69 | RECIPE_GENERATION_ERROR, and RECIPE_OPTIMIZATION_ERROR at lines 238-249, end busy, record the error and keep the recipe |
| ReducerProperties.StartThenFail | frontend/src/store/appReducer.ts:30-69 | start then fail leaves the tab idle with the error, and with the recipe it had before |
| ReducerProperties.StartAnalysisClearsList | frontend/src/store/appReducer.ts:71-83 | START_IMAGE_ANALYSIS empties the list, clears the analysis error and sets the flag |
| ReducerProperties.AnalysisSuccessStoresVerbatim | frontend/src/store/appReducer.ts:85-97 | IMAGE_ANALYSIS_SUCCESS stores the payload list exactly, with no trimming or de-duplication |
| ReducerProperties.AnalysisErrorKeepsList | frontend/src/store/appReducer.ts:99-110 | IMAGE_ANALYSIS_ERROR keeps the list and records the error |
| ReducerProperties.AddIngredientAppendsOrIgnores | frontend/src/store/appReducer.ts:112-132 | ADD_INGREDIENT appends the trimmed payload if and only if it is non-empty and not listed (exact match); otherwise the whole state is unchanged |
| ReducerProperties.AddIngredientKeepsNoDup | frontend/src/store/appReducer.ts:112-132 | a duplicate-free list stays duplicate-free, and its existing order is kept |
| ReducerProperties.AddAllFromEmpty | frontend/src/store/appReducer.ts:112-132 | adding names one by one to an empty list gives each distinct non-blank trimmed name once, in first-insertion order |
| ReducerProperties.RemoveIngredientFilters | frontend/src/store/appReducer.ts:135-149 | REMOVE_INGREDIENT drops every element equal to the untrimmed payload and keeps the others with their multiplicity; an absent payload leaves the state unchanged |
| ReducerProperties.WithoutConcat | frontend/src/store/appReducer.ts:145-147 | filtering distributes over concatenation, so relative order is kept |
| ReducerProperties.WithoutKeepsNoDup | frontend/src/store/appReducer.ts:145-147 | filtering keeps a list duplicate-free |
| ReducerProperties.RemoveThenAddMovesToEnd | frontend/src/store/appReducer.ts:112-149 | removing then re-adding a name puts it once, at the end |
| ReducerProperties.ImageSuccessPatchesActiveTab | frontend/src/store/appReducer.ts:174-198 | IMAGE_GENERATION_SUCCESS patches only `image_url` on the active tab's recipe and clears the image flag; with no recipe there the whole state is unchanged, so the flag stays set |
| ReducerProperties.ImageLandsOnTabActiveAtCompletion | frontend/src/store/appReducer.ts:174-198 | after a tab switch the image lands on the newly active tab, and the requesting tab's recipe keeps its old image |
| ReducerProperties.ImageGenerationFlags | frontend/src/store/appReducer.ts:164-208 | START_IMAGE_GENERATION sets the image flag and clears the image error; IMAGE_GENERATION_ERROR clears the flag and sets the error; neither touches anything else |
| ReducerProperties.AddMessageAppends | frontend/src/store/appReducer.ts:14-27 | ADD_MESSAGE appends exactly one message to the named tab's conversation; nothing else changes |
| ReducerProperties.SetActiveTabOnlySwitches | frontend/src/store/appReducer.ts:7-11 | SET_ACTIVE_TAB changes only `activeTab` |
| ReducerProperties.UnrecognizedIsNoop | frontend/src/store/appReducer.ts:400-401 | an unknown action returns the same state |
| ReducerProperties.UpdateTextInputOnlyInput | frontend/src/store/appReducer.ts:151-162 | UPDATE_TEXT_INPUT changes only the text tab's input |
| ReducerProperties.ClearErrorRules | frontend/src/store/appReducer.ts:252-292 | CLEAR_ERROR is a no-op without both tab and type; `analysis` clears only on the image tab; `recipe` clears the named tab's error; `image` clears only the UI image error |
| ReducerProperties.ResetTabResetsOneTab | frontend/src/store/appReducer.ts:295-327 | RESET_TAB restores one tab to its initial value and leaves everything else |
| ReducerProperties.ShowProgressResets | frontend/src/store/appReducer.ts:329-341 | SHOW_PROGRESS makes the bar visible at 0 with the message and variant; tabs untouched |
| ReducerProperties.UpdateProgressOnlyValue | frontend/src/store/appReducer.ts:343-353 | UPDATE_PROGRESS changes only the value |
| ReducerProperties.HideProgressOnlyVisibility | frontend/src/store/appReducer.ts:355-365 | HIDE_PROGRESS changes only visibility |
| ReducerProperties.ResetAllIsInitial | frontend/src/store/appReducer.ts:367-398 | RESET_ALL yields exactly `initialAppState` (frontend/src/types/appState.ts lines 124-154), whatever the state was |
| ReducerProperties.RunConcat | frontend/src/store/appReducer.ts:4 | dispatching `xs` then `ys` is dispatching `xs + ys` |
| ReducerProperties.ConversationAppendOnly | frontend/src/store/appReducer.ts:14-27 | without a reset, each conversation is the old one followed by exactly the messages dispatched to that tab, in order |
| ReducerProperties.RunKeepsNoDup | frontend/src/store/appReducer.ts:85-132 | over any action sequence the ingredient list stays duplicate-free unless an analysis result carries a duplicate |
| ReducerProperties.AnalysisMayIntroduceDuplicates | frontend/src/store/appReducer.ts:85-97 | an analysis result can put a duplicate into the list |
| ReducerProperties.RunKeepsProgressInRange | frontend/src/types/appState.ts:30 | when every dispatched progress value lies in 0..100, the stored one stays in 0..100 |
| Store.AppStore.constructor | frontend/src/contexts/AppContext.tsx:18 | the store starts at the given state with an empty log and no timers |
| Store.AppStore.Dispatch | frontend/src/contexts/AppContext.tsx:18 | dispatch runs the reducer at once and logs the action |
| Store.RunEffects | frontend/src/contexts/AppContext.tsx:18 | replaying two logs in turn is replaying their concatenation |
| Chat.AddMessageOp | frontend/src/hooks/useChat.ts:10-24 | one ADD_MESSAGE with the given tab, role and content, id = decimal clock; the message returned is the one dispatched |
| Chat.AddUserMessage | frontend/src/hooks/useChat.ts:27-29 | role `user` |
| Chat.AddAIMessage | frontend/src/hooks/useChat.ts:32-34 | role `ai` |
| Chat.AddDelayedAIMessage | frontend/src/hooks/useChat.ts:37-45 | nothing is dispatched now; one AI-message timer is queued with the delay (500 by default) |
| Chat.SameMillisecondSameId | frontend/src/hooks/useChat.ts:12 | two messages built in the same millisecond share their id |
| Chat.DifferentMillisecondsDifferentIds | frontend/src/hooks/useChat.ts:12 | different milliseconds give different ids |
| Chat.AddedMessageIsLast | frontend/src/hooks/useChat.ts:10-24 | the conversation grows by exactly the message; no recipe changes |
| Timers.FireTimers | frontend/src/hooks/useChat.ts:42-44 | running the queue runs every job, oldest first; the log and state are those of the jobs' traces, and the queue ends empty. This covers the delayed AI reply and the hide `completeProgress` queues (frontend/src/hooks/useProgress.ts lines 57-59) |
| Timers.HideJobHides | frontend/src/hooks/useProgress.ts:57-59 | a queued hide leaves the bar hidden with its value and message |
| Timers.ReplyJobAppends | frontend/src/hooks/useChat.ts:42-44 | a queued AI reply becomes the last message of its tab |
| Progress.ProgressValueIsNearestPercent | frontend/src/hooks/useProgress.ts:21-28 | `updateProgress` dispatches an integer in 0..100, the nearest one to the clamped input |
| Progress.ProgressValueOfPercent | frontend/src/hooks/useProgress.ts:21-28 | a whole percentage passes unchanged |
| Progress.ProgressValueMonotone | frontend/src/hooks/useProgress.ts:21-28 | `updateProgress` keeps the order of its inputs |
| Progress.SimulatedValueIsFiveSteps | frontend/src/hooks/useProgress.ts:46 | tick `i` dispatches `min(95, 5*i)` |
| Progress.SimulatedValuesShape | frontend/src/hooks/useProgress.ts:46 | the values start at 0, never decrease and never pass 95; the last two are 95 |
| Progress.SimulationActions | frontend/src/hooks/useProgress.ts:35-53 | the simulation dispatches SHOW_PROGRESS first, then exactly 21 updates `min(95, 5*i)` for i = 0..20 |
| Progress.SimulationSleeps | frontend/src/hooks/useProgress.ts:42-51 | it sleeps exactly 20 times, each for `duration/20` |
| Progress.SimulationEndsWithUpdate | frontend/src/hooks/useProgress.ts:49-51 | the last effect is the update, with no sleep after it |
| Progress.SimulationEndsAt95 | frontend/src/hooks/useProgress.ts:35-53 | an uninterrupted simulation leaves the bar visible at 95 with its message and variant, and nothing else changed |
| Progress.ShowProgressOp | frontend/src/hooks/useProgress.ts:6-19 | one SHOW_PROGRESS; the variant defaults to `default` |
| Progress.UpdateProgressOp | frontend/src/hooks/useProgress.ts:21-28 | one UPDATE_PROGRESS with the clamped, rounded value |
| Progress.HideProgressOp | frontend/src/hooks/useProgress.ts:30-32 | HIDE_PROGRESS and nothing else |
| Progress.SimulateTicks | frontend/src/hooks/useProgress.ts:45-52 | the loop's log is the ticks' trace: an update per iteration, a sleep after all but the last |
| Progress.SimulateProgress | frontend/src/hooks/useProgress.ts:35-53 | the whole simulation's log is its trace |
| Progress.CompleteProgress | frontend/src/hooks/useProgress.ts:55-60 | 100 is dispatched now; the hide is queued for 500 ms |
| Progress.CompletionThenHide | frontend/src/hooks/useProgress.ts:55-60 | the bar shows 100 while the hide is pending, then is hidden at 100 |
| HookFlow.PreludeState | frontend/src/hooks/useRecipe.ts:13-28 | before the reply, the start action has run and the bar is visible at the last tick's value; nothing else changed |
| HookFlow.PreludeNeverCompletes | frontend/src/hooks/useProgress.ts:46 | the simulation never reports 100; only `completeProgress` does |
| HookFlow.ResumedThenHidden | frontend/src/hooks/useProgress.ts:45-59 | a bar completed while ticks remain ends hidden at 95 once the ticks and the hide run |
| RecipeHooks.GenerateRecipe | frontend/src/hooks/useRecipe.ts:12-58 | the log is START, the progress prelude, the request, then complete and SUCCESS, or hide and ERROR with the fixed message; the promise settles as `Settle(outcome)` |
| RecipeHooks.GenerateSucceeds | frontend/src/hooks/useRecipe.ts:37-44 | success stores the returned recipe on the same tab, clears busy and error, and shows 100 |
| RecipeHooks.GenerateFails | frontend/src/hooks/useRecipe.ts:30-57 | a non-OK status and a thrown error both keep the recipe and conversation, set the same fixed error and hide the bar |
| RecipeHooks.GenerateFailureNeverCompletes | frontend/src/hooks/useRecipe.ts:45-57 | a failed generation never shows 100 and always hides the bar |
| RecipeHooks.EarlyReplyRegresses | frontend/src/hooks/useRecipe.ts:16 | a reply that beats the unawaited simulation: once the queued ticks and the hide run, the 100% bar ends at 95 and hidden |
| RecipeHooks.HistoryData | frontend/src/hooks/useRecipe.ts:78-81 | the history has the same length and order as the conversation, with each entry's role and content |
| RecipeHooks.HistoryIgnoresIds | frontend/src/hooks/useRecipe.ts:78-81 | ids are not sent |
| RecipeHooks.OptimizeRecipe | frontend/src/hooks/useRecipe.ts:61-138 | the log is START, the prelude, the request with the history, then the branch for the reply; the promise settles as `OptimizeSettle(outcome)` |
| RecipeHooks.OptimizeSettle | frontend/src/hooks/useRecipe.ts:104-137 | an off-topic reply returns its message; an optimized one returns success; failures throw |
| RecipeHooks.OptimizeSucceeds | frontend/src/hooks/useRecipe.ts:114-125 | the optimized recipe replaces the tab's recipe, busy and error clear, and the bar shows 100 |
| RecipeHooks.OptimizeOffTopic | frontend/src/hooks/useRecipe.ts:104-112 | off-topic: the recipe is kept, busy clears, the error is the empty string, and the bar is hidden below 100 |
| RecipeHooks.OptimizeFails | frontend/src/hooks/useRecipe.ts:126-137 | failure: the recipe is kept, the fixed error is set and the bar is hidden |
| RecipeHooks.OptimizeSendsHistory | frontend/src/hooks/useRecipe.ts:77-96 | the request carries the conversation as passed, with ids dropped |
| RecipeHooks.GenerateRecipeImage | frontend/src/hooks/useRecipe.ts:141-191 | the log is START_IMAGE_GENERATION, the prelude, the request, then complete and a success carrying no tab, or hide and IMAGE_GENERATION_ERROR |
| RecipeHooks.ImageSucceeds | frontend/src/hooks/useRecipe.ts:168-176 | the URL goes to the tab active when the reply arrives, if it has a recipe; otherwise the success is ignored and the flag stays set |
| RecipeHooks.ImageFails | frontend/src/hooks/useRecipe.ts:179-190 | failure leaves the tabs, clears the flag, sets the fixed error and hides the bar |
| ImageRecognition.AnalyzeImage | frontend/src/hooks/useImageRecognition.ts:12-62 | START_IMAGE_ANALYSIS first, then the prelude and request; a good HTTP reply always completes the bar, then SUCCESS, or hide and ERROR |
| ImageRecognition.AnalysisSettle | frontend/src/hooks/useImageRecognition.ts:40-60 | the promise returns the ingredients on success and throws otherwise |
| ImageRecognition.AnalysisSucceeds | frontend/src/hooks/useImageRecognition.ts:40-45 | the list becomes exactly the reply's list (an empty one included), the flag and error clear, and no session changes |
| ImageRecognition.AnalysisCallFails | frontend/src/hooks/useImageRecognition.ts:31-33 | a non-OK or thrown call leaves the list empty, sets the fixed error and hides the bar |
| ImageRecognition.AnalysisReportedFailure | frontend/src/hooks/useImageRecognition.ts:46-60 | `success:false` ends the same way as a failed call |
| ImageRecognition.ReportedFailureCompletesThenHides | frontend/src/hooks/useImageRecognition.ts:37-51 | `success:false` still shows 100 before the hide |
| ImageRecognition.AddIngredientOp | frontend/src/hooks/useImageRecognition.ts:65-70 | the payload goes to ADD_INGREDIENT untrimmed |
| ImageRecognition.RemoveIngredientOp | frontend/src/hooks/useImageRecognition.ts:73-78 | the payload goes to REMOVE_INGREDIENT unchanged |
| Intent.Test | frontend/src/app/page.tsx:106-127 | the scanner's answer is exactly the declarative regular-expression match |
| Intent.AnyMatches | frontend/src/app/page.tsx:129 | `some` is true if and only if one pattern matches |
| Intent.Fallback | frontend/src/app/page.tsx:103-130 | true if and only if one of the 13 patterns matches; the old-layout copy (frontend/src/app/old-layout/page.tsx lines 104-131) has the same patterns |
| Intent.FallbackAccepts | frontend/src/app/page.tsx:106-127 | "我想做一道红烧肉", "冰箱里有土豆和牛肉", "半小时内能完成的菜" and "30分钟能做好的菜" are recognised |
| Intent.FallbackRejects | frontend/src/app/page.tsx:106-127 | "今天天气怎么样" and "你好" are not |
| Intent.NoKeyCharNoFallback | frontend/src/app/page.tsx:106-129 | a message without any of the patterns' key characters matches none |
| Intent.LineBreakDefeatsGap | frontend/src/app/page.tsx:115 | `.` stops at a line break: split over two lines the same words no longer match |
| Intent.IsRecipeRequest | frontend/src/app/page.tsx:77-100 | a failed call or a null body falls back on the patterns; otherwise the result is the truthiness of `is_recipe_request`, false when absent; the old-layout copy (lines 75-101) differs only in its URL |
| Intent.AskIntent | frontend/src/app/page.tsx:77-100 | the intent request is always made, dispatches nothing and returns `IsRecipeRequest` |
| Intent.AnsweredIgnoresPatterns | frontend/src/app/page.tsx:94-95 | once the endpoint answers with an object the message text plays no part |
| Page.HandleTabChange | frontend/src/app/page.tsx:24-26 | only the active tab changes |
| Page.HandleTextInputChange | frontend/src/app/page.tsx:29-31 | only the text input changes, to exactly what was typed |
| Page.HandleImageUpload | frontend/src/app/page.tsx:46-52 | `analyzeImage` with its rejection swallowed |
| Page.HandleTextSubmit | frontend/src/app/page.tsx:34-43 | blank input does nothing; otherwise it generates on the text tab from the trimmed input; the old-layout copy is lines 32-41 |
| Page.SubmitRequests | frontend/src/app/page.tsx:34-43 | blank input sends nothing and leaves the state; other input sends one generation request with the trimmed text for the text tab |
| Page.DescriptionNamesEveryIngredient | frontend/src/app/page.tsx:65-67 | the description starts with the fixed opening, names every ingredient and ends with the fixed closing |
| Page.HandleGenerateFromIngredients | frontend/src/app/page.tsx:55-74 | an empty list dispatches the fixed image-tab error; otherwise it generates from the description; it never rejects; the old-layout copy is lines 53-72 |
| Page.FromIngredientsRequests | frontend/src/app/page.tsx:55-67 | an empty list sends no request, sets the fixed error and stops generating, with the recipe and text tab untouched; otherwise it sends one request with the description |
| Page.HandleTextTabSendMessage | frontend/src/app/page.tsx:133-181 | the log is `SendTrace` on the text tab: the user message first, then optimize and reply, or classify and then generate or acknowledge; the old-layout copy is lines 134-182 |
| Page.HandleImageTabSendMessage | frontend/src/app/page.tsx:184-244 | the log is `SendTrace` on the image tab: the user message first, then optimize if there is a recipe; otherwise classify, then generate from a non-empty ingredient list, ask for an upload, or acknowledge; the old-layout copy is lines 185-245 |
| Page.SendRequests | frontend/src/app/page.tsx:133-243 | with a recipe, one optimization request carrying the render's conversation and no intent call; without one, the intent call, then a generation only for a recipe request (on the image tab only with ingredients) |
| Page.SendAiReplies | frontend/src/app/page.tsx:133-243 | the chat replies a send queues, in order, for each route |
| Page.ImageTabNeverReportsGenerationTrouble | frontend/src/app/page.tsx:217-228 | the image tab never queues "生成菜谱时遇到了问题": the failure is swallowed by `handleGenerateFromIngredients` |
| Page.UnansweredSendOnlyRecordsMessage | frontend/src/app/page.tsx:173-242 | a non-recipe message (acknowledgements at lines 173-179 and 236-242), or an image-tab request with no ingredients (upload hint at 229-235), only records the user message: no recipe, ingredient or progress change |
| Page.OptimizeHistoryExcludesNewMessage | frontend/src/app/page.tsx:139-144 | the history sent is the render's conversation: the conversation after the send minus the new last message |
| Requirements.FieldNamesDistinct | backend/parser.py:111-119 | the seven keys are distinct |
| Requirements.ValidateAndComplete | backend/parser.py:108-132 | the in-place construction (gather, guard, overwrite two keys) equals the reference `Validation`; main.py lines 114-138 are the same logic |
| Requirements.ValidationFailures | backend/parser.py:121-123 | validation fails exactly for a non-dict or falsy `ingredients`, with the matching error |
| Requirements.ValidatedHasSevenKeys | backend/parser.py:111-119 | the result has exactly the seven keys, once each, in order |
| Requirements.ValidatedLookup | backend/parser.py:111-130 | each key maps to its final value |
| Requirements.PreferenceDefaults | backend/parser.py:125-130 | a missing or null cuisine becomes "中式" and a missing or null difficulty "中等"; other values are kept; main.py lines 131-136 are the same |
| Requirements.ServingSizeAndPassThrough | backend/parser.py:112-118 | `serving_size` is 2 only when absent (explicit null kept); dietary defaults to []; time and calorie pass through |
| Requirements.ValidationIdempotent | backend/parser.py:108-132 | validating a validated dict changes nothing |
| Requirements.ParseRequirements | backend/parser.py:41-74 | blank input raises ValueError before the call; later errors come back as a prefixed Exception; main.py lines 47-80 are the same |
| Requirements.BlankInputNeverReachesModel | backend/parser.py:41-42 | blank input gives the same error whatever the model would say |
| Requirements.ParseSucceedsWithValidation | backend/parser.py:66-71 | for non-blank input, success is exactly a successful validation of the decoded answer |
| Requirements.MissingIngredientsSurfaceAsException | backend/parser.py:73-74 | the validation ValueError reaches callers as a prefixed plain Exception |
| RecipePrompt.Constraints | generator.py:90-96 | one constraint per truthy argument, counted exactly |
| RecipePrompt.Bulleted | generator.py:98-100 | each constraint becomes a "- " item, same count and order |
| RecipePrompt.BuildPrompt | generator.py:86-113 | the list built step by step, and the detail lines, give `DetailLines` joined by newlines; main.py lines 244-269 are the same |
| RecipePrompt.ZeroTimeLimitIsDropped | generator.py:91-92 | `max_cook_time=0` is falsy and adds no constraint |
| RecipePrompt.ConstraintOrder | generator.py:90-96 | time first, then dietary, then calorie last; main.py lines 247-253 are the same |
| RecipePrompt.NoConstraintsExactly | generator.py:98-100 | "无特殊要求" appears exactly when there is no constraint |
| RecipePrompt.ConstraintItems | generator.py:98-100 | otherwise every constraint appears as a "- " line |
| RecipePrompt.DetailsNameEveryIngredient | generator.py:87 | the details start with "食材：" and name every ingredient, joined with "、" in order |
| RecipePrompt.DetailsCarrySettings | generator.py:107-113 | cuisine, difficulty and the constraints text appear as lines |
| RecipePrompt.DefaultRequestDetails | main.py:309-326 | with only ingredients passed: "中式", "中等", 2 servings and no constraints |
| RecipePrompt.GenerateRecipe | generator.py:31-74 | an empty list raises ValueError before the call; a failed call raises a prefixed Exception; otherwise the decoded recipe is returned; main.py lines 204-236 are the same |
| RecipePrompt.EmptyIngredientsNeverReachModel | generator.py:31-32 | the empty list gives the same error whatever the model would say |
| RecipePrompt.GenerateFromIngredients | main.py:309-326 | the convenience function fails exactly for an empty list or a failed call |
| RecipeAgent.GenerateFromNaturalLanguage | main.py:342-384 | parse then generate; every failure is re-raised as an Exception with "生成菜谱时发生错误: " |
| RecipeAgent.GenerateFromIngredients | main.py:386-407 | plain delegation: errors are not re-prefixed |
| RecipeAgent.BlankInputThroughAgent | main.py:47-48 | blank input reaches the caller as a prefixed Exception |
| RecipeAgent.MissingIngredientsThroughAgent | main.py:383-384 | a request naming no ingredients is wrapped by the parser and the agent |
| RecipeAgent.GenerationFailureThroughAgent | main.py:383-384 | a failed generation is wrapped by the generator and the agent |
| OptimizerPrompt.Field | backend/recipe_optimizer.py:94-99 | an entry field raises exactly when the item is not a dict or lacks the key |
| OptimizerPrompt.IngredientsText | backend/recipe_optimizer.py:91-96 | missing ingredients give ""; otherwise entries in order, joined with "、" |
| OptimizerPrompt.IngredientEntryFormat | backend/recipe_optimizer.py:95 | an ingredient reads `name(amountunit)` |
| OptimizerPrompt.StepsText | backend/recipe_optimizer.py:92-99 | missing steps give ""; otherwise one line per step, in order |
| OptimizerPrompt.StepEntryFormat | backend/recipe_optimizer.py:98 | a step reads `n. description` |
| OptimizerPrompt.Recent | backend/recipe_optimizer.py:104 | the last four messages, or all when fewer |
| OptimizerPrompt.ContextText | backend/recipe_optimizer.py:101-114 | empty without history; otherwise the header, one line per recent message, and a newline |
| OptimizerPrompt.NoHistoryNoContext | backend/recipe_optimizer.py:102-103 | the context is empty if and only if the history is None or empty |
| OptimizerPrompt.OlderMessagesIgnored | backend/recipe_optimizer.py:104 | messages before the last four never reach the prompt |
| OptimizerPrompt.ContextLineLabels | backend/recipe_optimizer.py:109 | role `user` is labelled "用户"; anything else "AI" |
| OptimizerPrompt.Setting | backend/recipe_optimizer.py:176-180 | a setting is the recipe's value, or the default when absent |
| OptimizerPrompt.BuildOptimizePrompt | backend/recipe_optimizer.py:81-114 | raises exactly when ingredients, steps or context raise; it is built exactly when every field renders, and then holds `IngredientsText`, `StepsText`, `ContextText` and the request; a present string name, cuisine or difficulty, or an integer serving count, is used as it is; an absent one defaults to "未知菜品", "中式", "中等" or "2" |
| OptimizerPrompt.RecipeOwnSettings | backend/recipe_optimizer.py:90-180 | a recipe with its own name and settings, no lists and no history gives a prompt built from exactly those values, with empty ingredients, steps and context |
| OptimizerPrompt.OptimizeRecipe | backend/recipe_optimizer.py:17-79 | a prompt-build error escapes the try; a failed call raises the prefixed Exception; otherwise the decoded answer is returned |
| ImagePrompt.StyleBias | image_generator.py:77-88 | exactly one phrase; "中" wins, then "西", else the neutral one; a non-iterable cuisine raises |
| ImagePrompt.ChineseTakesPrecedence | image_generator.py:79-88 | "中西融合" is Chinese, "西餐" Western and "日料" neutral |
| ImagePrompt.ComposePrompt | image_generator.py:69-96 | composing raises exactly when the style test raises |
| ImagePrompt.PromptText | image_generator.py:91-96 | the prompt starts with `特写镜头, '<name>', ` and holds the description, one style and the quality phrases |
| ImagePrompt.RawPromptIsStripped | image_generator.py:96 | `strip()` removes nothing |
| ImagePrompt.EmptyRecipePrompt | image_generator.py:73-75 | missing fields default to "" and the neutral style |
| ImagePrompt.GenerateRecipeImage | image_generator.py:24-67 | a URL if and only if the prompt composes and the service answers OK with a result; None otherwise |
| ImagePrompt.FailuresGiveNone | image_generator.py:54-67 | a non-OK status or any exception gives None |
| ImagePrompt.UniterableCuisineGivesNoImage | image_generator.py:79 | a numeric or null cuisine raises while composing, giving None |
| Vision.MimeType | gpt_vision_analyzer.py:52-53 | "image/" plus the text after the last dot, with the same length and no dot |
| Vision.MimeOfDotted | gpt_vision_analyzer.py:52-53 | the extension after the last dot, lower-cased |
| Vision.UpperCaseExtension | gpt_vision_analyzer.py:52 | "photo.JPG" gives "image/jpg" |
| Vision.NameWithoutDot | gpt_vision_analyzer.py:52 | a name without a dot is taken whole |
| Vision.DataUrlShape | gpt_vision_analyzer.py:55 | the URL starts "data:image/" and ends ";base64," plus the encoded text |
| Vision.BraceSpan | gpt_vision_analyzer.py:157-158 | the span from the first "{" to the last "}", or none exactly when no "{" precedes a "}" |
| Vision.ExtractJsonFromText | gpt_vision_analyzer.py:143-167 | a brace span that decodes gives its dict; without a span, or when it does not decode, the fallback dict |
| Vision.FallbackDescribesText | gpt_vision_analyzer.py:167 | the fallback has no ingredients, unknown confidence and the whole text as description |
| Vision.Envelope | gpt_vision_analyzer.py:102-116 | the envelope has distinct keys, `success` first, and `error` only on failure |
| Vision.Analyze | gpt_vision_analyzer.py:57-116 | success exactly when the answer (or its fallback) is a dict; success carries the dict's `ingredients` and `confidence`, [] and "unknown" when absent, and the raw answer; failure gives no ingredients, "" and "unknown" |
| Vision.RecoveredSpanIsUsed | gpt_vision_analyzer.py:96-107 | an answer that only decodes through its brace span succeeds with that dict's ingredients and confidence |
| Vision.FailureEnvelope | gpt_vision_analyzer.py:109-116 | the failure envelope is exactly `success False, error, [], "", "unknown"` |
| Vision.SuccessDefaults | gpt_vision_analyzer.py:102-107 | a dict without the keys gives [] and "unknown", and keeps the raw answer |
| Vision.NonDictAnswerFails | gpt_vision_analyzer.py:96-116 | JSON that is not a dict fails on `.get` |
| Vision.ProseAnswerFallsBack | gpt_vision_analyzer.py:96-107 | prose without braces succeeds with no ingredients |
| Vision.GetIngredientsText | gpt_vision_analyzer.py:169-189 | "图片分析失败" on failure; the hint for no ingredients; otherwise the join with "、" |
| Vision.IngredientNamesJoined | gpt_vision_analyzer.py:189 | names are joined with "、" in the model's order |
| Vision.JoinValues | gpt_vision_analyzer.py:189 | the join succeeds exactly when every item is a string |
| Text.NatStringRoundTrip | frontend/src/hooks/useChat.ts:12 | the decimal id reads back as the clock value |
| Json.TruthinessDiffers | frontend/src/app/page.tsx:95 | JavaScript and Python truthiness differ only on empty arrays and objects |

## Left out

- Rendering and theming components are not part of this model.
- The network, the OpenAI and DashScope SDKs, `fetch`, `FormData`, `json.loads`, base64 and file reads are left out. Their results are parameters: an `Outcome`, a `Reply`, an `ImageCall` or a `VisionCall`.
- The prompt templates' fixed wording is not modelled. `RecipePrompt.DetailLines` models the ingredients, constraints, cuisine, difficulty and servings lines of the generation prompt.
- The generation prompt's JSON skeleton repeats `{cuisine_type}` and `{difficulty}` (generator.py:122-123, main.py:278-279). These repeats are not part of `RecipePrompt.DetailLines` or `RecipePrompt.BuildPrompt`.
- `_build_parse_prompt` is left out. Its prompt quotes the user's text (backend/parser.py:81, main.py:87); the model passes only the model's reply (`Reply`) to `Requirements.ParseRequirements`.
- The vision prompt is fixed text and is left out.
- Floating-point rounding error is left out: progress arithmetic is on exact reals, and `Math.round` rounds a half up.
- Real time is left out. The simulation's sleeps are recorded with their durations but not timed.
- Interleavings are modelled only through `ticksBeforeReply`, the count of simulation ticks before the reply. Overlapping sends, last-write-wins races, and a reply arriving between a tick's dispatch and its sleep are not distinguished.
- Chat message timestamps are left out. Ids are the decimal clock value passed as `now`.
- Python `.lower()` is modelled on ASCII letters only.
- The two whitespace sets are modelled: JavaScript `trim` and Python `strip` on the characters each standard names.
- Timers.FireTimers: runs the queue as FIFO, not by due time.
- RecipeAgent.GenerateFromNaturalLanguage: takes the generator's result as an input. It does not restate which parsed fields are passed, because the keyword mapping is plain argument passing.
- RecipeAgent.GenerateFromIngredients: models only calls without extra keyword arguments.
- OptimizerPrompt.OptimizeRecipe: an exception raised while building the prompt is `None`; its Python type is not modelled.
- OptimizerPrompt.BuildOptimizePrompt: a value whose text the model does not state gives `NotStated`. `str()` of a float or nested value is such a value.
- ImagePrompt.GenerateRecipeImage: assumes the SDK's result URL is a string.
- Vision.Analyze: assumes the message content is text. A `None` content would raise a TypeError that ends in the failure envelope.
- Page.HandleImageTabSendMessage: the `catch` that would report "生成菜谱时遇到了问题" on the image tab is unreachable and is not modelled as a branch. `ImageTabNeverReportsGenerationTrouble` states that it never fires.
- The `print` calls in `main.py` and the back end are left out.
- The FastAPI routes, Lambda handler, Streamlit app and demo scripts are not part of this model.
