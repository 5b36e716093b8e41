/**
 * `useRecipe`: generating a recipe, optimizing one through conversation, and
 * generating a picture of one. Each hook marks the start, runs the progress
 * simulation beside the request, and then either completes the bar and
 * dispatches the success, or hides the bar, dispatches a fixed error
 * message and rethrows.
 */
module RecipeHooks {
  import opened Common
  import opened AppState
  import opened AppReducer
  import opened ReducerProperties
  import opened Store
  import opened Progress
  import opened HookFlow

  const GenerateCaption := "正在生成菜谱..."
  const GenerateDurationMs: real := 4000.0
  const GenerateFailure := "生成菜谱失败，请检查后端服务是否开启，或查看浏览器控制台获取更多信息。"

  const OptimizeCaption := "正在优化菜谱..."
  const OptimizeDurationMs: real := 2500.0
  const OptimizeFailure := "优化菜谱失败，请稍后重试。"

  const ImageCaption := "正在生成菜品图片..."
  const ImageDurationMs: real := 6000.0
  const ImageFailure := "生成图片失败，请稍后重试。"

  /** How a hook's promise settles on a plain outcome: the body on success, the thrown message otherwise. */
  function Settle<T>(o: Outcome<T>): (r: Settled<T>)
    ensures r.Resolved? <==> o.Ok?
    ensures o.Ok? ==> r.value == o.value
    ensures o.HttpError? ==> r.reason == "HTTP error! status: " + Text.IntString(o.status)
  {
    if o.Ok? then Resolved(o.value) else Rejected(ThrownBy(o))
  }

  /** Timers left after a reply: the simulation's remainder, then the hide `completeProgress` schedules if it ran. */
  function TimersAfter(duration: real, ticksBeforeReply: nat, completed: bool): seq<Timer> {
    Remainder(duration, ticksBeforeReply) + CompletionTimers(completed)
  }

  /** The hide `completeProgress` schedules, if it ran. */
  function CompletionTimers(completed: bool): seq<Timer> {
    if completed then [Timer(HideDelayMs, HideProgressJob)] else []
  }

  // ---------------------------------------------------------------------
  // generateRecipe

  function GenerateReply(tab: TabType, outcome: Outcome<Recipe>): seq<Effect> {
    if outcome.Ok? then CompletionTrace + [Dispatched(RecipeGenerationSuccess(tab, outcome.value))]
    else [Dispatched(HideProgress), Dispatched(RecipeGenerationError(tab, GenerateFailure))]
  }

  /** Everything `generateRecipe(description, tab)` does when the backend answers with `outcome`. */
  function GenerateTrace(description: string, tab: TabType, outcome: Outcome<Recipe>, ticksBeforeReply: nat): seq<Effect> {
    Prelude(StartRecipeGeneration(tab), GenerateCaption, RecipeVariant, GenerateDurationMs,
            GenerateRequest(description), ticksBeforeReply)
      + GenerateReply(tab, outcome)
  }

  method GenerateRecipe(store: AppStore, description: string, tab: TabType, outcome: Outcome<Recipe>, ticksBeforeReply: nat)
    returns (r: Settled<Recipe>)
    modifies store
    ensures store.log == old(store.log) + GenerateTrace(description, tab, outcome, ticksBeforeReply)
    ensures store.state == Run(old(store.state), ActionsOf(GenerateTrace(description, tab, outcome, ticksBeforeReply)))
    ensures store.timers == old(store.timers) + TimersAfter(GenerateDurationMs, ticksBeforeReply, outcome.Ok?)
    ensures r == Settle(outcome)
  {
    ghost var s0 := store.state;
    StartAndRequest(store, StartRecipeGeneration(tab), GenerateCaption, RecipeVariant, GenerateDurationMs,
                    GenerateRequest(description), ticksBeforeReply);
    ghost var prelude := Prelude(StartRecipeGeneration(tab), GenerateCaption, RecipeVariant, GenerateDurationMs,
                                 GenerateRequest(description), ticksBeforeReply);
    r := HandleGenerateReply(store, tab, outcome);
    AppendAssoc(old(store.log), prelude, GenerateReply(tab, outcome));
    AppendAssoc(old(store.timers), Remainder(GenerateDurationMs, ticksBeforeReply), CompletionTimers(outcome.Ok?));
    RunEffects(s0, prelude, GenerateReply(tab, outcome));
  }

  /** The part of `generateRecipe` after the reply arrives. */
  method HandleGenerateReply(store: AppStore, tab: TabType, outcome: Outcome<Recipe>) returns (r: Settled<Recipe>)
    modifies store
    ensures store.log == old(store.log) + GenerateReply(tab, outcome)
    ensures store.state == Run(old(store.state), ActionsOf(GenerateReply(tab, outcome)))
    ensures store.timers == old(store.timers) + CompletionTimers(outcome.Ok?)
    ensures r == Settle(outcome)
  {
    if outcome.Ok? {
      CompleteWith(store, RecipeGenerationSuccess(tab, outcome.value));
      r := Resolved(outcome.value);
    } else {
      FailWith(store, RecipeGenerationError(tab, GenerateFailure));
      r := Rejected(ThrownBy(outcome));
    }
  }

  /** A successful `generateRecipe` stores the reply as the tab's recipe, clears busy and error, and leaves the bar at 100%. */
  lemma GenerateSucceeds(s: AppState, description: string, tab: TabType, recipe: Recipe, ticksBeforeReply: nat)
    ensures var r := Run(s, ActionsOf(GenerateTrace(description, tab, Ok(recipe), ticksBeforeReply)));
              && SessionOf(r, tab) == SessionOf(s, tab).(recipe := Some(recipe), isGenerating := false, error := None)
              && r.ui.progressBar == ProgressState(true, 100, GenerateCaption, RecipeVariant)
              && OnlySessionAndBarChanged(s, r, tab)
  {
    SessionHookSucceeds(s, StartRecipeGeneration(tab), GenerateCaption, RecipeVariant, GenerateDurationMs,
                        GenerateRequest(description), ticksBeforeReply, tab, RecipeGenerationSuccess(tab, recipe));
  }

  /**
   * A failed `generateRecipe` keeps the tab's recipe and conversation, clears
   * busy, sets the fixed message as the error, and hides the bar below 100%.
   */
  lemma GenerateFails(s: AppState, description: string, tab: TabType, outcome: Outcome<Recipe>, ticksBeforeReply: nat)
    requires !outcome.Ok?
    ensures var r := Run(s, ActionsOf(GenerateTrace(description, tab, outcome, ticksBeforeReply)));
              && SessionOf(r, tab) == SessionOf(s, tab).(isGenerating := false, error := Some(GenerateFailure))
              && !r.ui.progressBar.isVisible && r.ui.progressBar.progress <= 95
              && OnlySessionAndBarChanged(s, r, tab)
  {
    SessionHookFails(s, StartRecipeGeneration(tab), GenerateCaption, RecipeVariant, GenerateDurationMs,
                     GenerateRequest(description), ticksBeforeReply, tab, RecipeGenerationError(tab, GenerateFailure));
  }

  /** A failed generation never shows 100%, and always hides the bar. */
  lemma GenerateFailureNeverCompletes(description: string, tab: TabType, outcome: Outcome<Recipe>, ticksBeforeReply: nat)
    requires !outcome.Ok?
    ensures UpdateProgress(100) !in ActionsOf(GenerateTrace(description, tab, outcome, ticksBeforeReply))
    ensures HideProgress in ActionsOf(GenerateTrace(description, tab, outcome, ticksBeforeReply))
  {
    var prelude := Prelude(StartRecipeGeneration(tab), GenerateCaption, RecipeVariant, GenerateDurationMs,
                           GenerateRequest(description), ticksBeforeReply);
    PreludeNeverCompletes(StartRecipeGeneration(tab), GenerateCaption, RecipeVariant, GenerateDurationMs,
                          GenerateRequest(description), ticksBeforeReply);
    ActionsOfConcat(prelude, GenerateReply(tab, outcome));
    FailedReply(InitialAppState, RecipeGenerationError(tab, GenerateFailure));
  }

  /**
   * A reply that beats the simulation leaves its remainder queued: once the
   * queued jobs run, the bar that showed 100% goes back to 95% and is
   * hidden there.
   */
  lemma EarlyReplyRegresses(s: AppState, description: string, tab: TabType, recipe: Recipe, ticksBeforeReply: nat)
    requires ticksBeforeReply < Steps
    ensures Remainder(GenerateDurationMs, ticksBeforeReply) != []
    ensures var r := Run(s, ActionsOf(GenerateTrace(description, tab, Ok(recipe), ticksBeforeReply)));
            var later := Run(r, ActionsOf(Ticks(TicksBefore(ticksBeforeReply), Steps + 1, GenerateDurationMs) + [Dispatched(HideProgress)]));
              && r.ui.progressBar.progress == 100
              && later.ui.progressBar == ProgressState(false, 95, GenerateCaption, RecipeVariant)
  {
    GenerateSucceeds(s, description, tab, recipe, ticksBeforeReply);
    var r := Run(s, ActionsOf(GenerateTrace(description, tab, Ok(recipe), ticksBeforeReply)));
    ResumedThenHidden(r, TicksBefore(ticksBeforeReply), GenerateDurationMs);
  }

  // ---------------------------------------------------------------------
  // optimizeRecipe

  /** The optimize endpoint's body: an off-topic reminder or the optimized recipe. */
  datatype OptimizeReply = OffTopicReply(message: string) | RecipeReply(recipe: Recipe)

  /** What `optimizeRecipe` resolves to. */
  datatype OptimizeResult = OffTopicResult(message: string) | Optimized(recipe: Recipe)

  /** The conversation as sent with the request: each message's role and content, in order. */
  function HistoryData(conversation: seq<ChatMessage>): (h: seq<HistoryEntry>)
    ensures |h| == |conversation|
    ensures forall i :: 0 <= i < |h| ==> h[i].role == conversation[i].role && h[i].content == conversation[i].content
  {
    if conversation == [] then []
    else [HistoryEntry(conversation[0].role, conversation[0].content)] + HistoryData(conversation[1..])
  }

  /** The history of a longer conversation extends the history of the shorter one. */
  lemma {:induction false} HistoryDataConcat(a: seq<ChatMessage>, b: seq<ChatMessage>)
    ensures HistoryData(a + b) == HistoryData(a) + HistoryData(b)
    decreases |a|
  {
    if a == [] {
      assert a + b == b;
    } else {
      assert (a + b)[0] == a[0];
      assert (a + b)[1..] == a[1..] + b;
      HistoryDataConcat(a[1..], b);
    }
  }

  /** Message ids are not sent: conversations that agree on roles and contents send the same history. */
  lemma HistoryIgnoresIds(a: seq<ChatMessage>, b: seq<ChatMessage>)
    requires |a| == |b|
    requires forall i :: 0 <= i < |a| ==> a[i].role == b[i].role && a[i].content == b[i].content
    ensures HistoryData(a) == HistoryData(b)
  {
  }

  function OptimizeReplyTrace(tab: TabType, outcome: Outcome<OptimizeReply>): seq<Effect> {
    if !outcome.Ok? then [Dispatched(HideProgress), Dispatched(RecipeOptimizationError(tab, OptimizeFailure))]
    else if outcome.value.OffTopicReply? then [Dispatched(HideProgress), Dispatched(RecipeOptimizationError(tab, ""))]
    else CompletionTrace + [Dispatched(RecipeOptimizationSuccess(tab, outcome.value.recipe))]
  }

  function OptimizeRequestOf(current: Recipe, userRequest: string, conversation: seq<ChatMessage>): Request {
    OptimizeRequest(current, userRequest, HistoryData(conversation))
  }

  /** Everything `optimizeRecipe(current, userRequest, conversation, tab)` does when the backend answers with `outcome`. */
  function OptimizeTrace(current: Recipe, userRequest: string, conversation: seq<ChatMessage>, tab: TabType,
                         outcome: Outcome<OptimizeReply>, ticksBeforeReply: nat): seq<Effect> {
    Prelude(StartRecipeOptimization(tab), OptimizeCaption, OptimizeVariant, OptimizeDurationMs,
            OptimizeRequestOf(current, userRequest, conversation), ticksBeforeReply)
      + OptimizeReplyTrace(tab, outcome)
  }

  /** How `optimizeRecipe` settles. */
  function OptimizeSettle(outcome: Outcome<OptimizeReply>): (r: Settled<OptimizeResult>)
    ensures r.Resolved? <==> outcome.Ok?
    ensures outcome.Ok? && outcome.value.OffTopicReply? ==> r.value == OffTopicResult(outcome.value.message)
    ensures outcome.Ok? && outcome.value.RecipeReply? ==> r.value == Optimized(outcome.value.recipe)
  {
    match outcome
    case Ok(OffTopicReply(m)) => Resolved(OffTopicResult(m))
    case Ok(RecipeReply(recipe)) => Resolved(Optimized(recipe))
    case _ => Rejected(ThrownBy(outcome))
  }

  function Completes(outcome: Outcome<OptimizeReply>): bool {
    outcome.Ok? && outcome.value.RecipeReply?
  }

  method OptimizeRecipe(store: AppStore, current: Recipe, userRequest: string, conversation: seq<ChatMessage>,
                        tab: TabType, outcome: Outcome<OptimizeReply>, ticksBeforeReply: nat)
    returns (r: Settled<OptimizeResult>)
    modifies store
    ensures store.log == old(store.log) + OptimizeTrace(current, userRequest, conversation, tab, outcome, ticksBeforeReply)
    ensures store.state == Run(old(store.state), ActionsOf(OptimizeTrace(current, userRequest, conversation, tab, outcome, ticksBeforeReply)))
    ensures store.timers == old(store.timers) + TimersAfter(OptimizeDurationMs, ticksBeforeReply, Completes(outcome))
    ensures r == OptimizeSettle(outcome)
  {
    ghost var s0 := store.state;
    var request := OptimizeRequestOf(current, userRequest, conversation);
    StartAndRequest(store, StartRecipeOptimization(tab), OptimizeCaption, OptimizeVariant, OptimizeDurationMs,
                    request, ticksBeforeReply);
    ghost var prelude := Prelude(StartRecipeOptimization(tab), OptimizeCaption, OptimizeVariant, OptimizeDurationMs,
                                 request, ticksBeforeReply);
    r := HandleOptimizeReply(store, tab, outcome);
    AppendAssoc(old(store.log), prelude, OptimizeReplyTrace(tab, outcome));
    AppendAssoc(old(store.timers), Remainder(OptimizeDurationMs, ticksBeforeReply), CompletionTimers(Completes(outcome)));
    RunEffects(s0, prelude, OptimizeReplyTrace(tab, outcome));
  }

  /** The part of `optimizeRecipe` after the reply arrives. */
  method HandleOptimizeReply(store: AppStore, tab: TabType, outcome: Outcome<OptimizeReply>)
    returns (r: Settled<OptimizeResult>)
    modifies store
    ensures store.log == old(store.log) + OptimizeReplyTrace(tab, outcome)
    ensures store.state == Run(old(store.state), ActionsOf(OptimizeReplyTrace(tab, outcome)))
    ensures store.timers == old(store.timers) + CompletionTimers(Completes(outcome))
    ensures r == OptimizeSettle(outcome)
  {
    if !outcome.Ok? {
      FailWith(store, RecipeOptimizationError(tab, OptimizeFailure));
      r := Rejected(ThrownBy(outcome));
    } else if outcome.value.OffTopicReply? {
      FailWith(store, RecipeOptimizationError(tab, ""));
      r := Resolved(OffTopicResult(outcome.value.message));
    } else {
      CompleteWith(store, RecipeOptimizationSuccess(tab, outcome.value.recipe));
      r := Resolved(Optimized(outcome.value.recipe));
    }
  }

  /** An optimized recipe replaces the tab's recipe, clears busy and error, and leaves the bar at 100%. */
  lemma OptimizeSucceeds(s: AppState, current: Recipe, userRequest: string, conversation: seq<ChatMessage>,
                         tab: TabType, recipe: Recipe, ticksBeforeReply: nat)
    ensures var r := Run(s, ActionsOf(OptimizeTrace(current, userRequest, conversation, tab, Ok(RecipeReply(recipe)), ticksBeforeReply)));
              && SessionOf(r, tab) == SessionOf(s, tab).(recipe := Some(recipe), isGenerating := false, error := None)
              && r.ui.progressBar == ProgressState(true, 100, OptimizeCaption, OptimizeVariant)
              && OnlySessionAndBarChanged(s, r, tab)
  {
    var request := OptimizeRequestOf(current, userRequest, conversation);
    assert OptimizeReplyTrace(tab, Ok(RecipeReply(recipe))) == CompletionTrace + [Dispatched(RecipeOptimizationSuccess(tab, recipe))];
    SessionHookSucceeds(s, StartRecipeOptimization(tab), OptimizeCaption, OptimizeVariant, OptimizeDurationMs,
                        request, ticksBeforeReply, tab, RecipeOptimizationSuccess(tab, recipe));
  }

  /**
   * An off-topic reply keeps the tab's recipe, clears busy, hides the bar
   * below 100%, and leaves the error set to the empty string rather than
   * cleared.
   */
  lemma OptimizeOffTopic(s: AppState, current: Recipe, userRequest: string, conversation: seq<ChatMessage>,
                         tab: TabType, message: string, ticksBeforeReply: nat)
    ensures var r := Run(s, ActionsOf(OptimizeTrace(current, userRequest, conversation, tab, Ok(OffTopicReply(message)), ticksBeforeReply)));
              && SessionOf(r, tab) == SessionOf(s, tab).(isGenerating := false, error := Some(""))
              && !r.ui.progressBar.isVisible && r.ui.progressBar.progress <= 95
              && OnlySessionAndBarChanged(s, r, tab)
  {
    var request := OptimizeRequestOf(current, userRequest, conversation);
    assert OptimizeReplyTrace(tab, Ok(OffTopicReply(message))) == [Dispatched(HideProgress), Dispatched(RecipeOptimizationError(tab, ""))];
    SessionHookFails(s, StartRecipeOptimization(tab), OptimizeCaption, OptimizeVariant, OptimizeDurationMs,
                     request, ticksBeforeReply, tab, RecipeOptimizationError(tab, ""));
  }

  /** A failed optimization keeps the tab's recipe, clears busy, sets the fixed message and hides the bar below 100%. */
  lemma OptimizeFails(s: AppState, current: Recipe, userRequest: string, conversation: seq<ChatMessage>,
                      tab: TabType, outcome: Outcome<OptimizeReply>, ticksBeforeReply: nat)
    requires !outcome.Ok?
    ensures var r := Run(s, ActionsOf(OptimizeTrace(current, userRequest, conversation, tab, outcome, ticksBeforeReply)));
              && SessionOf(r, tab) == SessionOf(s, tab).(isGenerating := false, error := Some(OptimizeFailure))
              && !r.ui.progressBar.isVisible && r.ui.progressBar.progress <= 95
              && OnlySessionAndBarChanged(s, r, tab)
  {
    var request := OptimizeRequestOf(current, userRequest, conversation);
    assert OptimizeReplyTrace(tab, outcome) == [Dispatched(HideProgress), Dispatched(RecipeOptimizationError(tab, OptimizeFailure))];
    SessionHookFails(s, StartRecipeOptimization(tab), OptimizeCaption, OptimizeVariant, OptimizeDurationMs,
                     request, ticksBeforeReply, tab, RecipeOptimizationError(tab, OptimizeFailure));
  }

  /** The request carries the conversation as it was when the hook was called, ids dropped. */
  lemma OptimizeSendsHistory(current: Recipe, userRequest: string, conversation: seq<ChatMessage>,
                             tab: TabType, outcome: Outcome<OptimizeReply>, ticksBeforeReply: nat)
    ensures var trace := OptimizeTrace(current, userRequest, conversation, tab, outcome, ticksBeforeReply);
            Fetched(OptimizeRequest(current, userRequest, HistoryData(conversation))) in trace
  {
    var trace := OptimizeTrace(current, userRequest, conversation, tab, outcome, ticksBeforeReply);
    var head := [Dispatched(StartRecipeOptimization(tab)), Dispatched(ShowProgress(OptimizeCaption, OptimizeVariant))]
                + Ticks(0, 1, OptimizeDurationMs);
    assert trace[|head|] == Fetched(OptimizeRequestOf(current, userRequest, conversation));
  }

  // ---------------------------------------------------------------------
  // generateRecipeImage

  function ImageReply(outcome: Outcome<string>): seq<Effect> {
    if outcome.Ok? then CompletionTrace + [Dispatched(ImageGenerationSuccess(outcome.value))]
    else [Dispatched(HideProgress), Dispatched(ImageGenerationError(ImageFailure))]
  }

  /** Everything `generateRecipeImage(recipe)` does when the backend answers with `outcome` (the `image_url` of the body). */
  function ImageTrace(recipe: Recipe, outcome: Outcome<string>, ticksBeforeReply: nat): seq<Effect> {
    Prelude(StartImageGeneration, ImageCaption, ImageVariant, ImageDurationMs, ImageRequest(recipe), ticksBeforeReply)
      + ImageReply(outcome)
  }

  method GenerateRecipeImage(store: AppStore, recipe: Recipe, outcome: Outcome<string>, ticksBeforeReply: nat)
    returns (r: Settled<string>)
    modifies store
    ensures store.log == old(store.log) + ImageTrace(recipe, outcome, ticksBeforeReply)
    ensures store.state == Run(old(store.state), ActionsOf(ImageTrace(recipe, outcome, ticksBeforeReply)))
    ensures store.timers == old(store.timers) + TimersAfter(ImageDurationMs, ticksBeforeReply, outcome.Ok?)
    ensures r == Settle(outcome)
  {
    ghost var s0 := store.state;
    StartAndRequest(store, StartImageGeneration, ImageCaption, ImageVariant, ImageDurationMs,
                    ImageRequest(recipe), ticksBeforeReply);
    ghost var prelude := Prelude(StartImageGeneration, ImageCaption, ImageVariant, ImageDurationMs,
                                 ImageRequest(recipe), ticksBeforeReply);
    r := HandleImageReply(store, outcome);
    AppendAssoc(old(store.log), prelude, ImageReply(outcome));
    AppendAssoc(old(store.timers), Remainder(ImageDurationMs, ticksBeforeReply), CompletionTimers(outcome.Ok?));
    RunEffects(s0, prelude, ImageReply(outcome));
  }

  /** The part of `generateRecipeImage` after the reply arrives. */
  method HandleImageReply(store: AppStore, outcome: Outcome<string>) returns (r: Settled<string>)
    modifies store
    ensures store.log == old(store.log) + ImageReply(outcome)
    ensures store.state == Run(old(store.state), ActionsOf(ImageReply(outcome)))
    ensures store.timers == old(store.timers) + CompletionTimers(outcome.Ok?)
    ensures r == Settle(outcome)
  {
    if outcome.Ok? {
      CompleteWith(store, ImageGenerationSuccess(outcome.value));
      r := Resolved(outcome.value);
    } else {
      FailWith(store, ImageGenerationError(ImageFailure));
      r := Rejected(ThrownBy(outcome));
    }
  }

  /**
   * A generated picture goes to whichever tab is active, not to the tab
   * whose recipe was sent. If that tab has a recipe, the recipe gets the URL
   * and the image flag and error clear; if it has none, the success is
   * ignored and the image flag stays set. No tab other than the active one
   * changes, and the ingredient list does not.
   */
  lemma ImageSucceeds(s: AppState, recipe: Recipe, url: string, ticksBeforeReply: nat)
    ensures var r := Run(s, ActionsOf(ImageTrace(recipe, Ok(url), ticksBeforeReply)));
            var before := SessionOf(s, s.activeTab);
              && r.activeTab == s.activeTab
              && r.tabs.image.identifiedIngredients == s.tabs.image.identifiedIngredients
              && SessionOf(r, OtherTab(s.activeTab)) == SessionOf(s, OtherTab(s.activeTab))
              && (before.recipe.Some? ==>
                    && SessionOf(r, s.activeTab) == before.(recipe := Some(before.recipe.value.(imageUrl := Some(url))))
                    && !r.ui.isGeneratingImage && r.ui.imageError == None)
              && (before.recipe.None? ==> r.tabs == s.tabs && r.ui.isGeneratingImage)
  {
    CompletedHook(s, StartImageGeneration, ImageCaption, ImageVariant, ImageDurationMs,
                  ImageRequest(recipe), ticksBeforeReply, ImageGenerationSuccess(url));
  }

  /** A failed picture leaves every tab as it was, clears the image flag, sets the fixed message and hides the bar. */
  lemma ImageFails(s: AppState, recipe: Recipe, outcome: Outcome<string>, ticksBeforeReply: nat)
    requires !outcome.Ok?
    ensures var r := Run(s, ActionsOf(ImageTrace(recipe, outcome, ticksBeforeReply)));
              && r.activeTab == s.activeTab && r.tabs == s.tabs
              && !r.ui.isGeneratingImage && r.ui.imageError == Some(ImageFailure)
              && !r.ui.progressBar.isVisible
  {
    FailedHook(s, StartImageGeneration, ImageCaption, ImageVariant, ImageDurationMs,
               ImageRequest(recipe), ticksBeforeReply, ImageGenerationError(ImageFailure));
  }
}
