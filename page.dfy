/**
 * The home page's handlers: submitting typed text, generating from the
 * identified ingredients, and the chat box of each tab, which optimizes an
 * existing recipe or else asks whether the message wants one.
 *
 * A handler closes over the state of the render that created it (`view`
 * here), not the store's current state: what it reads from `view` does not
 * see the message it has just added. The backend's answers to whatever the
 * handler asks are inputs (`Replies`).
 */
module Page {
  import opened Common
  import Text
  import opened Json
  import opened AppState
  import opened AppReducer
  import opened ReducerProperties
  import opened Store
  import opened Progress
  import opened Chat
  import opened HookFlow
  import opened RecipeHooks
  import opened ImageRecognition
  import opened Intent

  /** The backend's answers: to the intent call, to an optimization, to a generation, and how far the bar got first. */
  datatype Replies = Replies(
    intent: Outcome<Value>,
    optimize: Outcome<OptimizeReply>,
    generate: Outcome<Recipe>,
    ticksBeforeReply: nat)

  const NoIngredientsError := "请先识别或添加一些食材"
  const DescriptionHead := "我有这些食材："
  const DescriptionTail := "，请帮我生成一道菜谱。"
  const GeneratingNotice := "我来为您生成菜谱..."
  const OptimizeTrouble := "抱歉，优化菜谱时遇到了问题，请稍后重试。"
  const GenerateTrouble := "抱歉，生成菜谱时遇到了问题。您也可以点击下方的\"生成菜谱\"按钮重试。"
  const TextAcknowledgement := "我已经收到您的消息。如果您想生成菜谱，请告诉我您的食材和需求，或点击\"生成菜谱\"按钮。"
  const ImageAcknowledgement := "我已经收到您的消息。如果您想生成菜谱，请告诉我您的需求，或点击\"生成菜谱\"按钮。"
  const UploadHint := "请先上传一张包含食材的图片，我来帮您识别食材并生成菜谱。"

  /** The reply after a recipe was optimized, quoting the request. */
  function OptimizedNotice(message: string): string {
    "我已经根据您的需求\"" + message + "\"优化了菜谱。新的菜谱已经体现了您要求的改进。"
  }

  /** The chat message `addUserMessage` builds at millisecond `now`. */
  function UserMessage(message: string, now: nat): ChatMessage {
    ChatMessage(Text.NatString(now), User, message)
  }

  /** `addDelayedAIMessage(tab, content)` as it appears in the log, and the timer it queues. */
  function ReplyTimer(tab: TabType, content: string): Timer {
    Timer(DefaultReplyDelayMs, AiMessageJob(tab, content))
  }

  function Reply(tab: TabType, content: string): Effect {
    Scheduled(ReplyTimer(tab, content))
  }

  // ---------------------------------------------------------------------
  // What a log asks of the backend and what it says in the chat

  /** The requests of a log, in order. */
  function RequestsOf(effects: seq<Effect>): (r: seq<Request>)
    ensures |r| <= |effects|
    ensures (forall k :: 0 <= k < |effects| ==> !effects[k].Fetched?) ==> r == []
  {
    if effects == [] then []
    else (if effects[0].Fetched? then [effects[0].request] else []) + RequestsOf(effects[1..])
  }

  /** The contents of the AI chat messages a log queues, in order. */
  function AiRepliesOf(effects: seq<Effect>): (r: seq<string>)
    ensures |r| <= |effects|
    ensures (forall k :: 0 <= k < |effects| ==> !effects[k].Scheduled?) ==> r == []
  {
    if effects == [] then []
    else (if effects[0].Scheduled? && effects[0].timer.job.AiMessageJob? then [effects[0].timer.job.content] else [])
         + AiRepliesOf(effects[1..])
  }

  lemma {:induction false} RequestsOfConcat(a: seq<Effect>, b: seq<Effect>)
    ensures RequestsOf(a + b) == RequestsOf(a) + RequestsOf(b)
    decreases |a|
  {
    if a == [] {
      assert a + b == b;
    } else {
      assert (a + b)[0] == a[0];
      assert (a + b)[1..] == a[1..] + b;
      RequestsOfConcat(a[1..], b);
    }
  }

  lemma {:induction false} AiRepliesOfConcat(a: seq<Effect>, b: seq<Effect>)
    ensures AiRepliesOf(a + b) == AiRepliesOf(a) + AiRepliesOf(b)
    decreases |a|
  {
    if a == [] {
      assert a + b == b;
    } else {
      assert (a + b)[0] == a[0];
      assert (a + b)[1..] == a[1..] + b;
      AiRepliesOfConcat(a[1..], b);
    }
  }

  /** Both projections of a log, split at once. */
  lemma SplitProjections(a: seq<Effect>, b: seq<Effect>)
    ensures RequestsOf(a + b) == RequestsOf(a) + RequestsOf(b)
    ensures AiRepliesOf(a + b) == AiRepliesOf(a) + AiRepliesOf(b)
    ensures ActionsOf(a + b) == ActionsOf(a) + ActionsOf(b)
  {
    RequestsOfConcat(a, b);
    AiRepliesOfConcat(a, b);
    ActionsOfConcat(a, b);
  }

  /** The progress simulation only dispatches and sleeps. */
  lemma {:induction false} TicksOnlyDispatchAndSleep(lo: nat, hi: nat, duration: real)
    ensures forall k :: 0 <= k < |Progress.Ticks(lo, hi, duration)| ==>
              Progress.Ticks(lo, hi, duration)[k].Dispatched? || Progress.Ticks(lo, hi, duration)[k].Slept?
    decreases hi - lo
  {
    if lo < hi {
      TicksOnlyDispatchAndSleep(lo + 1, hi, duration);
      var t: seq<Effect> := Progress.Tick(lo, duration);
      var rest: seq<Effect> := Progress.Ticks(lo + 1, hi, duration);
      assert Progress.Ticks(lo, hi, duration) == t + rest;
      forall k | 0 <= k < |t + rest| ensures (t + rest)[k].Dispatched? || (t + rest)[k].Slept? {
        if k >= |t| {
          assert (t + rest)[k] == rest[k - |t|];
        }
      }
    }
  }

  /** Before its reply a hook sends exactly its request and queues no chat message. */
  lemma PreludeProjections(start: Action, message: string, variant: ProgressVariant, duration: real,
                           request: Request, ticksBeforeReply: nat)
    ensures RequestsOf(Prelude(start, message, variant, duration, request, ticksBeforeReply)) == [request]
    ensures AiRepliesOf(Prelude(start, message, variant, duration, request, ticksBeforeReply)) == []
  {
    var opening := Opening(start, message, variant, duration);
    var rest := Progress.Ticks(1, TicksBefore(ticksBeforeReply), duration);
    OpeningQuiet(start, message, variant, duration);
    TicksQuiet(1, TicksBefore(ticksBeforeReply), duration);
    SplitProjections(opening, [Fetched(request)]);
    SplitProjections(opening + [Fetched(request)], rest);
    assert RequestsOf([Fetched(request)]) == [request] by {
      assert [Fetched(request)][1..] == [];
    }
  }

  /** The progress ticks send nothing and queue no chat message. */
  lemma TicksQuiet(lo: nat, hi: nat, duration: real)
    ensures RequestsOf(Progress.Ticks(lo, hi, duration)) == [] && AiRepliesOf(Progress.Ticks(lo, hi, duration)) == []
  {
    TicksOnlyDispatchAndSleep(lo, hi, duration);
  }

  /** The opening of a hook (start, show, first tick) sends nothing and queues no chat message. */
  lemma OpeningQuiet(start: Action, message: string, variant: ProgressVariant, duration: real)
    ensures RequestsOf(Opening(start, message, variant, duration)) == []
    ensures AiRepliesOf(Opening(start, message, variant, duration)) == []
  {
    var opening := Opening(start, message, variant, duration);
    TicksOnlyDispatchAndSleep(0, 1, duration);
    forall k | 0 <= k < |opening| ensures !opening[k].Fetched? && !opening[k].Scheduled? {
      if k >= 2 {
        assert opening[k] == Progress.Ticks(0, 1, duration)[k - 2];
      }
    }
  }

  /** A reply that completes or fails the bar sends nothing and queues no chat message. */
  lemma QuietReply(reply: seq<Effect>)
    requires forall k :: 0 <= k < |reply| ==> reply[k].Dispatched? || reply[k] == CompletionTrace[1]
    ensures RequestsOf(reply) == [] && AiRepliesOf(reply) == []
  {
    if reply != [] {
      QuietReply(reply[1..]);
    }
  }

  /** `generateRecipe(description, tab)` sends exactly one request, carrying the description, and queues no chat message. */
  lemma GenerateProjections(description: string, tab: TabType, outcome: Outcome<Recipe>, ticksBeforeReply: nat)
    ensures RequestsOf(GenerateTrace(description, tab, outcome, ticksBeforeReply)) == [GenerateRequest(description)]
    ensures AiRepliesOf(GenerateTrace(description, tab, outcome, ticksBeforeReply)) == []
  {
    PreludeProjections(StartRecipeGeneration(tab), GenerateCaption, RecipeVariant, GenerateDurationMs,
                       GenerateRequest(description), ticksBeforeReply);
    QuietReply(GenerateReply(tab, outcome));
    SplitProjections(Prelude(StartRecipeGeneration(tab), GenerateCaption, RecipeVariant, GenerateDurationMs,
                             GenerateRequest(description), ticksBeforeReply),
                     GenerateReply(tab, outcome));
  }

  /** `optimizeRecipe` sends exactly one request, carrying the history, and queues no chat message. */
  lemma OptimizeProjections(current: Recipe, userRequest: string, conversation: seq<ChatMessage>, tab: TabType,
                            outcome: Outcome<OptimizeReply>, ticksBeforeReply: nat)
    ensures RequestsOf(OptimizeTrace(current, userRequest, conversation, tab, outcome, ticksBeforeReply))
            == [OptimizeRequestOf(current, userRequest, conversation)]
    ensures AiRepliesOf(OptimizeTrace(current, userRequest, conversation, tab, outcome, ticksBeforeReply)) == []
  {
    PreludeProjections(StartRecipeOptimization(tab), OptimizeCaption, OptimizeVariant, OptimizeDurationMs,
                       OptimizeRequestOf(current, userRequest, conversation), ticksBeforeReply);
    QuietReply(OptimizeReplyTrace(tab, outcome));
    SplitProjections(Prelude(StartRecipeOptimization(tab), OptimizeCaption, OptimizeVariant, OptimizeDurationMs,
                             OptimizeRequestOf(current, userRequest, conversation), ticksBeforeReply),
                     OptimizeReplyTrace(tab, outcome));
  }

  // ---------------------------------------------------------------------
  // Small handlers

  /** `handleTabChange(tab)`: only the active tab changes. */
  method HandleTabChange(store: AppStore, tab: TabType)
    modifies store
    ensures store.state == old(store.state).(activeTab := tab)
    ensures store.log == old(store.log) + [Dispatched(SetActiveTab(tab))]
    ensures store.timers == old(store.timers)
  {
    store.Dispatch(SetActiveTab(tab));
  }

  /** `handleTextInputChange(input)`: only the text tab's input changes, to exactly what was typed. */
  method HandleTextInputChange(store: AppStore, input: string)
    modifies store
    ensures store.state == old(store.state).(tabs := old(store.state).tabs.(text := old(store.state).tabs.text.(userInput := input)))
    ensures store.log == old(store.log) + [Dispatched(UpdateTextInput(input))]
    ensures store.timers == old(store.timers)
  {
    store.Dispatch(UpdateTextInput(input));
  }

  /** `handleImageUpload(file)`: `analyzeImage`, its rejection swallowed. */
  method HandleImageUpload(store: AppStore, outcome: Outcome<AnalysisReply>, ticksBeforeReply: nat)
    modifies store
    ensures store.log == old(store.log) + AnalysisTrace(outcome, ticksBeforeReply)
    ensures store.state == Run(old(store.state), ActionsOf(AnalysisTrace(outcome, ticksBeforeReply)))
    ensures store.timers == old(store.timers) + Remainder(AnalysisDurationMs, ticksBeforeReply)
                            + (if outcome.Ok? then [Timer(Progress.HideDelayMs, HideProgressJob)] else [])
  {
    var _ := AnalyzeImage(store, outcome, ticksBeforeReply);
  }

  // ---------------------------------------------------------------------
  // handleTextSubmit

  /** What `handleTextSubmit` does: nothing for blank input, otherwise generate on the text tab from the trimmed input. */
  function SubmitTrace(view: AppState, outcome: Outcome<Recipe>, ticksBeforeReply: nat): seq<Effect> {
    var input := Text.JsTrim(view.tabs.text.userInput);
    if input == "" then [] else GenerateTrace(input, TabType.Text, outcome, ticksBeforeReply)
  }

  method HandleTextSubmit(store: AppStore, view: AppState, outcome: Outcome<Recipe>, ticksBeforeReply: nat)
    modifies store
    ensures store.log == old(store.log) + SubmitTrace(view, outcome, ticksBeforeReply)
    ensures store.state == Run(old(store.state), ActionsOf(SubmitTrace(view, outcome, ticksBeforeReply)))
    ensures store.timers == old(store.timers)
              + (if Text.JsTrim(view.tabs.text.userInput) == "" then []
                 else TimersAfter(GenerateDurationMs, ticksBeforeReply, outcome.Ok?))
  {
    var userInput := Text.JsTrim(view.tabs.text.userInput);
    if userInput == "" {
      assert ActionsOf([]) == [];
      return;
    }
    var _ := GenerateRecipe(store, userInput, TabType.Text, outcome, ticksBeforeReply);
  }

  /**
   * Blank input sends nothing and changes nothing; any other input sends
   * exactly one generation request, carrying the trimmed input, for the
   * text tab.
   */
  lemma SubmitRequests(s: AppState, view: AppState, outcome: Outcome<Recipe>, ticksBeforeReply: nat)
    ensures var input := Text.JsTrim(view.tabs.text.userInput);
      && (input == "" ==> SubmitTrace(view, outcome, ticksBeforeReply) == []
                          && Run(s, ActionsOf(SubmitTrace(view, outcome, ticksBeforeReply))) == s)
      && (input != "" ==> RequestsOf(SubmitTrace(view, outcome, ticksBeforeReply)) == [GenerateRequest(input)]
                          && SubmitTrace(view, outcome, ticksBeforeReply)[0] == Dispatched(StartRecipeGeneration(TabType.Text)))
  {
    var input := Text.JsTrim(view.tabs.text.userInput);
    if input == "" {
      assert ActionsOf([]) == [];
    } else {
      GenerateProjections(input, TabType.Text, outcome, ticksBeforeReply);
    }
  }

  // ---------------------------------------------------------------------
  // handleGenerateFromIngredients

  /** The description sent for an ingredient list. */
  function IngredientsDescription(ingredients: seq<string>): string {
    DescriptionHead + Text.Join(ingredients, "、") + DescriptionTail
  }

  /** The description opens and closes with the fixed phrases and names every ingredient. */
  lemma DescriptionNamesEveryIngredient(ingredients: seq<string>)
    ensures Text.StartsWith(IngredientsDescription(ingredients), DescriptionHead)
    ensures forall k :: 0 <= k < |ingredients| ==> Text.Contains(IngredientsDescription(ingredients), ingredients[k])
    ensures var d := IngredientsDescription(ingredients);
              |d| >= |DescriptionTail| && d[|d| - |DescriptionTail|..] == DescriptionTail
  {
    var joined := Text.Join(ingredients, "、");
    var d := IngredientsDescription(ingredients);
    assert d[..|DescriptionHead|] == DescriptionHead;
    Text.JoinMentionsEveryPart(ingredients, "、");
    forall k | 0 <= k < |ingredients| ensures Text.Contains(d, ingredients[k]) {
      var i :| 0 <= i <= |joined| - |ingredients[k]| && Text.OccursAt(joined, ingredients[k], i);
      Text.OccursInLarger(DescriptionHead, joined, DescriptionTail, ingredients[k], i);
    }
    assert d[|d| - |DescriptionTail|..] == DescriptionTail;
  }

  /** What `handleGenerateFromIngredients` does with the list it sees. */
  function FromIngredientsTrace(ingredients: seq<string>, outcome: Outcome<Recipe>, ticksBeforeReply: nat): seq<Effect> {
    if |ingredients| == 0 then [Dispatched(RecipeGenerationError(TabType.Image, NoIngredientsError))]
    else GenerateTrace(IngredientsDescription(ingredients), TabType.Image, outcome, ticksBeforeReply)
  }

  function FromIngredientsTimers(ingredients: seq<string>, outcome: Outcome<Recipe>, ticksBeforeReply: nat): seq<Timer> {
    if |ingredients| == 0 then [] else TimersAfter(GenerateDurationMs, ticksBeforeReply, outcome.Ok?)
  }

  /**
   * `handleGenerateFromIngredients()`. It never rejects: a failed
   * generation has already been reported by `generateRecipe`, and its
   * rejection is swallowed here.
   */
  method HandleGenerateFromIngredients(store: AppStore, view: AppState, outcome: Outcome<Recipe>, ticksBeforeReply: nat)
    modifies store
    ensures store.log == old(store.log) + FromIngredientsTrace(view.tabs.image.identifiedIngredients, outcome, ticksBeforeReply)
    ensures store.state == Run(old(store.state), ActionsOf(FromIngredientsTrace(view.tabs.image.identifiedIngredients, outcome, ticksBeforeReply)))
    ensures store.timers == old(store.timers) + FromIngredientsTimers(view.tabs.image.identifiedIngredients, outcome, ticksBeforeReply)
  {
    var ingredients := view.tabs.image.identifiedIngredients;
    if |ingredients| == 0 {
      store.Dispatch(RecipeGenerationError(TabType.Image, NoIngredientsError));
      SingleDispatch(RecipeGenerationError(TabType.Image, NoIngredientsError));
      RunSingle(old(store.state), RecipeGenerationError(TabType.Image, NoIngredientsError));
      return;
    }
    var description := IngredientsDescription(ingredients);
    var _ := GenerateRecipe(store, description, TabType.Image, outcome, ticksBeforeReply);
  }

  /**
   * With nothing identified no request is sent: the image tab shows the
   * fixed error and stops generating, its recipe untouched. Otherwise
   * exactly one generation request is sent, carrying the description.
   */
  lemma FromIngredientsRequests(s: AppState, ingredients: seq<string>, outcome: Outcome<Recipe>, ticksBeforeReply: nat)
    ensures ingredients == [] ==>
              var r := Run(s, ActionsOf(FromIngredientsTrace(ingredients, outcome, ticksBeforeReply)));
              && RequestsOf(FromIngredientsTrace(ingredients, outcome, ticksBeforeReply)) == []
              && SessionOf(r, TabType.Image).error == Some(NoIngredientsError)
              && !SessionOf(r, TabType.Image).isGenerating
              && SessionOf(r, TabType.Image).recipe == SessionOf(s, TabType.Image).recipe
              && SessionOf(r, TabType.Text) == SessionOf(s, TabType.Text)
    ensures ingredients != [] ==>
              RequestsOf(FromIngredientsTrace(ingredients, outcome, ticksBeforeReply))
              == [GenerateRequest(IngredientsDescription(ingredients))]
  {
    if ingredients == [] {
      var a := RecipeGenerationError(TabType.Image, NoIngredientsError);
      SingleDispatch(a);
      RunSingle(s, a);
    } else {
      GenerateProjections(IngredientsDescription(ingredients), TabType.Image, outcome, ticksBeforeReply);
    }
  }

  // ---------------------------------------------------------------------
  // Sending a chat message

  /** The AI reply once an optimization settles. */
  function OptimizeFollowUp(message: string, settled: Settled<OptimizeResult>): string {
    match settled
    case Resolved(OffTopicResult(reminder)) => reminder
    case Resolved(Optimized(_)) => OptimizedNotice(message)
    case Rejected(_) => OptimizeTrouble
  }

  /** The branch for a tab that already has a recipe: optimize it, then reply. */
  function OptimizeBranch(tab: TabType, recipe: Recipe, message: string, conversation: seq<ChatMessage>,
                          outcome: Outcome<OptimizeReply>, ticksBeforeReply: nat): seq<Effect> {
    OptimizeTrace(recipe, message, conversation, tab, outcome, ticksBeforeReply)
      + [Reply(tab, OptimizeFollowUp(message, OptimizeSettle(outcome)))]
  }

  /** The acknowledgement each tab gives a message that is not a recipe request. */
  function Acknowledgement(tab: TabType): string {
    if tab == TabType.Text then TextAcknowledgement else ImageAcknowledgement
  }

  /** The text tab, asked for a recipe: announce it, generate from the message, and report a failure. */
  function TextGenerateBranch(message: string, replies: Replies): seq<Effect> {
    [Reply(TabType.Text, GeneratingNotice)] + GenerateTrace(message, TabType.Text, replies.generate, replies.ticksBeforeReply)
      + (if replies.generate.Ok? then [] else [Reply(TabType.Text, GenerateTrouble)])
  }

  /** The image tab, asked for a recipe with something identified: announce it and generate from the ingredients. */
  function ImageGenerateBranch(view: AppState, replies: Replies): seq<Effect> {
    [Reply(TabType.Image, GeneratingNotice)]
      + FromIngredientsTrace(view.tabs.image.identifiedIngredients, replies.generate, replies.ticksBeforeReply)
  }

  /** What a tab without a recipe does once the message is classified (`wanted`: it asks for a recipe). */
  function Answer(tab: TabType, view: AppState, message: string, wanted: bool, replies: Replies): seq<Effect> {
    if !wanted then [Reply(tab, Acknowledgement(tab))]
    else if tab == TabType.Text then TextGenerateBranch(message, replies)
    else if |view.tabs.image.identifiedIngredients| > 0 then ImageGenerateBranch(view, replies)
    else [Reply(tab, UploadHint)]
  }

  /** The branch for a tab without a recipe: classify, then answer. */
  function ClassifyBranch(tab: TabType, view: AppState, message: string, replies: Replies): seq<Effect> {
    [Fetched(IntentRequest(message))] + Answer(tab, view, message, IsRecipeRequest(message, replies.intent), replies)
  }

  /** Everything sending `message` on `tab` does, from the render `view`, at millisecond `now`. */
  function SendTrace(tab: TabType, view: AppState, message: string, now: nat, replies: Replies): seq<Effect> {
    [Dispatched(AddMessage(tab, UserMessage(message, now)))]
      + match SessionOf(view, tab).recipe
        case Some(recipe) =>
          OptimizeBranch(tab, recipe, message, SessionOf(view, tab).conversation, replies.optimize, replies.ticksBeforeReply)
        case None => ClassifyBranch(tab, view, message, replies)
  }

  function AnswerTimers(tab: TabType, view: AppState, wanted: bool, replies: Replies): seq<Timer> {
    if !wanted then [ReplyTimer(tab, Acknowledgement(tab))]
    else if tab == TabType.Text then
      [ReplyTimer(tab, GeneratingNotice)] + TimersAfter(GenerateDurationMs, replies.ticksBeforeReply, replies.generate.Ok?)
      + (if replies.generate.Ok? then [] else [ReplyTimer(tab, GenerateTrouble)])
    else if |view.tabs.image.identifiedIngredients| > 0 then
      [ReplyTimer(tab, GeneratingNotice)]
      + FromIngredientsTimers(view.tabs.image.identifiedIngredients, replies.generate, replies.ticksBeforeReply)
    else
      [ReplyTimer(tab, UploadHint)]
  }

  /** The timers sending a message leaves queued. */
  function SendTimers(tab: TabType, view: AppState, message: string, replies: Replies): seq<Timer> {
    match SessionOf(view, tab).recipe
    case Some(_) =>
      TimersAfter(OptimizeDurationMs, replies.ticksBeforeReply, Completes(replies.optimize))
      + [ReplyTimer(tab, OptimizeFollowUp(message, OptimizeSettle(replies.optimize)))]
    case None => AnswerTimers(tab, view, IsRecipeRequest(message, replies.intent), replies)
  }

  /** A queued chat reply dispatches nothing. */
  lemma ReplyActions(tab: TabType, content: string)
    ensures ActionsOf([Reply(tab, content)]) == []
  {
    assert [Reply(tab, content)][1..] == [];
  }

  /** Queuing a reply after a log: the log grows by it, the state is that of the log. */
  lemma ThenReply(s: AppState, log0: seq<Effect>, trace: seq<Effect>, tab: TabType, content: string)
    ensures log0 + trace + [Reply(tab, content)] == log0 + (trace + [Reply(tab, content)])
    ensures Run(s, ActionsOf(trace + [Reply(tab, content)])) == Run(s, ActionsOf(trace))
  {
    ReplyActions(tab, content);
    ActionsOfConcat(trace, [Reply(tab, content)]);
    assert ActionsOf(trace) + [] == ActionsOf(trace);
  }

  /** Queuing a reply before a log: the state is that of the log. */
  lemma ReplyThen(s: AppState, log0: seq<Effect>, tab: TabType, content: string, trace: seq<Effect>)
    ensures log0 + [Reply(tab, content)] + trace == log0 + ([Reply(tab, content)] + trace)
    ensures Run(s, ActionsOf([Reply(tab, content)] + trace)) == Run(s, ActionsOf(trace))
  {
    ReplyActions(tab, content);
    ActionsOfConcat([Reply(tab, content)], trace);
    assert [] + ActionsOf(trace) == ActionsOf(trace);
  }

  /** `optimizeRecipe` on the render's recipe and conversation, then the matching AI reply. */
  method OptimizeAndReply(store: AppStore, tab: TabType, recipe: Recipe, message: string,
                          conversation: seq<ChatMessage>, replies: Replies)
    modifies store
    ensures store.log == old(store.log)
              + OptimizeBranch(tab, recipe, message, conversation, replies.optimize, replies.ticksBeforeReply)
    ensures store.state == Run(old(store.state),
              ActionsOf(OptimizeBranch(tab, recipe, message, conversation, replies.optimize, replies.ticksBeforeReply)))
    ensures store.timers == old(store.timers)
              + TimersAfter(OptimizeDurationMs, replies.ticksBeforeReply, Completes(replies.optimize))
              + [ReplyTimer(tab, OptimizeFollowUp(message, OptimizeSettle(replies.optimize)))]
  {
    ghost var trace := OptimizeTrace(recipe, message, conversation, tab, replies.optimize, replies.ticksBeforeReply);
    var r := OptimizeRecipe(store, recipe, message, conversation, tab, replies.optimize, replies.ticksBeforeReply);
    AddDelayedAIMessage(store, tab, OptimizeFollowUp(message, r));
    ThenReply(old(store.state), old(store.log), trace, tab, OptimizeFollowUp(message, r));
  }

  /** The text tab, asked for a recipe: `addDelayedAIMessage` the notice, `generateRecipe`, and report a rejection. */
  method GenerateFromMessage(store: AppStore, message: string, replies: Replies)
    modifies store
    ensures store.log == old(store.log) + TextGenerateBranch(message, replies)
    ensures store.state == Run(old(store.state), ActionsOf(TextGenerateBranch(message, replies)))
    ensures store.timers == old(store.timers) + [ReplyTimer(TabType.Text, GeneratingNotice)]
              + TimersAfter(GenerateDurationMs, replies.ticksBeforeReply, replies.generate.Ok?)
              + (if replies.generate.Ok? then [] else [ReplyTimer(TabType.Text, GenerateTrouble)])
  {
    var tab := TabType.Text;
    AddDelayedAIMessage(store, tab, GeneratingNotice);
    ghost var gen := GenerateTrace(message, tab, replies.generate, replies.ticksBeforeReply);
    var r := GenerateRecipe(store, message, tab, replies.generate, replies.ticksBeforeReply);
    ReplyThen(old(store.state), old(store.log), tab, GeneratingNotice, gen);
    if r.Rejected? {
      AddDelayedAIMessage(store, tab, GenerateTrouble);
      ThenReply(old(store.state), old(store.log), [Reply(tab, GeneratingNotice)] + gen, tab, GenerateTrouble);
    } else {
      assert [Reply(tab, GeneratingNotice)] + gen + [] == [Reply(tab, GeneratingNotice)] + gen;
    }
  }

  /** The image tab, asked for a recipe with something identified: the notice, then `handleGenerateFromIngredients`. */
  method GenerateFromIdentified(store: AppStore, view: AppState, replies: Replies)
    requires |view.tabs.image.identifiedIngredients| > 0
    modifies store
    ensures store.log == old(store.log) + ImageGenerateBranch(view, replies)
    ensures store.state == Run(old(store.state), ActionsOf(ImageGenerateBranch(view, replies)))
    ensures store.timers == old(store.timers) + AnswerTimers(TabType.Image, view, true, replies)
  {
    var tab := TabType.Image;
    AddDelayedAIMessage(store, tab, GeneratingNotice);
    ghost var gen := FromIngredientsTrace(view.tabs.image.identifiedIngredients, replies.generate, replies.ticksBeforeReply);
    HandleGenerateFromIngredients(store, view, replies.generate, replies.ticksBeforeReply);
    ReplyThen(old(store.state), old(store.log), tab, GeneratingNotice, gen);
  }

  /** The text tab without a recipe: `isRecipeRequest`, then generate from the message or acknowledge it. */
  method ClassifyTextMessage(store: AppStore, view: AppState, message: string, replies: Replies)
    modifies store
    ensures store.log == old(store.log) + ClassifyBranch(TabType.Text, view, message, replies)
    ensures store.state == Run(old(store.state), ActionsOf(ClassifyBranch(TabType.Text, view, message, replies)))
    ensures store.timers == old(store.timers) + AnswerTimers(TabType.Text, view, IsRecipeRequest(message, replies.intent), replies)
  {
    var tab := TabType.Text;
    var seemsLikeRecipeRequest := AskIntent(store, message, replies.intent);
    ghost var answer := Answer(tab, view, message, seemsLikeRecipeRequest, replies);
    if seemsLikeRecipeRequest {
      GenerateFromMessage(store, message, replies);
      ghost var notice := [ReplyTimer(tab, GeneratingNotice)];
      ghost var waiting := TimersAfter(GenerateDurationMs, replies.ticksBeforeReply, replies.generate.Ok?);
      ghost var trouble := if replies.generate.Ok? then [] else [ReplyTimer(tab, GenerateTrouble)];
      AppendAssoc(old(store.timers), notice, waiting);
      AppendAssoc(old(store.timers), notice + waiting, trouble);
    } else {
      AddDelayedAIMessage(store, tab, Acknowledgement(tab));
      ReplyActions(tab, Acknowledgement(tab));
    }
    AppendAssoc(old(store.log), [Fetched(IntentRequest(message))], answer);
    AskThen(old(store.state), message, answer);
  }

  /** The intent call dispatches nothing. */
  lemma AskThen(s: AppState, message: string, trace: seq<Effect>)
    ensures Run(s, ActionsOf([Fetched(IntentRequest(message))] + trace)) == Run(s, ActionsOf(trace))
  {
    assert [Fetched(IntentRequest(message))][1..] == [];
    ActionsOfConcat([Fetched(IntentRequest(message))], trace);
    assert [] + ActionsOf(trace) == ActionsOf(trace);
  }

  /** The image tab without a recipe: `isRecipeRequest`, then generate from the ingredients, ask for a photo, or acknowledge. */
  method ClassifyImageMessage(store: AppStore, view: AppState, message: string, replies: Replies)
    modifies store
    ensures store.log == old(store.log) + ClassifyBranch(TabType.Image, view, message, replies)
    ensures store.state == Run(old(store.state), ActionsOf(ClassifyBranch(TabType.Image, view, message, replies)))
    ensures store.timers == old(store.timers) + AnswerTimers(TabType.Image, view, IsRecipeRequest(message, replies.intent), replies)
  {
    var tab := TabType.Image;
    var seemsLikeRecipeRequest := AskIntent(store, message, replies.intent);
    ghost var answer := Answer(tab, view, message, seemsLikeRecipeRequest, replies);
    if seemsLikeRecipeRequest {
      if |view.tabs.image.identifiedIngredients| > 0 {
        GenerateFromIdentified(store, view, replies);
      } else {
        AddDelayedAIMessage(store, tab, UploadHint);
        ReplyActions(tab, UploadHint);
      }
    } else {
      AddDelayedAIMessage(store, tab, Acknowledgement(tab));
      ReplyActions(tab, Acknowledgement(tab));
    }
    AppendAssoc(old(store.log), [Fetched(IntentRequest(message))], answer);
    AskThen(old(store.state), message, answer);
  }

  /** Adding the user's message, then the rest of a send. */
  lemma UserMessageFirst(s: AppState, tab: TabType, m: ChatMessage, rest: seq<Effect>)
    ensures Run(Step(s, AddMessage(tab, m)), ActionsOf(rest)) == Run(s, ActionsOf([Dispatched(AddMessage(tab, m))] + rest))
  {
    SingleDispatch(AddMessage(tab, m));
    RunSingle(s, AddMessage(tab, m));
    RunEffects(s, [Dispatched(AddMessage(tab, m))], rest);
  }

  /** `handleTextTabSendMessage(message)`. */
  method HandleTextTabSendMessage(store: AppStore, view: AppState, message: string, now: nat, replies: Replies)
    modifies store
    ensures store.log == old(store.log) + SendTrace(TabType.Text, view, message, now, replies)
    ensures store.state == Run(old(store.state), ActionsOf(SendTrace(TabType.Text, view, message, now, replies)))
    ensures store.timers == old(store.timers) + SendTimers(TabType.Text, view, message, replies)
  {
    var tab := TabType.Text;
    var m := AddUserMessage(store, tab, message, now);
    ghost var rest: seq<Effect>;
    match view.tabs.text.base.recipe {
      case Some(recipe) =>
        OptimizeAndReply(store, tab, recipe, message, view.tabs.text.base.conversation, replies);
        rest := OptimizeBranch(tab, recipe, message, view.tabs.text.base.conversation, replies.optimize, replies.ticksBeforeReply);
      case None =>
        ClassifyTextMessage(store, view, message, replies);
        rest := ClassifyBranch(tab, view, message, replies);
    }
    assert SendTrace(tab, view, message, now, replies) == [Dispatched(AddMessage(tab, m))] + rest;
    AppendAssoc(old(store.log), [Dispatched(AddMessage(tab, m))], rest);
    UserMessageFirst(old(store.state), tab, m, rest);
  }

  /** `handleImageTabSendMessage(message)`. */
  method HandleImageTabSendMessage(store: AppStore, view: AppState, message: string, now: nat, replies: Replies)
    modifies store
    ensures store.log == old(store.log) + SendTrace(TabType.Image, view, message, now, replies)
    ensures store.state == Run(old(store.state), ActionsOf(SendTrace(TabType.Image, view, message, now, replies)))
    ensures store.timers == old(store.timers) + SendTimers(TabType.Image, view, message, replies)
  {
    var tab := TabType.Image;
    var m := AddUserMessage(store, tab, message, now);
    ghost var rest: seq<Effect>;
    match view.tabs.image.base.recipe {
      case Some(recipe) =>
        OptimizeAndReply(store, tab, recipe, message, view.tabs.image.base.conversation, replies);
        rest := OptimizeBranch(tab, recipe, message, view.tabs.image.base.conversation, replies.optimize, replies.ticksBeforeReply);
      case None =>
        ClassifyImageMessage(store, view, message, replies);
        rest := ClassifyBranch(tab, view, message, replies);
    }
    assert SendTrace(tab, view, message, now, replies) == [Dispatched(AddMessage(tab, m))] + rest;
    AppendAssoc(old(store.log), [Dispatched(AddMessage(tab, m))], rest);
    UserMessageFirst(old(store.state), tab, m, rest);
  }

  // ---------------------------------------------------------------------
  // What a send does, seen from the backend and from the chat

  /**
   * The requests a send makes. With a recipe: one optimization request
   * carrying the render's conversation, and never an intent call. Without:
   * the intent call, then a generation only if the message is classified
   * as a recipe request (and, on the image tab, something was identified).
   */
  lemma SendRequests(tab: TabType, view: AppState, message: string, now: nat, replies: Replies)
    ensures var sess := SessionOf(view, tab);
      var requests := RequestsOf(SendTrace(tab, view, message, now, replies));
      var wanted := IsRecipeRequest(message, replies.intent);
      var ingredients := view.tabs.image.identifiedIngredients;
      && (sess.recipe.Some? ==>
            requests == [OptimizeRequest(sess.recipe.value, message, HistoryData(sess.conversation))])
      && (sess.recipe.None? && tab == TabType.Text ==>
            requests == [IntentRequest(message)] + (if wanted then [GenerateRequest(message)] else []))
      && (sess.recipe.None? && tab == TabType.Image ==>
            requests == [IntentRequest(message)]
                        + (if wanted && ingredients != [] then [GenerateRequest(IngredientsDescription(ingredients))] else []))
  {
    if SessionOf(view, tab).recipe.Some? {
      OptimizingSendRequests(tab, view, message, now, replies);
    } else {
      ClassifyingSendRequests(tab, view, message, now, replies);
    }
  }

  /** With a recipe on the tab, a send makes the one optimize request. */
  lemma OptimizingSendRequests(tab: TabType, view: AppState, message: string, now: nat, replies: Replies)
    requires SessionOf(view, tab).recipe.Some?
    ensures var sess := SessionOf(view, tab);
      RequestsOf(SendTrace(tab, view, message, now, replies))
      == [OptimizeRequest(sess.recipe.value, message, HistoryData(sess.conversation))]
  {
    var first: seq<Effect> := [Dispatched(AddMessage(tab, UserMessage(message, now)))];
    var sess := SessionOf(view, tab);
    var recipe := sess.recipe.value;
    var rest := OptimizeBranch(tab, recipe, message, sess.conversation, replies.optimize, replies.ticksBeforeReply);
    OptimizeProjections(recipe, message, sess.conversation, tab, replies.optimize, replies.ticksBeforeReply);
    SplitProjections(OptimizeTrace(recipe, message, sess.conversation, tab, replies.optimize, replies.ticksBeforeReply),
                     [Reply(tab, OptimizeFollowUp(message, OptimizeSettle(replies.optimize)))]);
    SplitProjections(first, rest);
  }

  /** Without a recipe, a send makes the intent request and, for a recipe request, the generation request. */
  lemma ClassifyingSendRequests(tab: TabType, view: AppState, message: string, now: nat, replies: Replies)
    requires SessionOf(view, tab).recipe.None?
    ensures var requests := RequestsOf(SendTrace(tab, view, message, now, replies));
      var wanted := IsRecipeRequest(message, replies.intent);
      var ingredients := view.tabs.image.identifiedIngredients;
      && (tab == TabType.Text ==>
            requests == [IntentRequest(message)] + (if wanted then [GenerateRequest(message)] else []))
      && (tab == TabType.Image ==>
            requests == [IntentRequest(message)]
                        + (if wanted && ingredients != [] then [GenerateRequest(IngredientsDescription(ingredients))] else []))
  {
    var first: seq<Effect> := [Dispatched(AddMessage(tab, UserMessage(message, now)))];
    ClassifyProjections(tab, view, message, replies);
    AnswerProjections(tab, view, message, IsRecipeRequest(message, replies.intent), replies);
    SplitProjections(first, ClassifyBranch(tab, view, message, replies));
  }

  /** The chat replies a send queues, in order. */
  lemma SendAiReplies(tab: TabType, view: AppState, message: string, now: nat, replies: Replies)
    ensures var sess := SessionOf(view, tab);
      var said := AiRepliesOf(SendTrace(tab, view, message, now, replies));
      var wanted := IsRecipeRequest(message, replies.intent);
      && (sess.recipe.Some? ==> said == [OptimizeFollowUp(message, OptimizeSettle(replies.optimize))])
      && (sess.recipe.None? && !wanted ==>
            said == [if tab == TabType.Text then TextAcknowledgement else ImageAcknowledgement])
      && (sess.recipe.None? && wanted && tab == TabType.Text ==>
            said == [GeneratingNotice] + (if replies.generate.Ok? then [] else [GenerateTrouble]))
      && (sess.recipe.None? && wanted && tab == TabType.Image ==>
            said == [if view.tabs.image.identifiedIngredients != [] then GeneratingNotice else UploadHint])
  {
    if SessionOf(view, tab).recipe.Some? {
      OptimizingSendReplies(tab, view, message, now, replies);
    } else {
      ClassifyingSendReplies(tab, view, message, now, replies);
    }
  }

  /** With a recipe on the tab, the one chat reply of a send is the optimization's follow-up. */
  lemma OptimizingSendReplies(tab: TabType, view: AppState, message: string, now: nat, replies: Replies)
    requires SessionOf(view, tab).recipe.Some?
    ensures AiRepliesOf(SendTrace(tab, view, message, now, replies))
            == [OptimizeFollowUp(message, OptimizeSettle(replies.optimize))]
  {
    var first: seq<Effect> := [Dispatched(AddMessage(tab, UserMessage(message, now)))];
    var sess := SessionOf(view, tab);
    var recipe := sess.recipe.value;
    var rest := OptimizeBranch(tab, recipe, message, sess.conversation, replies.optimize, replies.ticksBeforeReply);
    var follow := [Reply(tab, OptimizeFollowUp(message, OptimizeSettle(replies.optimize)))];
    OptimizeProjections(recipe, message, sess.conversation, tab, replies.optimize, replies.ticksBeforeReply);
    SplitProjections(OptimizeTrace(recipe, message, sess.conversation, tab, replies.optimize, replies.ticksBeforeReply), follow);
    assert AiRepliesOf(follow) == [OptimizeFollowUp(message, OptimizeSettle(replies.optimize))] by {
      assert follow[1..] == [];
    }
    SplitProjections(first, rest);
  }

  /** Without a recipe, the chat replies of a send are the classification's answer. */
  lemma ClassifyingSendReplies(tab: TabType, view: AppState, message: string, now: nat, replies: Replies)
    requires SessionOf(view, tab).recipe.None?
    ensures var said := AiRepliesOf(SendTrace(tab, view, message, now, replies));
      var wanted := IsRecipeRequest(message, replies.intent);
      && (!wanted ==> said == [if tab == TabType.Text then TextAcknowledgement else ImageAcknowledgement])
      && (wanted && tab == TabType.Text ==>
            said == [GeneratingNotice] + (if replies.generate.Ok? then [] else [GenerateTrouble]))
      && (wanted && tab == TabType.Image ==>
            said == [if view.tabs.image.identifiedIngredients != [] then GeneratingNotice else UploadHint])
  {
    var first: seq<Effect> := [Dispatched(AddMessage(tab, UserMessage(message, now)))];
    ClassifyProjections(tab, view, message, replies);
    AnswerProjections(tab, view, message, IsRecipeRequest(message, replies.intent), replies);
    SplitProjections(first, ClassifyBranch(tab, view, message, replies));
  }

  /** A single queued reply: no request, one chat message. */
  lemma ReplyProjections(tab: TabType, content: string)
    ensures RequestsOf([Reply(tab, content)]) == [] && AiRepliesOf([Reply(tab, content)]) == [content]
  {
    assert [Reply(tab, content)][1..] == [];
  }

  /** Generating from the message on the text tab: one request carrying the message; the notice, then a report of any failure. */
  lemma TextGenerateProjections(message: string, replies: Replies)
    ensures RequestsOf(TextGenerateBranch(message, replies)) == [GenerateRequest(message)]
    ensures AiRepliesOf(TextGenerateBranch(message, replies))
            == [GeneratingNotice] + (if replies.generate.Ok? then [] else [GenerateTrouble])
  {
    var tab := TabType.Text;
    var notice := [Reply(tab, GeneratingNotice)];
    var gen := GenerateTrace(message, tab, replies.generate, replies.ticksBeforeReply);
    var tail: seq<Effect> := if replies.generate.Ok? then [] else [Reply(tab, GenerateTrouble)];
    ReplyProjections(tab, GeneratingNotice);
    if !replies.generate.Ok? {
      ReplyProjections(tab, GenerateTrouble);
    }
    GenerateProjections(message, tab, replies.generate, replies.ticksBeforeReply);
    SplitProjections(notice, gen);
    SplitProjections(notice + gen, tail);
  }

  /** Generating from the ingredients on the image tab: one request carrying their description, and only the notice. */
  lemma ImageGenerateProjections(view: AppState, replies: Replies)
    requires view.tabs.image.identifiedIngredients != []
    ensures RequestsOf(ImageGenerateBranch(view, replies))
            == [GenerateRequest(IngredientsDescription(view.tabs.image.identifiedIngredients))]
    ensures AiRepliesOf(ImageGenerateBranch(view, replies)) == [GeneratingNotice]
  {
    var ingredients := view.tabs.image.identifiedIngredients;
    ReplyProjections(TabType.Image, GeneratingNotice);
    GenerateProjections(IngredientsDescription(ingredients), TabType.Image, replies.generate, replies.ticksBeforeReply);
    SplitProjections([Reply(TabType.Image, GeneratingNotice)],
                     FromIngredientsTrace(ingredients, replies.generate, replies.ticksBeforeReply));
  }

  /** The requests and replies of a tab without a recipe once the message is classified. */
  lemma AnswerProjections(tab: TabType, view: AppState, message: string, wanted: bool, replies: Replies)
    ensures var answer := Answer(tab, view, message, wanted, replies);
      var ingredients := view.tabs.image.identifiedIngredients;
      && RequestsOf(answer)
         == (if !wanted then []
             else if tab == TabType.Text then [GenerateRequest(message)]
             else if ingredients != [] then [GenerateRequest(IngredientsDescription(ingredients))]
             else [])
      && AiRepliesOf(answer)
         == (if !wanted then [Acknowledgement(tab)]
             else if tab == TabType.Text then [GeneratingNotice] + (if replies.generate.Ok? then [] else [GenerateTrouble])
             else if ingredients != [] then [GeneratingNotice]
             else [UploadHint])
  {
    if !wanted {
      ReplyProjections(tab, Acknowledgement(tab));
    } else if tab == TabType.Text {
      TextGenerateProjections(message, replies);
    } else if view.tabs.image.identifiedIngredients != [] {
      ImageGenerateProjections(view, replies);
    } else {
      ReplyProjections(tab, UploadHint);
    }
  }

  /** The requests and replies of the branch without a recipe: the intent call first, then the answer's. */
  lemma ClassifyProjections(tab: TabType, view: AppState, message: string, replies: Replies)
    ensures var wanted := IsRecipeRequest(message, replies.intent);
      var answer := Answer(tab, view, message, wanted, replies);
      && RequestsOf(ClassifyBranch(tab, view, message, replies)) == [IntentRequest(message)] + RequestsOf(answer)
      && AiRepliesOf(ClassifyBranch(tab, view, message, replies)) == AiRepliesOf(answer)
  {
    var ask: seq<Effect> := [Fetched(IntentRequest(message))];
    assert RequestsOf(ask) == [IntentRequest(message)] && AiRepliesOf(ask) == [] by {
      assert ask[1..] == [];
    }
    SplitProjections(ask, Answer(tab, view, message, IsRecipeRequest(message, replies.intent), replies));
  }

  /**
   * Without a recipe the image tab never says that generation ran into a
   * problem: a failed generation from the ingredients is swallowed by
   * `handleGenerateFromIngredients` before the chat could report it.
   */
  lemma ImageTabNeverReportsGenerationTrouble(view: AppState, message: string, now: nat, replies: Replies)
    requires view.tabs.image.base.recipe.None?
    ensures GenerateTrouble !in AiRepliesOf(SendTrace(TabType.Image, view, message, now, replies))
  {
    SendAiReplies(TabType.Image, view, message, now, replies);
  }

  /**
   * A message that is not a recipe request, or one on the image tab with
   * nothing identified, only records the user's message: no recipe, no
   * ingredient and no progress changes.
   */
  lemma UnansweredSendOnlyRecordsMessage(s: AppState, tab: TabType, view: AppState, message: string, now: nat, replies: Replies)
    requires SessionOf(view, tab).recipe.None?
    requires !IsRecipeRequest(message, replies.intent)
             || (tab == TabType.Image && view.tabs.image.identifiedIngredients == [])
    ensures Run(s, ActionsOf(SendTrace(tab, view, message, now, replies)))
            == Step(s, AddMessage(tab, UserMessage(message, now)))
  {
    var first: seq<Effect> := [Dispatched(AddMessage(tab, UserMessage(message, now)))];
    var branch := ClassifyBranch(tab, view, message, replies);
    assert ActionsOf(branch) == [];
    UserMessageFirst(s, tab, UserMessage(message, now), branch);
  }

  /**
   * With a recipe, the history sent is the render's conversation: when the
   * render is the state the send started from, it has one entry fewer than
   * the conversation after the user's message was added, and it is exactly
   * that conversation minus its new last message.
   */
  lemma OptimizeHistoryExcludesNewMessage(s: AppState, tab: TabType, message: string, now: nat)
    ensures var after := SessionOf(Step(s, AddMessage(tab, UserMessage(message, now))), tab).conversation;
      && |HistoryData(SessionOf(s, tab).conversation)| == |after| - 1
      && HistoryData(SessionOf(s, tab).conversation) == HistoryData(after[..|after| - 1])
  {
    AddedMessageIsLast(s, tab, User, message, now);
  }
}
