/**
 * `useImageRecognition`: sending a photo for ingredient analysis, and
 * editing the identified ingredient list by hand.
 */
module ImageRecognition {
  import opened Common
  import opened AppState
  import opened AppReducer
  import opened ReducerProperties
  import opened Store
  import opened Progress
  import opened HookFlow

  const AnalysisCaption := "正在识别图片中的食材..."
  const AnalysisDurationMs: real := 3000.0
  const AnalysisFailure := "图片识别失败，请检查后端服务是否开启，或查看浏览器控制台获取更多信息。"
  /** The message of the error thrown when the body says the analysis did not succeed. */
  const NotSucceeded := "分析失败"

  /** The analysis endpoint's body: the truthiness of its `success` field and its `ingredients`. */
  datatype AnalysisReply = AnalysisReply(success: bool, ingredients: seq<string>)

  /**
   * After the reply. A good HTTP reply always completes the bar first,
   * even when the body then reports failure; the failure path then also
   * hides it.
   */
  function AnalysisReplyTrace(outcome: Outcome<AnalysisReply>): seq<Effect> {
    if !outcome.Ok? then [Dispatched(HideProgress), Dispatched(ImageAnalysisError(AnalysisFailure))]
    else if outcome.value.success then CompletionTrace + [Dispatched(ImageAnalysisSuccess(outcome.value.ingredients))]
    else CompletionTrace + [Dispatched(HideProgress), Dispatched(ImageAnalysisError(AnalysisFailure))]
  }

  /** Everything `analyzeImage(file)` does when the backend answers with `outcome`; the file itself is not modelled. */
  function AnalysisTrace(outcome: Outcome<AnalysisReply>, ticksBeforeReply: nat): seq<Effect> {
    Prelude(StartImageAnalysis, AnalysisCaption, AnalysisVariant, AnalysisDurationMs, AnalyzeRequest, ticksBeforeReply)
      + AnalysisReplyTrace(outcome)
  }

  /** How `analyzeImage` settles: the ingredients, or the error it rethrows. */
  function AnalysisSettle(outcome: Outcome<AnalysisReply>): (r: Settled<seq<string>>)
    ensures r.Resolved? <==> outcome.Ok? && outcome.value.success
    ensures r.Resolved? ==> r.value == outcome.value.ingredients
    ensures outcome.Ok? && !outcome.value.success ==> r == Rejected(NotSucceeded)
  {
    if !outcome.Ok? then Rejected(ThrownBy(outcome))
    else if outcome.value.success then Resolved(outcome.value.ingredients)
    else Rejected(NotSucceeded)
  }

  method AnalyzeImage(store: AppStore, outcome: Outcome<AnalysisReply>, ticksBeforeReply: nat)
    returns (r: Settled<seq<string>>)
    modifies store
    ensures store.log == old(store.log) + AnalysisTrace(outcome, ticksBeforeReply)
    ensures store.state == Run(old(store.state), ActionsOf(AnalysisTrace(outcome, ticksBeforeReply)))
    ensures store.timers == old(store.timers) + Remainder(AnalysisDurationMs, ticksBeforeReply)
                            + (if outcome.Ok? then [Timer(HideDelayMs, HideProgressJob)] else [])
    ensures r == AnalysisSettle(outcome)
  {
    ghost var s0 := store.state;
    StartAndRequest(store, StartImageAnalysis, AnalysisCaption, AnalysisVariant, AnalysisDurationMs,
                    AnalyzeRequest, ticksBeforeReply);
    ghost var prelude := Prelude(StartImageAnalysis, AnalysisCaption, AnalysisVariant, AnalysisDurationMs,
                                 AnalyzeRequest, ticksBeforeReply);
    r := HandleAnalysisReply(store, outcome);
    AppendAssoc(old(store.log), prelude, AnalysisReplyTrace(outcome));
    AppendAssoc(old(store.timers), Remainder(AnalysisDurationMs, ticksBeforeReply),
                if outcome.Ok? then [Timer(HideDelayMs, HideProgressJob)] else []);
    RunEffects(s0, prelude, AnalysisReplyTrace(outcome));
  }

  /** The part of `analyzeImage` after the reply arrives. */
  method HandleAnalysisReply(store: AppStore, outcome: Outcome<AnalysisReply>) returns (r: Settled<seq<string>>)
    modifies store
    ensures store.log == old(store.log) + AnalysisReplyTrace(outcome)
    ensures store.state == Run(old(store.state), ActionsOf(AnalysisReplyTrace(outcome)))
    ensures store.timers == old(store.timers) + (if outcome.Ok? then [Timer(HideDelayMs, HideProgressJob)] else [])
    ensures r == AnalysisSettle(outcome)
  {
    if !outcome.Ok? {
      FailWith(store, ImageAnalysisError(AnalysisFailure));
      r := Rejected(ThrownBy(outcome));
    } else if outcome.value.success {
      CompleteWith(store, ImageAnalysisSuccess(outcome.value.ingredients));
      r := Resolved(outcome.value.ingredients);
    } else {
      ghost var s0, log0 := store.state, store.log;
      CompleteProgress(store);
      FailWith(store, ImageAnalysisError(AnalysisFailure));
      r := Rejected(NotSucceeded);
      AppendAssoc(log0, CompletionTrace, [Dispatched(HideProgress), Dispatched(ImageAnalysisError(AnalysisFailure))]);
      CompletedThenFailed(s0, ImageAnalysisError(AnalysisFailure));
    }
  }

  /**
   * A successful analysis replaces the ingredient list by the reply's list
   * exactly as sent (duplicates and blanks included), clears the analysing
   * flag and error, and touches no session.
   */
  lemma AnalysisSucceeds(s: AppState, ingredients: seq<string>, ticksBeforeReply: nat)
    ensures var r := Run(s, ActionsOf(AnalysisTrace(Ok(AnalysisReply(true, ingredients)), ticksBeforeReply)));
              && r.tabs.image.identifiedIngredients == ingredients
              && !r.tabs.image.isAnalyzing && r.tabs.image.analysisError == None
              && r.ui.progressBar == ProgressState(true, 100, AnalysisCaption, AnalysisVariant)
              && r.activeTab == s.activeTab && r.tabs.text == s.tabs.text && r.tabs.image.base == s.tabs.image.base
  {
    assert AnalysisReplyTrace(Ok(AnalysisReply(true, ingredients)))
        == CompletionTrace + [Dispatched(ImageAnalysisSuccess(ingredients))];
    CompletedHook(s, StartImageAnalysis, AnalysisCaption, AnalysisVariant, AnalysisDurationMs,
                  AnalyzeRequest, ticksBeforeReply, ImageAnalysisSuccess(ingredients));
  }

  /**
   * A failed call leaves the ingredient list empty (the start cleared
   * it), sets the fixed error and hides the bar; no session changes.
   */
  lemma AnalysisCallFails(s: AppState, outcome: Outcome<AnalysisReply>, ticksBeforeReply: nat)
    requires !outcome.Ok?
    ensures var r := Run(s, ActionsOf(AnalysisTrace(outcome, ticksBeforeReply)));
              && r.tabs.image.identifiedIngredients == []
              && !r.tabs.image.isAnalyzing && r.tabs.image.analysisError == Some(AnalysisFailure)
              && !r.ui.progressBar.isVisible
              && r.activeTab == s.activeTab && r.tabs.text == s.tabs.text && r.tabs.image.base == s.tabs.image.base
  {
    assert AnalysisReplyTrace(outcome) == [Dispatched(HideProgress), Dispatched(ImageAnalysisError(AnalysisFailure))];
    FailedHook(s, StartImageAnalysis, AnalysisCaption, AnalysisVariant, AnalysisDurationMs,
               AnalyzeRequest, ticksBeforeReply, ImageAnalysisError(AnalysisFailure));
  }

  /**
   * A body reporting failure ends the same way as a failed call: the
   * ingredient list empty, the fixed error set, the bar hidden (at 100%,
   * since it was completed first).
   */
  lemma AnalysisReportedFailure(s: AppState, ingredients: seq<string>, ticksBeforeReply: nat)
    ensures var r := Run(s, ActionsOf(AnalysisTrace(Ok(AnalysisReply(false, ingredients)), ticksBeforeReply)));
              && r.tabs.image.identifiedIngredients == []
              && !r.tabs.image.isAnalyzing && r.tabs.image.analysisError == Some(AnalysisFailure)
              && !r.ui.progressBar.isVisible && r.ui.progressBar.progress == 100
              && r.activeTab == s.activeTab && r.tabs.text == s.tabs.text && r.tabs.image.base == s.tabs.image.base
  {
    var fail := [Dispatched(HideProgress), Dispatched(ImageAnalysisError(AnalysisFailure))];
    assert AnalysisReplyTrace(Ok(AnalysisReply(false, ingredients))) == CompletionTrace + fail;
    CompletedThenFailedHook(s, StartImageAnalysis, AnalysisCaption, AnalysisVariant, AnalysisDurationMs,
                            AnalyzeRequest, ticksBeforeReply, ImageAnalysisError(AnalysisFailure));
  }

  /** A body that reports failure still shows 100% before the bar is hidden. */
  lemma ReportedFailureCompletesThenHides(ingredients: seq<string>)
    ensures var actions := ActionsOf(AnalysisReplyTrace(Ok(AnalysisReply(false, ingredients))));
              actions == [UpdateProgress(100), HideProgress, ImageAnalysisError(AnalysisFailure)]
  {
    var fail := [Dispatched(HideProgress), Dispatched(ImageAnalysisError(AnalysisFailure))];
    ActionsOfConcat(CompletionTrace, fail);
    assert ActionsOf(CompletionTrace) == [UpdateProgress(100)] by {
      assert CompletionTrace[1..][1..] == [];
    }
    FailedReply(InitialAppState, ImageAnalysisError(AnalysisFailure));
  }

  /** `addIngredient(ingredient)`: the payload goes to the reducer untrimmed; the reducer trims and deduplicates. */
  method AddIngredientOp(store: AppStore, ingredient: string)
    modifies store
    ensures store.log == old(store.log) + [Dispatched(AddIngredient(ingredient))]
    ensures store.state == Step(old(store.state), AddIngredient(ingredient))
    ensures store.timers == old(store.timers)
  {
    store.Dispatch(AddIngredient(ingredient));
  }

  /** `removeIngredient(ingredient)`. */
  method RemoveIngredientOp(store: AppStore, ingredient: string)
    modifies store
    ensures store.log == old(store.log) + [Dispatched(RemoveIngredient(ingredient))]
    ensures store.state == Step(old(store.state), RemoveIngredient(ingredient))
    ensures store.timers == old(store.timers)
  {
    store.Dispatch(RemoveIngredient(ingredient));
  }
}
