/**
 * What each reducer action changes and what it leaves alone, and the
 * invariants that hold over any sequence of dispatched actions.
 */
module ReducerProperties {
  import opened Common
  import opened Text
  import opened AppState
  import opened AppReducer

  // ---------------------------------------------------------------------
  // Frames

  /** `r` differs from `s` at most in the fields both tabs share, on tab `tab`. */
  predicate OnlySessionChanged(s: AppState, r: AppState, tab: TabType) {
    r == WithSession(s, tab, SessionOf(r, tab))
  }

  /** `r` differs from `s` at most in the image tab's own fields (ingredients, analysis flag and error). */
  predicate OnlyImageExtrasChanged(s: AppState, r: AppState) {
    r.activeTab == s.activeTab && r.ui == s.ui && r.tabs.text == s.tabs.text && r.tabs.image.base == s.tabs.image.base
  }

  /** `r` differs from `s` at most in the global UI slice. */
  predicate OnlyUiChanged(s: AppState, r: AppState) {
    r.activeTab == s.activeTab && r.tabs == s.tabs
  }

  /** `r` differs from `s` at most in the progress bar. */
  predicate OnlyProgressChanged(s: AppState, r: AppState) {
    OnlyUiChanged(s, r) && r.ui.isGeneratingImage == s.ui.isGeneratingImage && r.ui.imageError == s.ui.imageError
  }

  // ---------------------------------------------------------------------
  // Generation and optimization

  /** Starting a generation or an optimization marks that tab busy and clears its error, and touches nothing else. */
  lemma StartMarksBusy(s: AppState, a: Action)
    requires a.StartRecipeGeneration? || a.StartRecipeOptimization?
    ensures var r := Step(s, a);
      && SessionOf(r, a.tab).isGenerating
      && SessionOf(r, a.tab).error.None?
      && SessionOf(r, a.tab).recipe == SessionOf(s, a.tab).recipe
      && SessionOf(r, a.tab).conversation == SessionOf(s, a.tab).conversation
      && OnlySessionChanged(s, r, a.tab)
  {
  }

  /** A success replaces the tab's recipe, ends the busy state and clears the error, and touches nothing else. */
  lemma SuccessReplacesRecipe(s: AppState, a: Action)
    requires a.RecipeGenerationSuccess? || a.RecipeOptimizationSuccess?
    ensures var r := Step(s, a);
      && SessionOf(r, a.tab).recipe == Some(a.recipe)
      && !SessionOf(r, a.tab).isGenerating
      && SessionOf(r, a.tab).error.None?
      && SessionOf(r, a.tab).conversation == SessionOf(s, a.tab).conversation
      && OnlySessionChanged(s, r, a.tab)
  {
  }

  /** A failure ends the busy state and records the error, keeping the recipe already shown. */
  lemma FailureKeepsRecipe(s: AppState, a: Action)
    requires a.RecipeGenerationError? || a.RecipeOptimizationError?
    ensures var r := Step(s, a);
      && SessionOf(r, a.tab).recipe == SessionOf(s, a.tab).recipe
      && !SessionOf(r, a.tab).isGenerating
      && SessionOf(r, a.tab).error == Some(a.error)
      && SessionOf(r, a.tab).conversation == SessionOf(s, a.tab).conversation
      && OnlySessionChanged(s, r, a.tab)
  {
  }

  /** Start, then fail: the tab is idle again with the error set, and its recipe is the one it had before. */
  lemma StartThenFail(s: AppState, tab: TabType, error: string)
    ensures var r := Run(s, [StartRecipeGeneration(tab), RecipeGenerationError(tab, error)]);
      && !SessionOf(r, tab).isGenerating
      && SessionOf(r, tab).error == Some(error)
      && SessionOf(r, tab).recipe == SessionOf(s, tab).recipe
      && OnlySessionChanged(s, r, tab)
  {
    RunPair(s, StartRecipeGeneration(tab), RecipeGenerationError(tab, error));
  }

  // ---------------------------------------------------------------------
  // Image analysis and the ingredient list

  /** START_IMAGE_ANALYSIS empties the list, clears the analysis error and sets the analysis flag. */
  lemma StartAnalysisClearsList(s: AppState)
    ensures var r := Step(s, StartImageAnalysis);
      && r.tabs.image.identifiedIngredients == []
      && r.tabs.image.isAnalyzing
      && r.tabs.image.analysisError.None?
      && OnlyImageExtrasChanged(s, r)
  {
  }

  /** IMAGE_ANALYSIS_SUCCESS stores the payload list as it is: no trimming, no de-duplication. */
  lemma AnalysisSuccessStoresVerbatim(s: AppState, ingredients: seq<string>)
    ensures var r := Step(s, ImageAnalysisSuccess(ingredients));
      && r.tabs.image.identifiedIngredients == ingredients
      && !r.tabs.image.isAnalyzing
      && r.tabs.image.analysisError.None?
      && OnlyImageExtrasChanged(s, r)
  {
  }

  /** IMAGE_ANALYSIS_ERROR keeps whatever list there is and records the error. */
  lemma AnalysisErrorKeepsList(s: AppState, error: string)
    ensures var r := Step(s, ImageAnalysisError(error));
      && r.tabs.image.identifiedIngredients == s.tabs.image.identifiedIngredients
      && !r.tabs.image.isAnalyzing
      && r.tabs.image.analysisError == Some(error)
      && OnlyImageExtrasChanged(s, r)
  {
  }

  /** No string occurs twice. */
  predicate NoDup(xs: seq<string>) {
    forall i, j :: 0 <= i < j < |xs| ==> xs[i] != xs[j]
  }

  /**
   * ADD_INGREDIENT appends the trimmed payload exactly when it is non-empty
   * and not listed yet (exact, case-sensitive comparison); otherwise the
   * whole state is returned unchanged.
   */
  lemma AddIngredientAppendsOrIgnores(s: AppState, ingredient: string)
    ensures var r := Step(s, AddIngredient(ingredient));
      var list := s.tabs.image.identifiedIngredients;
      && (JsTrim(ingredient) != "" && JsTrim(ingredient) !in list ==>
            r.tabs.image.identifiedIngredients == list + [JsTrim(ingredient)]
            && r.tabs.image.isAnalyzing == s.tabs.image.isAnalyzing
            && r.tabs.image.analysisError == s.tabs.image.analysisError
            && OnlyImageExtrasChanged(s, r))
      && (JsTrim(ingredient) == "" || JsTrim(ingredient) in list ==> r == s)
  {
  }

  /** ADD_INGREDIENT keeps a duplicate-free list duplicate-free and never reorders it. */
  lemma AddIngredientKeepsNoDup(s: AppState, ingredient: string)
    requires NoDup(s.tabs.image.identifiedIngredients)
    ensures var r := Step(s, AddIngredient(ingredient));
      && NoDup(r.tabs.image.identifiedIngredients)
      && |r.tabs.image.identifiedIngredients| >= |s.tabs.image.identifiedIngredients|
      && r.tabs.image.identifiedIngredients[..|s.tabs.image.identifiedIngredients|] == s.tabs.image.identifiedIngredients
  {
  }

  /**
   * REMOVE_INGREDIENT drops every element equal to the (untrimmed) payload
   * and keeps every other element, as often as it occurred; an absent
   * payload leaves the state equal to before.
   */
  lemma RemoveIngredientFilters(s: AppState, ingredient: string)
    ensures var r := Step(s, RemoveIngredient(ingredient));
      var list := s.tabs.image.identifiedIngredients;
      && ingredient !in r.tabs.image.identifiedIngredients
      && multiset(r.tabs.image.identifiedIngredients) == multiset(list)[ingredient := 0]
      && OnlyImageExtrasChanged(s, r)
      && r.tabs.image.isAnalyzing == s.tabs.image.isAnalyzing
      && r.tabs.image.analysisError == s.tabs.image.analysisError
      && (ingredient !in list ==> r == s)
  {
    var list := s.tabs.image.identifiedIngredients;
    if ingredient !in list {
      assert Step(s, RemoveIngredient(ingredient)).tabs.image == s.tabs.image;
    }
  }

  /** Filtering distributes over concatenation: it keeps the relative order of what it keeps. */
  lemma {:induction false} WithoutConcat(xs: seq<string>, ys: seq<string>, x: string)
    ensures Without(xs + ys, x) == Without(xs, x) + Without(ys, x)
  {
    if xs == [] {
      assert xs + ys == ys;
    } else {
      assert (xs + ys)[1..] == xs[1..] + ys;
      WithoutConcat(xs[1..], ys, x);
    }
  }

  /** Filtering a duplicate-free list leaves it duplicate-free. */
  lemma {:induction false} WithoutKeepsNoDup(xs: seq<string>, x: string)
    requires NoDup(xs)
    ensures NoDup(Without(xs, x))
  {
    if xs != [] {
      WithoutKeepsNoDup(xs[1..], x);
      var rest := Without(xs[1..], x);
      assert multiset(rest) == multiset(xs[1..])[x := 0];
      assert xs[0] !in xs[1..];
      assert multiset(xs[1..])[xs[0]] == 0;
      assert multiset(rest)[xs[0]] == 0;
      assert xs[0] !in rest;
    }
  }

  /** Removing an ingredient and adding it back puts it once, at the end of the list. */
  lemma RemoveThenAddMovesToEnd(s: AppState, x: string)
    requires x != "" && JsTrim(x) == x
    ensures var r := Run(s, [RemoveIngredient(x), AddIngredient(x)]);
      var list := r.tabs.image.identifiedIngredients;
      && list == Without(s.tabs.image.identifiedIngredients, x) + [x]
      && multiset(list)[x] == 1
  {
    RunPair(s, RemoveIngredient(x), AddIngredient(x));
    var l := Without(s.tabs.image.identifiedIngredients, x);
    assert x !in multiset(l);
    assert multiset(l + [x]) == multiset(l) + multiset{x};
  }

  // ---------------------------------------------------------------------
  // Image generation

  /**
   * IMAGE_GENERATION_SUCCESS patches only `imageUrl` of the recipe on the
   * tab active when it is dispatched, and ends image generation. When that
   * tab has no recipe the whole state is returned unchanged, so the image
   * flag stays as it was.
   */
  lemma ImageSuccessPatchesActiveTab(s: AppState, url: string)
    ensures var r := Step(s, ImageGenerationSuccess(url));
      var tab := s.activeTab;
      && (SessionOf(s, tab).recipe.None? ==> r == s)
      && (SessionOf(s, tab).recipe.Some? ==>
            && SessionOf(r, tab).recipe == Some(SessionOf(s, tab).recipe.value.(imageUrl := Some(url)))
            && SessionOf(r, tab).conversation == SessionOf(s, tab).conversation
            && SessionOf(r, tab).isGenerating == SessionOf(s, tab).isGenerating
            && SessionOf(r, tab).error == SessionOf(s, tab).error
            && SessionOf(r, OtherTab(tab)) == SessionOf(s, OtherTab(tab))
            && r.tabs.image.identifiedIngredients == s.tabs.image.identifiedIngredients
            && r.activeTab == tab
            && !r.ui.isGeneratingImage && r.ui.imageError.None?
            && r.ui.progressBar == s.ui.progressBar)
  {
  }

  /**
   * The patch target is resolved when the success arrives: after a switch
   * to the other tab, a generated image lands on that tab's recipe (if it
   * has one) and the recipe it was requested for keeps its old image.
   */
  lemma ImageLandsOnTabActiveAtCompletion(s: AppState, url: string)
    requires SessionOf(s, s.activeTab).recipe.Some?
    requires SessionOf(s, OtherTab(s.activeTab)).recipe.Some?
    ensures var requested := s.activeTab;
      var r := Run(s, [StartImageGeneration, SetActiveTab(OtherTab(requested)), ImageGenerationSuccess(url)]);
      && SessionOf(r, requested).recipe == SessionOf(s, requested).recipe
      && SessionOf(r, OtherTab(requested)).recipe.Some?
      && SessionOf(r, OtherTab(requested)).recipe.value.imageUrl == Some(url)
  {
    var requested := s.activeTab;
    RunTriple(s, StartImageGeneration, SetActiveTab(OtherTab(requested)), ImageGenerationSuccess(url));
    var s1 := Step(s, StartImageGeneration);
    var s2 := Step(s1, SetActiveTab(OtherTab(requested)));
    assert SessionOf(s2, OtherTab(requested)) == SessionOf(s, OtherTab(requested));
    assert SessionOf(s2, requested) == SessionOf(s, requested);
  }

  /** START_IMAGE_GENERATION and IMAGE_GENERATION_ERROR touch only the image-generation flag and error. */
  lemma ImageGenerationFlags(s: AppState, error: string)
    ensures var r := Step(s, StartImageGeneration);
      r.ui.isGeneratingImage && r.ui.imageError.None? && OnlyUiChanged(s, r) && r.ui.progressBar == s.ui.progressBar
    ensures var r := Step(s, ImageGenerationError(error));
      !r.ui.isGeneratingImage && r.ui.imageError == Some(error) && OnlyUiChanged(s, r) && r.ui.progressBar == s.ui.progressBar
  {
  }

  // ---------------------------------------------------------------------
  // Actions that touch exactly one thing

  /** ADD_MESSAGE appends exactly one message at the end of the named tab's conversation. */
  lemma AddMessageAppends(s: AppState, tab: TabType, m: ChatMessage)
    ensures var r := Step(s, AddMessage(tab, m));
      && SessionOf(r, tab).conversation == SessionOf(s, tab).conversation + [m]
      && SessionOf(r, tab).recipe == SessionOf(s, tab).recipe
      && SessionOf(r, tab).isGenerating == SessionOf(s, tab).isGenerating
      && SessionOf(r, tab).error == SessionOf(s, tab).error
      && OnlySessionChanged(s, r, tab)
  {
  }

  /** SET_ACTIVE_TAB changes only which tab is active: no tab session is touched. */
  lemma SetActiveTabOnlySwitches(s: AppState, tab: TabType)
    ensures var r := Step(s, SetActiveTab(tab));
      r.activeTab == tab && r.tabs == s.tabs && r.ui == s.ui
  {
  }

  /** An action the reducer does not know returns the state it was given. */
  lemma UnrecognizedIsNoop(s: AppState, name: string)
    ensures Step(s, Unrecognized(name)) == s
  {
  }

  /** UPDATE_TEXT_INPUT changes only the text tab's input. */
  lemma UpdateTextInputOnlyInput(s: AppState, input: string)
    ensures var r := Step(s, UpdateTextInput(input));
      && r.tabs.text.userInput == input
      && r.tabs.text.base == s.tabs.text.base
      && r.tabs.image == s.tabs.image && r.activeTab == s.activeTab && r.ui == s.ui
  {
  }

  // ---------------------------------------------------------------------
  // Clearing errors

  /**
   * CLEAR_ERROR is a no-op unless both `tab` and `errorType` are given;
   * `analysis` clears only on the image tab; `recipe` clears the named
   * tab's error; `image` clears only the global image error.
   */
  lemma ClearErrorRules(s: AppState, tab: Option<TabType>, kind: Option<ErrorType>)
    ensures var r := Step(s, ClearError(tab, kind));
      && (tab.None? || kind.None? ==> r == s)
      && (kind == Some(AnalysisErrors) && tab == Some(Text) ==> r == s)
      && (kind == Some(AnalysisErrors) && tab == Some(Image) ==>
            r.tabs.image.analysisError.None? && OnlyImageExtrasChanged(s, r)
            && r.tabs.image.identifiedIngredients == s.tabs.image.identifiedIngredients
            && r.tabs.image.isAnalyzing == s.tabs.image.isAnalyzing)
      && (kind == Some(RecipeErrors) && tab.Some? ==>
            SessionOf(r, tab.value) == SessionOf(s, tab.value).(error := None) && OnlySessionChanged(s, r, tab.value))
      && (kind == Some(ImageErrors) && tab.Some? ==>
            r.ui.imageError.None? && OnlyUiChanged(s, r)
            && r.ui.isGeneratingImage == s.ui.isGeneratingImage && r.ui.progressBar == s.ui.progressBar)
  {
  }

  // ---------------------------------------------------------------------
  // Progress bar

  /** SHOW_PROGRESS makes the bar visible at 0 with the given message and variant. */
  lemma ShowProgressResets(s: AppState, message: string, variant: ProgressVariant)
    ensures var r := Step(s, ShowProgress(message, variant));
      && r.ui.progressBar.isVisible && r.ui.progressBar.progress == 0
      && r.ui.progressBar.message == message && r.ui.progressBar.variant == variant
      && OnlyProgressChanged(s, r)
  {
  }

  /** UPDATE_PROGRESS changes only the percentage. */
  lemma UpdateProgressOnlyValue(s: AppState, p: int)
    ensures var r := Step(s, UpdateProgress(p));
      && r.ui.progressBar == s.ui.progressBar.(progress := p)
      && OnlyProgressChanged(s, r)
  {
  }

  /** HIDE_PROGRESS changes only visibility. */
  lemma HideProgressOnlyVisibility(s: AppState)
    ensures var r := Step(s, HideProgress);
      && r.ui.progressBar == s.ui.progressBar.(isVisible := false)
      && OnlyProgressChanged(s, r)
  {
  }

  // ---------------------------------------------------------------------
  // Resets

  /** RESET_ALL yields exactly the initial state, whatever the state was. */
  lemma ResetAllIsInitial(s: AppState)
    ensures Step(s, ResetAll) == InitialAppState
  {
  }

  /** RESET_TAB returns one tab to its initial value and leaves the other tab, the active tab and the UI alone. */
  lemma ResetTabResetsOneTab(s: AppState, tab: TabType)
    ensures var r := Step(s, ResetTab(tab));
      && (tab == Image ==> r.tabs.image == InitialImageTab && r.tabs.text == s.tabs.text)
      && (tab == Text ==> r.tabs.text == InitialTextTab && r.tabs.image == s.tabs.image)
      && r.activeTab == s.activeTab && r.ui == s.ui
  {
  }

  // ---------------------------------------------------------------------
  // Sequences of actions

  /** Dispatching `xs` and then `ys` is dispatching `xs + ys`. */
  lemma {:induction false} RunConcat(s: AppState, xs: seq<Action>, ys: seq<Action>)
    ensures Run(s, xs + ys) == Run(Run(s, xs), ys)
    decreases |xs|
  {
    if xs == [] {
      assert xs + ys == ys;
    } else {
      assert (xs + ys)[0] == xs[0];
      assert (xs + ys)[1..] == xs[1..] + ys;
      RunConcat(Step(s, xs[0]), xs[1..], ys);
    }
  }

  /** Dispatching one action is one reducer step. */
  lemma RunSingle(s: AppState, a: Action)
    ensures Run(s, [a]) == Step(s, a)
  {
    assert [a][1..] == [];
  }

  /** Dispatching two actions is two reducer steps. */
  lemma RunPair(s: AppState, a: Action, b: Action)
    ensures Run(s, [a, b]) == Step(Step(s, a), b)
  {
    var s1 := Step(s, a);
    assert [a, b][0] == a && [a, b][1..] == [b];
    assert Run(s, [a, b]) == Run(s1, [b]);
    assert [b][0] == b && [b][1..] == [];
    assert Run(s1, [b]) == Run(Step(s1, b), []);
  }

  /** Dispatching three actions is three reducer steps. */
  lemma RunTriple(s: AppState, a: Action, b: Action, c: Action)
    ensures Run(s, [a, b, c]) == Step(Step(Step(s, a), b), c)
  {
    assert [a, b, c][1..] == [b, c];
    RunPair(Step(s, a), b, c);
  }

  /** Dispatching one more action is one more reducer step. */
  lemma RunSnoc(s: AppState, xs: seq<Action>, a: Action)
    ensures Run(s, xs + [a]) == Step(Run(s, xs), a)
  {
    RunConcat(s, xs, [a]);
  }

  /** The messages an action sequence adds to `tab`'s conversation, in order. */
  function MessagesFor(actions: seq<Action>, tab: TabType): seq<ChatMessage> {
    if actions == [] then []
    else (if actions[0].AddMessage? && actions[0].tab == tab then [actions[0].message] else [])
         + MessagesFor(actions[1..], tab)
  }

  /** No action in the sequence resets a tab. */
  predicate NoResets(actions: seq<Action>) {
    forall i :: 0 <= i < |actions| ==> !actions[i].ResetTab? && !actions[i].ResetAll?
  }

  /**
   * Conversations are append-only: without a reset, a tab's conversation
   * afterwards is the one before followed by exactly the messages the
   * sequence added to that tab, in dispatch order.
   */
  lemma {:induction false} ConversationAppendOnly(s: AppState, actions: seq<Action>, tab: TabType)
    requires NoResets(actions)
    ensures SessionOf(Run(s, actions), tab).conversation == SessionOf(s, tab).conversation + MessagesFor(actions, tab)
    decreases |actions|
  {
    if actions != [] {
      var a := actions[0];
      var s1 := Step(s, a);
      var added := if a.AddMessage? && a.tab == tab then [a.message] else [];
      StepConversation(s, a, tab);
      ConversationAppendOnly(s1, actions[1..], tab);
      assert SessionOf(s, tab).conversation + added + MessagesFor(actions[1..], tab)
          == SessionOf(s, tab).conversation + (added + MessagesFor(actions[1..], tab));
    }
  }

  /** One action that is not a reset appends at most its own message to a conversation. */
  lemma StepConversation(s: AppState, a: Action, tab: TabType)
    requires !a.ResetTab? && !a.ResetAll?
    ensures SessionOf(Step(s, a), tab).conversation
         == SessionOf(s, tab).conversation + (if a.AddMessage? && a.tab == tab then [a.message] else [])
  {
  }

  /** An action that cannot put a duplicate into the ingredient list. */
  predicate KeepsIngredientsDistinct(a: Action) {
    a.ImageAnalysisSuccess? ==> NoDup(a.ingredients)
  }

  /** Every action but one keeps the ingredient list duplicate-free; the exception is an analysis result that itself repeats a name. */
  lemma StepKeepsNoDup(s: AppState, a: Action)
    requires NoDup(s.tabs.image.identifiedIngredients)
    requires KeepsIngredientsDistinct(a)
    ensures NoDup(Step(s, a).tabs.image.identifiedIngredients)
  {
    match a
    case RemoveIngredient(x) => WithoutKeepsNoDup(s.tabs.image.identifiedIngredients, x);
    case _ =>
  }

  /** Over any sequence of actions, the ingredient list stays duplicate-free unless an analysis result brings a duplicate in. */
  lemma {:induction false} RunKeepsNoDup(s: AppState, actions: seq<Action>)
    requires NoDup(s.tabs.image.identifiedIngredients)
    requires forall i :: 0 <= i < |actions| ==> KeepsIngredientsDistinct(actions[i])
    ensures NoDup(Run(s, actions).tabs.image.identifiedIngredients)
    decreases |actions|
  {
    if actions != [] {
      StepKeepsNoDup(s, actions[0]);
      RunKeepsNoDup(Step(s, actions[0]), actions[1..]);
    }
  }

  /** An analysis result may bring a duplicate in: the list is stored as it came. */
  lemma AnalysisMayIntroduceDuplicates(s: AppState)
    ensures !NoDup(Step(s, ImageAnalysisSuccess(["土豆", "土豆"])).tabs.image.identifiedIngredients)
  {
    var l := Step(s, ImageAnalysisSuccess(["土豆", "土豆"])).tabs.image.identifiedIngredients;
    assert l[0] == l[1];
  }

  /** The progress value is a percentage. */
  predicate ProgressInRange(s: AppState) {
    0 <= s.ui.progressBar.progress <= 100
  }

  /** An action that cannot push the progress value out of 0..100. */
  predicate KeepsProgressInRange(a: Action) {
    a.UpdateProgress? ==> 0 <= a.progress <= 100
  }

  /** When every dispatched progress value is a percentage, the stored one stays a percentage. */
  lemma {:induction false} RunKeepsProgressInRange(s: AppState, actions: seq<Action>)
    requires ProgressInRange(s)
    requires forall i :: 0 <= i < |actions| ==> KeepsProgressInRange(actions[i])
    ensures ProgressInRange(Run(s, actions))
    decreases |actions|
  {
    if actions != [] {
      assert KeepsProgressInRange(actions[0]);
      RunKeepsProgressInRange(Step(s, actions[0]), actions[1..]);
    }
  }

  // ---------------------------------------------------------------------
  // Adding many ingredients

  /** The ingredient actions for `names`, in order. */
  function AddAll(names: seq<string>): (r: seq<Action>)
    ensures |r| == |names|
    ensures forall i :: 0 <= i < |names| ==> r[i] == AddIngredient(names[i])
  {
    if names == [] then [] else [AddIngredient(names[0])] + AddAll(names[1..])
  }

  /** Every name trimmed as ADD_INGREDIENT trims it. */
  function Trims(names: seq<string>): (r: seq<string>)
    ensures |r| == |names|
    ensures forall i {:trigger r[i]} :: 0 <= i < |names| ==> r[i] == JsTrim(names[i])
  {
    if names == [] then [] else [JsTrim(names[0])] + Trims(names[1..])
  }

  /** Trimming one more name appends its trimmed form. */
  lemma TrimsSnoc(init: seq<string>, last: string)
    ensures Trims(init + [last]) == Trims(init) + [JsTrim(last)]
  {
    var a := Trims(init + [last]);
    var b := Trims(init) + [JsTrim(last)];
    forall i | 0 <= i < |a| ensures a[i] == b[i] {
      if i < |init| {
        assert (init + [last])[i] == init[i];
      } else {
        assert (init + [last])[i] == last;
      }
    }
  }

  /** `y` is a non-blank entry of the trimmed offers `ts`. */
  predicate Offered(ts: seq<string>, y: string) {
    y != "" && y in ts
  }

  /** Index of the first entry of `ts` equal to `y`. */
  function FirstOffer(ts: seq<string>, y: string): (k: nat)
    requires Offered(ts, y)
    ensures k < |ts| && ts[k] == y
    ensures forall i :: 0 <= i < k ==> ts[i] != y
  {
    if ts[0] == y then 0
    else
      assert ts == [ts[0]] + ts[1..];
      1 + FirstOffer(ts[1..], y)
  }

  /** Every element of `list` was offered in `ts`, and they appear in the order of their first offer. */
  predicate InOfferOrder(ts: seq<string>, list: seq<string>) {
    && (forall p :: 0 <= p < |list| ==> Offered(ts, list[p]))
    && (forall p, q :: 0 <= p < q < |list| ==> FirstOffer(ts, list[p]) < FirstOffer(ts, list[q]))
  }

  /**
   * `list` holds each distinct non-blank entry of the trimmed offers `ts`
   * exactly once, ordered by where each was first offered.
   */
  predicate AddedInOrder(ts: seq<string>, list: seq<string>) {
    && NoDup(list)
    && InOfferOrder(ts, list)
    && (forall y :: y in ts && y != "" ==> y in list)
  }

  /** An earlier first offer keeps its index when one more offer is appended. */
  lemma FirstOfferPrefix(ts: seq<string>, t: string, y: string)
    requires Offered(ts, y)
    ensures Offered(ts + [t], y) && FirstOffer(ts + [t], y) == FirstOffer(ts, y)
  {
    var k := FirstOffer(ts, y);
    var k' := FirstOffer(ts + [t], y);
    assert (ts + [t])[k] == y;
    assert !(k' < k);
    assert !(k < k');
  }

  /** A value offered for the first time at the end has its first offer at the end. */
  lemma FirstOfferNew(ts: seq<string>, t: string)
    requires t != "" && t !in ts
    ensures Offered(ts + [t], t) && FirstOffer(ts + [t], t) == |ts|
  {
    assert (ts + [t])[|ts|] == t;
    var k := FirstOffer(ts + [t], t);
    assert !(k < |ts|);
  }

  /** Appending an offer keeps an ordered list ordered. */
  lemma PrefixKeepsOrder(ts: seq<string>, t: string, l0: seq<string>)
    requires InOfferOrder(ts, l0)
    ensures InOfferOrder(ts + [t], l0)
  {
    forall p | 0 <= p < |l0| ensures Offered(ts + [t], l0[p]) && FirstOffer(ts + [t], l0[p]) == FirstOffer(ts, l0[p]) {
      FirstOfferPrefix(ts, t, l0[p]);
    }
  }

  /** A value offered for the first time goes after every value already listed. */
  lemma AppendNewKeepsOrder(ts: seq<string>, t: string, l0: seq<string>)
    requires InOfferOrder(ts, l0)
    requires t != "" && t !in ts
    ensures InOfferOrder(ts + [t], l0 + [t])
  {
    var list := l0 + [t];
    PrefixKeepsOrder(ts, t, l0);
    FirstOfferNew(ts, t);
    forall p | 0 <= p < |list| ensures Offered(ts + [t], list[p]) {
      if p < |l0| { assert list[p] == l0[p]; } else { assert list[p] == t; }
    }
    forall p, q | 0 <= p < q < |list| ensures FirstOffer(ts + [t], list[p]) < FirstOffer(ts + [t], list[q]) {
      assert list[p] == l0[p];
      if q < |l0| {
        assert list[q] == l0[q];
      } else {
        assert list[q] == t;
      }
    }
  }

  /** One more ADD_INGREDIENT keeps the list in first-offer order. */
  lemma AddOneKeepsOrder(ts: seq<string>, t: string, l0: seq<string>)
    requires AddedInOrder(ts, l0)
    ensures AddedInOrder(ts + [t], if t != "" && t !in l0 then l0 + [t] else l0)
  {
    var list := if t != "" && t !in l0 then l0 + [t] else l0;
    forall y | y in ts + [t] && y != "" ensures y in list {
      assert y in ts || y == t;
    }
    if t != "" && t !in l0 {
      assert t !in ts;
      AppendNewKeepsOrder(ts, t, l0);
      forall i, j | 0 <= i < j < |list| ensures list[i] != list[j] {
        assert list[i] == l0[i] && l0[i] in l0;
        if j < |l0| {
          assert list[j] == l0[j];
        } else {
          assert list[j] == t;
        }
      }
    } else {
      PrefixKeepsOrder(ts, t, l0);
    }
  }

  /**
   * Adding names one by one to the empty list yields each distinct
   * non-blank trimmed name exactly once, in the order of first insertion.
   */
  lemma {:induction false} AddAllFromEmpty(s: AppState, names: seq<string>)
    requires s.tabs.image.identifiedIngredients == []
    ensures AddedInOrder(Trims(names), Run(s, AddAll(names)).tabs.image.identifiedIngredients)
    decreases |names|
  {
    if names != [] {
      var init := names[..|names| - 1];
      var last := names[|names| - 1];
      assert names == init + [last];
      AddAllFromEmpty(s, init);
      assert AddAll(names) == AddAll(init) + [AddIngredient(last)];
      TrimsSnoc(init, last);
      var before := Run(s, AddAll(init));
      RunSnoc(s, AddAll(init), AddIngredient(last));
      AddIngredientAppendsOrIgnores(before, last);
      var l0 := before.tabs.image.identifiedIngredients;
      var t := JsTrim(last);
      assert Run(s, AddAll(names)).tabs.image.identifiedIngredients == if t != "" && t !in l0 then l0 + [t] else l0;
      AddOneKeepsOrder(Trims(init), t, l0);
    }
  }
}
