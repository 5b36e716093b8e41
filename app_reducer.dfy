/**
 * The store's reducer: a total, pure transition function over a closed set
 * of actions, plus `Run`, the left fold of the reducer over a sequence of
 * dispatched actions.
 */
module AppReducer {
  import opened Common
  import opened Text
  import opened AppState

  /** `CLEAR_ERROR`'s `errorType`. */
  datatype ErrorType = RecipeErrors | ImageErrors | AnalysisErrors

  /**
   * `AppAction`, one constructor per `type`. `Unrecognized` stands for a
   * dispatched object whose `type` is none of these: the reducer's
   * `default` branch.
   */
  datatype Action =
    | SetActiveTab(tab: TabType)
    | AddMessage(tab: TabType, message: ChatMessage)
    | StartRecipeGeneration(tab: TabType)
    | RecipeGenerationSuccess(tab: TabType, recipe: Recipe)
    | RecipeGenerationError(tab: TabType, error: string)
    | StartImageAnalysis
    | ImageAnalysisSuccess(ingredients: seq<string>)
    | ImageAnalysisError(error: string)
    | AddIngredient(ingredient: string)
    | RemoveIngredient(ingredient: string)
    | UpdateTextInput(input: string)
    | StartImageGeneration
    | ImageGenerationSuccess(imageUrl: string)
    | ImageGenerationError(error: string)
    | StartRecipeOptimization(tab: TabType)
    | RecipeOptimizationSuccess(tab: TabType, recipe: Recipe)
    | RecipeOptimizationError(tab: TabType, error: string)
    | ClearError(clearTab: Option<TabType>, errorType: Option<ErrorType>)
    | ShowProgress(caption: string, variant: ProgressVariant)
    | UpdateProgress(progress: int)
    | HideProgress
    | ResetTab(tab: TabType)
    | ResetAll
    | Unrecognized(actionType: string)

  /** `xs.filter(y => y !== x)`: every element equal to `x` removed, the rest kept in order. */
  function Without(xs: seq<string>, x: string): (r: seq<string>)
    ensures x !in r
    ensures multiset(r) == multiset(xs)[x := 0]
    ensures x !in xs ==> r == xs
  {
    if xs == [] then []
    else
      assert xs == [xs[0]] + xs[1..];
      if xs[0] == x then Without(xs[1..], x)
      else [xs[0]] + Without(xs[1..], x)
  }

  /** The ADD_INGREDIENT guard: the trimmed payload is non-empty and not yet listed. */
  predicate AcceptsIngredient(list: seq<string>, ingredient: string) {
    JsTrim(ingredient) != "" && JsTrim(ingredient) !in list
  }

  /** `appReducer(state, action)`. */
  function Step(s: AppState, a: Action): AppState {
    match a
    case SetActiveTab(tab) =>
      s.(activeTab := tab)
    case AddMessage(tab, message) =>
      var sess := SessionOf(s, tab);
      WithSession(s, tab, sess.(conversation := sess.conversation + [message]))
    case StartRecipeGeneration(tab) =>
      WithSession(s, tab, SessionOf(s, tab).(isGenerating := true, error := None))
    case RecipeGenerationSuccess(tab, recipe) =>
      WithSession(s, tab, SessionOf(s, tab).(recipe := Some(recipe), isGenerating := false, error := None))
    case RecipeGenerationError(tab, error) =>
      WithSession(s, tab, SessionOf(s, tab).(isGenerating := false, error := Some(error)))
    case StartImageAnalysis =>
      s.(tabs := s.tabs.(image := s.tabs.image.(isAnalyzing := true, analysisError := None, identifiedIngredients := [])))
    case ImageAnalysisSuccess(ingredients) =>
      s.(tabs := s.tabs.(image := s.tabs.image.(isAnalyzing := false, analysisError := None, identifiedIngredients := ingredients)))
    case ImageAnalysisError(error) =>
      s.(tabs := s.tabs.(image := s.tabs.image.(isAnalyzing := false, analysisError := Some(error))))
    case AddIngredient(ingredient) =>
      var list := s.tabs.image.identifiedIngredients;
      if AcceptsIngredient(list, ingredient) then
        s.(tabs := s.tabs.(image := s.tabs.image.(identifiedIngredients := list + [JsTrim(ingredient)])))
      else s
    case RemoveIngredient(ingredient) =>
      s.(tabs := s.tabs.(image := s.tabs.image.(identifiedIngredients := Without(s.tabs.image.identifiedIngredients, ingredient))))
    case UpdateTextInput(input) =>
      s.(tabs := s.tabs.(text := s.tabs.text.(userInput := input)))
    case StartImageGeneration =>
      s.(ui := s.ui.(isGeneratingImage := true, imageError := None))
    case ImageGenerationSuccess(imageUrl) =>
      // the target is whichever tab is active when the success is dispatched
      var current := SessionOf(s, s.activeTab);
      if current.recipe.None? then s
      else
        var patched := current.recipe.value.(imageUrl := Some(imageUrl));
        WithSession(s, s.activeTab, current.(recipe := Some(patched)))
          .(ui := s.ui.(isGeneratingImage := false, imageError := None))
    case ImageGenerationError(error) =>
      s.(ui := s.ui.(isGeneratingImage := false, imageError := Some(error)))
    case StartRecipeOptimization(tab) =>
      WithSession(s, tab, SessionOf(s, tab).(isGenerating := true, error := None))
    case RecipeOptimizationSuccess(tab, recipe) =>
      WithSession(s, tab, SessionOf(s, tab).(recipe := Some(recipe), isGenerating := false, error := None))
    case RecipeOptimizationError(tab, error) =>
      WithSession(s, tab, SessionOf(s, tab).(isGenerating := false, error := Some(error)))
    case ClearError(clearTab, errorType) =>
      if clearTab.None? || errorType.None? then s
      else if errorType.value == AnalysisErrors && clearTab.value == Image then
        s.(tabs := s.tabs.(image := s.tabs.image.(analysisError := None)))
      else if errorType.value == RecipeErrors then
        WithSession(s, clearTab.value, SessionOf(s, clearTab.value).(error := None))
      else if errorType.value == ImageErrors then
        s.(ui := s.ui.(imageError := None))
      else s
    case ShowProgress(caption, variant) =>
      s.(ui := s.ui.(progressBar := ProgressState(true, 0, caption, variant)))
    case UpdateProgress(progress) =>
      s.(ui := s.ui.(progressBar := s.ui.progressBar.(progress := progress)))
    case HideProgress =>
      s.(ui := s.ui.(progressBar := s.ui.progressBar.(isVisible := false)))
    case ResetTab(tab) =>
      if tab == Image then s.(tabs := s.tabs.(image := ImageTabData(EmptySession, [], false, None)))
      else s.(tabs := s.tabs.(text := TextTabData(EmptySession, "")))
    case ResetAll =>
      AppState(Text,
               Tabs(ImageTabData(EmptySession, [], false, None), TextTabData(EmptySession, "")),
               UIState(false, None, ProgressState(false, 0, "", DefaultVariant)))
    case Unrecognized(_) =>
      s
  }

  /** The state after dispatching `actions` in order, starting from `s`. */
  function Run(s: AppState, actions: seq<Action>): AppState
    decreases |actions|
  {
    if actions == [] then s else Run(Step(s, actions[0]), actions[1..])
  }
}
