/**
 * The client-side application state of the recipe assistant: two tab
 * sessions (`text` and `image`) and a global UI slice, with the value the
 * store starts from. Numbers the frontend only carries around (recipe
 * times, amounts, nutrition) are `real`; the progress percentage is an
 * `int`, since the progress helpers only ever dispatch whole numbers.
 */
module AppState {
  import opened Common

  /** `TabType`: exactly two tabs. */
  datatype TabType = Image | Text

  /** The tab that is not `tab`. */
  function OtherTab(tab: TabType): (o: TabType)
    ensures o != tab
  {
    if tab == Image then Text else Image
  }

  /** `ChatMessage.role`. */
  datatype Role = User | Ai

  /**
   * One chat line. The `id` is the millisecond clock rendered in decimal;
   * the `Date` timestamp is not part of the model.
   */
  datatype ChatMessage = ChatMessage(id: string, role: Role, content: string)

  datatype Ingredient = Ingredient(name: string, amount: real, unit: string)

  datatype Instruction = Instruction(step: real, description: string)

  datatype NutritionalInfo = NutritionalInfo(caloriesKcal: real, proteinG: real, carbsG: real, fatG: real)

  /** A recipe as the backend returns it; `imageUrl` is filled in after an image is generated. */
  datatype Recipe = Recipe(
    dishName: string,
    description: string,
    cuisineType: string,
    difficulty: string,
    prepTimeMins: real,
    cookTimeMins: real,
    servings: real,
    ingredients: seq<Ingredient>,
    instructions: seq<Instruction>,
    tips: seq<string>,
    nutritionalInfo: NutritionalInfo,
    imageUrl: Option<string>)

  /** `BaseTabData`: what both tabs hold. */
  datatype Session = Session(
    conversation: seq<ChatMessage>,
    recipe: Option<Recipe>,
    isGenerating: bool,
    error: Option<string>)

  /** `ImageTabData`. */
  datatype ImageTabData = ImageTabData(
    base: Session,
    identifiedIngredients: seq<string>,
    isAnalyzing: bool,
    analysisError: Option<string>)

  /** `TextTabData`. */
  datatype TextTabData = TextTabData(base: Session, userInput: string)

  datatype Tabs = Tabs(image: ImageTabData, text: TextTabData)

  /** The five looks of the progress bar. */
  datatype ProgressVariant = DefaultVariant | RecipeVariant | ImageVariant | AnalysisVariant | OptimizeVariant

  /** `ProgressState`; `progress` is documented as a percentage in 0..100. */
  datatype ProgressState = ProgressState(isVisible: bool, progress: int, message: string, variant: ProgressVariant)

  /** `UIState`: global, not per tab. */
  datatype UIState = UIState(isGeneratingImage: bool, imageError: Option<string>, progressBar: ProgressState)

  /** `AppState`: which tab is active, both tab sessions, and the UI slice. */
  datatype AppState = AppState(activeTab: TabType, tabs: Tabs, ui: UIState)

  /** `state.tabs[tab]` seen through the fields both tab types share. */
  function SessionOf(s: AppState, tab: TabType): Session {
    if tab == Image then s.tabs.image.base else s.tabs.text.base
  }

  /** `s` with the shared fields of `tab` replaced by `sess` and everything else as it was. */
  function WithSession(s: AppState, tab: TabType, sess: Session): (r: AppState)
    ensures SessionOf(r, tab) == sess
    ensures SessionOf(r, OtherTab(tab)) == SessionOf(s, OtherTab(tab))
    ensures r.activeTab == s.activeTab && r.ui == s.ui
    ensures r.tabs.image.identifiedIngredients == s.tabs.image.identifiedIngredients
    ensures r.tabs.image.isAnalyzing == s.tabs.image.isAnalyzing
    ensures r.tabs.image.analysisError == s.tabs.image.analysisError
    ensures r.tabs.text.userInput == s.tabs.text.userInput
  {
    if tab == Image then s.(tabs := s.tabs.(image := s.tabs.image.(base := sess)))
    else s.(tabs := s.tabs.(text := s.tabs.text.(base := sess)))
  }

  /** An empty session: no conversation, no recipe, not generating, no error. */
  const EmptySession := Session([], None, false, None)

  /** The image tab as the application starts it. */
  const InitialImageTab := ImageTabData(EmptySession, [], false, None)

  /** The text tab as the application starts it. */
  const InitialTextTab := TextTabData(EmptySession, "")

  /** The hidden progress bar the application starts with. */
  const InitialProgress := ProgressState(false, 0, "", DefaultVariant)

  /** `initialAppState`. */
  const InitialAppState := AppState(Text, Tabs(InitialImageTab, InitialTextTab), UIState(false, None, InitialProgress))

  /** The application starts on the text tab with both sessions empty and nothing in progress. */
  lemma InitialStateIsEmpty()
    ensures InitialAppState.activeTab == Text
    ensures forall tab :: SessionOf(InitialAppState, tab).conversation == []
                       && SessionOf(InitialAppState, tab).recipe.None?
                       && !SessionOf(InitialAppState, tab).isGenerating
                       && SessionOf(InitialAppState, tab).error.None?
    ensures InitialAppState.tabs.image.identifiedIngredients == []
    ensures !InitialAppState.tabs.image.isAnalyzing && InitialAppState.tabs.image.analysisError.None?
    ensures InitialAppState.tabs.text.userInput == ""
  {
  }

  /** The application starts with no image being generated and a hidden, empty progress bar. */
  lemma InitialUiIsIdle()
    ensures !InitialAppState.ui.isGeneratingImage && InitialAppState.ui.imageError.None?
    ensures !InitialAppState.ui.progressBar.isVisible && InitialAppState.ui.progressBar.progress == 0
    ensures InitialAppState.ui.progressBar.message == "" && InitialAppState.ui.progressBar.variant == DefaultVariant
  {
  }

  /** `TabType` has exactly two values. */
  lemma TwoTabs(tab: TabType)
    ensures tab == Image || tab == Text
    ensures OtherTab(OtherTab(tab)) == tab
  {
  }
}
