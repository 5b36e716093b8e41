/**
 * `RecipeAgent`: the two-step pipeline (parse the request, then generate)
 * and its error wrapping. What `generate_recipe` returns or raises for the
 * parsed requirements is an input of the model.
 */
module RecipeAgent {
  import opened Text
  import opened Json
  import opened Python
  import Requirements
  import RecipePrompt

  const AgentFailurePrefix := "生成菜谱时发生错误: "

  /**
   * `generate_recipe_from_natural_language(user_input)`: parse, then
   * generate; every exception of either step, including the parser's
   * ValueError, is re-raised as a plain Exception with the agent's prefix.
   */
  function GenerateFromNaturalLanguage(userInput: string, parseReply: Reply, generated: Result<Value>): (r: Result<Value>)
    ensures r.Raises? ==> r.error.Exception? && StartsWith(r.error.message, AgentFailurePrefix)
    ensures r.Returns? <==> Requirements.ParseRequirements(userInput, parseReply).Returns? && generated.Returns?
    ensures r.Returns? ==> r == generated
  {
    match Requirements.ParseRequirements(userInput, parseReply)
    case Raises(e) => Raises(Rewrap(AgentFailurePrefix, e))
    case Returns(_) =>
      match generated
      case Returns(recipe) => Returns(recipe)
      case Raises(e) => Raises(Rewrap(AgentFailurePrefix, e))
  }

  /**
   * `RecipeAgent.generate_recipe_from_ingredients(ingredients,
   * cuisine_type="中式", difficulty="中等")` with no further keyword
   * arguments: a plain delegation, so its errors are not re-prefixed.
   */
  function GenerateFromIngredients(ingredients: seq<string>, reply: Reply,
                                   cuisineType: string := RecipePrompt.DefaultCuisine,
                                   difficulty: string := RecipePrompt.DefaultDifficulty): (r: Result<Value>)
    ensures ingredients == [] ==> r == Raises(ValueError(RecipePrompt.EmptyIngredients))
    ensures r.Raises? && ingredients != [] ==> StartsWith(r.error.message, RecipePrompt.ApiFailurePrefix)
  {
    RecipePrompt.GenerateRecipe(RecipePrompt.DefaultRequest(ingredients, cuisineType, difficulty), reply)
  }

  /** Blank input: the parser's ValueError reaches the caller as a plain Exception carrying both messages. */
  lemma BlankInputThroughAgent(userInput: string, parseReply: Reply, generated: Result<Value>)
    requires PyStrip(userInput) == ""
    ensures GenerateFromNaturalLanguage(userInput, parseReply, generated)
            == Raises(Exception(AgentFailurePrefix + Requirements.EmptyInput))
  {
  }

  /** A request naming no ingredients is wrapped twice: by the parser and by the agent. */
  lemma MissingIngredientsThroughAgent(userInput: string, members: Dict, generated: Result<Value>)
    requires PyStrip(userInput) != ""
    requires !PyTruthy(Get(members, Requirements.IngredientsKey, Arr([])))
    ensures GenerateFromNaturalLanguage(userInput, Decoded(Obj(members)), generated)
            == Raises(Exception(AgentFailurePrefix + Requirements.ParseFailurePrefix + Requirements.NoIngredients))
  {
    Requirements.MissingIngredientsSurfaceAsException(userInput, members);
  }

  /** A failed generation call is wrapped twice: by the generator and by the agent. */
  lemma GenerationFailureThroughAgent(userInput: string, parseReply: Reply, req: RecipePrompt.GenerationRequest,
                                      message: string)
    requires Requirements.ParseRequirements(userInput, parseReply).Returns?
    requires req.ingredients != []
    ensures GenerateFromNaturalLanguage(userInput, parseReply, RecipePrompt.GenerateRecipe(req, Failed(message)))
            == Raises(Exception(AgentFailurePrefix + RecipePrompt.ApiFailurePrefix + message))
  {
  }
}
