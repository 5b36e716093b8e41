/**
 * `RecipeGenerator`: the input guard of `generate_recipe` and the
 * request-specific part of the prompt `_build_prompt` writes (the
 * ingredient list, cuisine, difficulty, servings and the constraint
 * list). The model's answer is an input.
 */
module RecipePrompt {
  import opened Common
  import opened Text
  import opened Json
  import opened Python

  const EmptyIngredients := "食材列表不能为空"
  const ApiFailurePrefix := "调用OpenAI API时发生错误: "
  const NoConstraints := "无特殊要求"
  const DefaultCuisine := "中式"
  const DefaultDifficulty := "中等"
  const DefaultServingSize := 2

  /**
   * The arguments of `generate_recipe(ingredients, cuisine_type,
   * difficulty, max_cook_time, dietary_requirements, calorie_preference,
   * serving_size)`; an optional argument not passed is `None`.
   */
  datatype GenerationRequest = GenerationRequest(
    ingredients: seq<string>,
    cuisineType: string,
    difficulty: string,
    maxCookTime: Option<int>,
    dietaryRequirements: Option<seq<string>>,
    caloriePreference: Option<string>,
    servingSize: int)

  /** A call that passes only the ingredients (and possibly cuisine and difficulty): every other argument takes its default. */
  function DefaultRequest(ingredients: seq<string>, cuisineType: string := DefaultCuisine,
                          difficulty: string := DefaultDifficulty): GenerationRequest
  {
    GenerationRequest(ingredients, cuisineType, difficulty, None, None, None, DefaultServingSize)
  }

  // ---------------------------------------------------------------------
  // Constraints

  /** Python truthiness of the optional arguments: `None`, `0`, `[]` and `""` count as absent. */
  predicate WantsTime(req: GenerationRequest) {
    req.maxCookTime.Some? && req.maxCookTime.value != 0
  }
  predicate WantsDietary(req: GenerationRequest) {
    req.dietaryRequirements.Some? && req.dietaryRequirements.value != []
  }
  predicate WantsCalorie(req: GenerationRequest) {
    req.caloriePreference.Some? && req.caloriePreference.value != ""
  }

  function TimeConstraint(minutes: int): string {
    "总烹饪时间不超过" + IntString(minutes) + "分钟"
  }
  function DietaryConstraint(requirements: seq<string>): string {
    "饮食要求：" + Join(requirements, ", ")
  }
  function CalorieConstraint(preference: string): string {
    "热量偏好：" + preference
  }

  /** Which constraint lines the request asks for, in the order time, dietary, calorie. */
  function Constraints(req: GenerationRequest): (cs: seq<string>)
    ensures |cs| == (if WantsTime(req) then 1 else 0) + (if WantsDietary(req) then 1 else 0)
                    + (if WantsCalorie(req) then 1 else 0)
  {
    (if WantsTime(req) then [TimeConstraint(req.maxCookTime.value)] else [])
    + (if WantsDietary(req) then [DietaryConstraint(req.dietaryRequirements.value)] else [])
    + (if WantsCalorie(req) then [CalorieConstraint(req.caloriePreference.value)] else [])
  }

  /** Each constraint as a "- " item. */
  function Bulleted(constraints: seq<string>): (r: seq<string>)
    ensures |r| == |constraints| && forall k :: 0 <= k < |r| ==> r[k] == "- " + constraints[k]
  {
    seq(|constraints|, k requires 0 <= k < |constraints| => "- " + constraints[k])
  }

  /** `constraints_str`: the items on separate lines, or "无特殊要求" when there are none. */
  function ConstraintsText(constraints: seq<string>): string {
    if constraints == [] then NoConstraints else Join(Bulleted(constraints), "\n")
  }

  /** The lines of the request-specific part of the prompt, from "食材：" to the constraints. */
  function DetailLines(req: GenerationRequest): seq<string> {
    [ "食材：" + Join(req.ingredients, "、"),
      "菜系：" + req.cuisineType,
      "难度：" + req.difficulty,
      "份数：" + IntString(req.servingSize) + "人份",
      "",
      "约束条件：",
      ConstraintsText(Constraints(req)) ]
  }

  /**
   * `_build_prompt(...)`, the part that depends on the request: joins the
   * ingredients, appends each wanted constraint to a list, turns the list
   * into text and fills in the lines of the details block (the f-string's
   * newlines are the separators of the joined lines).
   */
  method BuildPrompt(req: GenerationRequest) returns (details: string)
    ensures details == Join(DetailLines(req), "\n")
  {
    var ingredientsText := Join(req.ingredients, "、");
    var constraints: seq<string> := [];
    if req.maxCookTime.Some? && req.maxCookTime.value != 0 {
      constraints := constraints + [TimeConstraint(req.maxCookTime.value)];
    }
    if req.dietaryRequirements.Some? && req.dietaryRequirements.value != [] {
      constraints := constraints + [DietaryConstraint(req.dietaryRequirements.value)];
    }
    if req.caloriePreference.Some? && req.caloriePreference.value != "" {
      constraints := constraints + [CalorieConstraint(req.caloriePreference.value)];
    }
    assert constraints == Constraints(req);
    var constraintsText := if constraints != [] then Join(Bulleted(constraints), "\n") else NoConstraints;
    details := Join([ "食材：" + ingredientsText,
                      "菜系：" + req.cuisineType,
                      "难度：" + req.difficulty,
                      "份数：" + IntString(req.servingSize) + "人份",
                      "",
                      "约束条件：",
                      constraintsText ], "\n");
  }

  // ---------------------------------------------------------------------
  // Generation

  /**
   * `generate_recipe(...)`: an empty ingredient list is refused before the
   * model is called; whatever the call or decoding raises comes back as a
   * prefixed plain Exception; otherwise the decoded recipe is returned.
   */
  function GenerateRecipe(req: GenerationRequest, reply: Reply): (r: Result<Value>)
    ensures r == Raises(ValueError(EmptyIngredients)) <==> req.ingredients == []
    ensures req.ingredients != [] ==>
              match reply
              case Decoded(recipe) => r == Returns(recipe)
              case Failed(message) => r == Raises(Exception(ApiFailurePrefix + message))
  {
    if req.ingredients == [] then Raises(ValueError(EmptyIngredients))
    else match reply
      case Failed(message) => Raises(Exception(ApiFailurePrefix + message))
      case Decoded(recipe) => Returns(recipe)
  }

  /** The module-level `generate_recipe_from_ingredients(ingredients, cuisine_type="中式", difficulty="中等")`. */
  function GenerateFromIngredients(ingredients: seq<string>, reply: Reply, cuisineType: string := DefaultCuisine,
                                   difficulty: string := DefaultDifficulty): (r: Result<Value>)
    ensures r.Raises? <==> ingredients == [] || reply.Failed?
    ensures r.Returns? ==> r == Returns(reply.value)
  {
    GenerateRecipe(GenerationRequest(ingredients, cuisineType, difficulty, None, None, None, DefaultServingSize), reply)
  }

  // ---------------------------------------------------------------------
  // Properties

  /** A time limit of zero is falsy, so it adds no constraint: the same lines as passing no limit. */
  lemma ZeroTimeLimitIsDropped(req: GenerationRequest)
    requires req.maxCookTime == Some(0)
    ensures Constraints(req) == Constraints(req.(maxCookTime := None))
    ensures forall k :: 0 <= k < |Constraints(req)| ==> Constraints(req)[k] != TimeConstraint(0)
  {
    var cs := Constraints(req);
    forall k | 0 <= k < |cs| ensures cs[k] != TimeConstraint(0) {
      assert TimeConstraint(0)[0] == '总';
      if WantsDietary(req) && k == 0 {
        assert cs[k][0] == '饮';
      } else {
        assert cs[k][0] == '热';
      }
    }
  }

  /** The constraints keep the fixed order: a time limit comes first, a calorie preference last. */
  lemma ConstraintOrder(req: GenerationRequest)
    ensures WantsTime(req) ==> Constraints(req)[0] == TimeConstraint(req.maxCookTime.value)
    ensures WantsCalorie(req) ==> Constraints(req)[|Constraints(req)| - 1] == CalorieConstraint(req.caloriePreference.value)
    ensures WantsDietary(req) ==> Constraints(req)[if WantsTime(req) then 1 else 0] == DietaryConstraint(req.dietaryRequirements.value)
  {
  }

  /** "无特殊要求" appears exactly when no constraint is wanted. */
  lemma NoConstraintsExactly(constraints: seq<string>)
    ensures ConstraintsText(constraints) == NoConstraints <==> constraints == []
  {
    if constraints != [] {
      var text := ConstraintsText(constraints);
      assert text[..|"- " + constraints[0]|] == "- " + constraints[0];
      assert text[0] == '-';
    }
  }

  /** With constraints, the text starts with the first item and carries every item as a "- " line. */
  lemma ConstraintItems(constraints: seq<string>)
    requires constraints != []
    ensures StartsWith(ConstraintsText(constraints), "- " + constraints[0])
    ensures forall k :: 0 <= k < |constraints| ==> Contains(ConstraintsText(constraints), "- " + constraints[k])
  {
    JoinMentionsEveryPart(Bulleted(constraints), "\n");
  }

  /** The details start with the ingredient line and name every ingredient. */
  lemma DetailsNameEveryIngredient(req: GenerationRequest)
    ensures var details := Join(DetailLines(req), "\n");
              && StartsWith(details, "食材：")
              && forall k :: 0 <= k < |req.ingredients| ==> Contains(details, req.ingredients[k])
  {
    var lines := DetailLines(req);
    var details := Join(lines, "\n");
    var joined := Join(req.ingredients, "、");
    JoinMentionsEveryPart(lines, "\n");
    assert Contains(details, lines[0]);
    assert details[..|"食材："|] == lines[0][..|"食材："|];
    JoinMentionsEveryPart(req.ingredients, "、");
    assert "食材：" + joined + "" == lines[0];
    forall k | 0 <= k < |req.ingredients|
      ensures Contains(details, req.ingredients[k])
    {
      ContainsInLarger("食材：", joined, "", req.ingredients[k]);
      ContainsTransitive(details, lines[0], req.ingredients[k]);
    }
  }

  /** The details carry the cuisine, the difficulty and the constraints text as lines of their own. */
  lemma DetailsCarrySettings(req: GenerationRequest)
    ensures var details := Join(DetailLines(req), "\n");
              && Contains(details, "菜系：" + req.cuisineType)
              && Contains(details, "难度：" + req.difficulty)
              && Contains(details, ConstraintsText(Constraints(req)))
  {
    var lines := DetailLines(req);
    JoinMentionsEveryPart(lines, "\n");
    assert lines[1] == "菜系：" + req.cuisineType;
    assert lines[2] == "难度：" + req.difficulty;
    assert lines[6] == ConstraintsText(Constraints(req));
  }

  /** Passing only the ingredients gives the defaults: Chinese cuisine, medium difficulty, two servings, no constraints. */
  lemma DefaultRequestDetails(ingredients: seq<string>)
    ensures DetailLines(DefaultRequest(ingredients))
            == ["食材：" + Join(ingredients, "、"), "菜系：中式", "难度：中等", "份数：2人份", "", "约束条件：", NoConstraints]
  {
    assert IntString(2) == NatString(2) == [DigitChar(2)] == "2";
    assert "份数：" + "2" + "人份" == "份数：2人份";
    assert "菜系：" + DefaultCuisine == "菜系：中式";
    assert "难度：" + DefaultDifficulty == "难度：中等";
  }

  /** An empty ingredient list is refused the same way whatever the model would have answered. */
  lemma EmptyIngredientsNeverReachModel(req: GenerationRequest, reply1: Reply, reply2: Reply)
    requires req.ingredients == []
    ensures GenerateRecipe(req, reply1) == GenerateRecipe(req, reply2)
  {
  }
}
