/**
 * `RecipeOptimizer._build_optimize_prompt`: the fields the optimization
 * prompt fills in from the current recipe, the user's request and the
 * conversation so far. The fixed wording around them is not modelled.
 */
module OptimizerPrompt {
  import opened Common
  import opened Text
  import opened Json
  import opened Python

  const UnknownDish := "未知菜品"
  const DefaultCuisine := "中式"
  const DefaultDifficulty := "中等"
  const DefaultServings := 2
  /** How many of the latest messages the prompt quotes. */
  const ContextWindow := 4
  const ContextHeader := "\n对话上下文：\n"
  const UserLabel := "用户"
  const AssistantLabel := "AI"

  // ---------------------------------------------------------------------
  // Ingredients and steps

  /** `item[key]` inside an f-string: the item must be a dict holding the key (a KeyError or TypeError otherwise). */
  function Field(item: Value, key: string): (r: Rendering)
    ensures r.Raised? <==> !item.Obj? || Lookup(item.members, key).None?
  {
    if item.Obj? && Lookup(item.members, key).Some? then PyStr(Lookup(item.members, key).value) else Raised
  }

  /** `f"{ing['name']}({ing['amount']}{ing['unit']})"`: no space and no separator inside the parentheses. */
  function IngredientEntry(ing: Value): Rendering {
    Field(ing, "name").Then(Lit("(")).Then(Field(ing, "amount")).Then(Field(ing, "unit")).Then(Lit(")"))
  }

  /** `f"{step['step']}. {step['description']}"`. */
  function StepEntry(step: Value): Rendering {
    Field(step, "step").Then(Lit(". ")).Then(Field(step, "description"))
  }

  /** The rendered entry of each ingredient. */
  function IngredientEntries(items: seq<Value>): (r: seq<Rendering>)
    ensures |r| == |items| && forall k :: 0 <= k < |items| ==> r[k] == IngredientEntry(items[k])
  {
    if items == [] then [] else [IngredientEntry(items[0])] + IngredientEntries(items[1..])
  }

  /** The rendered entry of each step. */
  function StepEntries(items: seq<Value>): (r: seq<Rendering>)
    ensures |r| == |items| && forall k :: 0 <= k < |items| ==> r[k] == StepEntry(items[k])
  {
    if items == [] then [] else [StepEntry(items[0])] + StepEntries(items[1..])
  }

  /**
   * `"、".join([... for ing in ingredients])`, where `ingredients` is
   * `current_recipe.get("ingredients", [])`: a missing list gives "", and
   * a list gives its entries in order, separated by "、".
   */
  function IngredientsText(recipe: Dict): (r: Rendering)
    ensures Lookup(recipe, "ingredients").None? ==> r == Rendered("")
    ensures Get(recipe, "ingredients", Arr([])).Arr? && r.Rendered? ==>
              var entries := IngredientEntries(Get(recipe, "ingredients", Arr([])).items);
              && (forall k :: 0 <= k < |entries| ==> entries[k].Rendered?)
              && r.text == Join(Texts(entries), "、")
  {
    match Iterate(Get(recipe, "ingredients", Arr([])))
    case None => Raised
    case Some(items) => JoinRendered(IngredientEntries(items), "、")
  }

  /**
   * `"\n".join([... for step in instructions])`, where `instructions` is
   * `current_recipe.get("instructions", [])`: one line per step, in order.
   */
  function StepsText(recipe: Dict): (r: Rendering)
    ensures Lookup(recipe, "instructions").None? ==> r == Rendered("")
    ensures Get(recipe, "instructions", Arr([])).Arr? && r.Rendered? ==>
              var entries := StepEntries(Get(recipe, "instructions", Arr([])).items);
              && (forall k :: 0 <= k < |entries| ==> entries[k].Rendered?)
              && r.text == Join(Texts(entries), "\n")
  {
    match Iterate(Get(recipe, "instructions", Arr([])))
    case None => Raised
    case Some(items) => JoinRendered(StepEntries(items), "\n")
  }

  // ---------------------------------------------------------------------
  // Conversation context

  /** `history[-4:]`: the last four messages, or all of them when there are fewer. */
  function Recent(history: seq<Value>): (r: seq<Value>)
    ensures |r| == if |history| < ContextWindow then |history| else ContextWindow
    ensures r == history[|history| - |r|..]
  {
    if |history| <= ContextWindow then history else history[|history| - ContextWindow..]
  }

  /** The speaker label: "用户" for role "user", "AI" for any other role or none. */
  function Label(message: Dict): string {
    if Lookup(message, "role") == Some(Str("user")) then UserLabel else AssistantLabel
  }

  /** One context line, `f"{label}: {msg.get('content', '')}"`; `.get` on a non-dict raises. */
  function ContextLine(message: Value): Rendering {
    if !message.Obj? then Raised
    else Lit(Label(message.members) + ": ").Then(PyStr(Get(message.members, "content", Str(""))))
  }

  /** The rendered line of each message. */
  function ContextLines(messages: seq<Value>): (r: seq<Rendering>)
    ensures |r| == |messages| && forall k :: 0 <= k < |messages| ==> r[k] == ContextLine(messages[k])
  {
    if messages == [] then [] else [ContextLine(messages[0])] + ContextLines(messages[1..])
  }

  /**
   * `context_str`: empty without history; otherwise a header, the lines of
   * the last four messages (oldest first) and a closing newline.
   */
  function ContextText(history: Option<seq<Value>>): (r: Rendering)
    ensures history.None? || history.value == [] ==> r == Rendered("")
    ensures history.Some? && history.value != [] && r.Rendered? ==>
              var lines := ContextLines(Recent(history.value));
              && (forall k :: 0 <= k < |lines| ==> lines[k].Rendered?)
              && r.text == ContextHeader + Join(Texts(lines), "\n") + "\n"
  {
    if history.None? || history.value == [] then Rendered("")
    else Lit(ContextHeader).Then(JoinRendered(ContextLines(Recent(history.value)), "\n")).Then(Lit("\n"))
  }

  // ---------------------------------------------------------------------
  // The prompt

  /** The values the optimization prompt interpolates. */
  datatype PromptFields = PromptFields(
    dishName: string,
    ingredients: string,
    steps: string,
    context: string,
    userRequest: string,
    cuisineType: string,
    difficulty: string,
    servings: string)

  /** `current_recipe.get(key, default)` rendered by the f-string. */
  function Setting(recipe: Dict, key: string, default: Value): (r: Rendering)
    ensures !r.Raised?
    ensures Lookup(recipe, key).None? ==> r == PyStr(default)
    ensures Lookup(recipe, key).Some? ==> r == PyStr(Lookup(recipe, key).value)
  {
    PyStr(Get(recipe, key, default))
  }

  /** The default servings, rendered, read "2". */
  lemma DefaultServingsText()
    ensures PyStr(Int(DefaultServings)) == Rendered("2")
  {
    assert IntString(2) == NatString(2) == [DigitChar(2)] == "2";
  }

  /** What building the prompt gives: its fields, an exception, or a value whose text this model does not state. */
  datatype PromptOutcome = Built(fields: PromptFields) | RaisesBeforeCall | NotStated

  /**
   * `_build_optimize_prompt(current_recipe, user_request,
   * conversation_history)`: the ingredients, steps and context are
   * computed first (an exception in any stops the build), then the
   * f-string renders the dish name and the defaults-backed settings.
   */
  function BuildOptimizePrompt(recipe: Dict, userRequest: string, history: Option<seq<Value>>): (r: PromptOutcome)
    ensures r.RaisesBeforeCall? <==> IngredientsText(recipe).Raised? || StepsText(recipe).Raised? || ContextText(history).Raised?
    ensures r.Built? <==> && IngredientsText(recipe).Rendered? && StepsText(recipe).Rendered? && ContextText(history).Rendered?
                          && Setting(recipe, "dish_name", Str(UnknownDish)).Rendered?
                          && Setting(recipe, "cuisine_type", Str(DefaultCuisine)).Rendered?
                          && Setting(recipe, "difficulty", Str(DefaultDifficulty)).Rendered?
                          && Setting(recipe, "servings", Int(DefaultServings)).Rendered?
    ensures r.Built? ==> && r.fields.ingredients == IngredientsText(recipe).text
                         && r.fields.steps == StepsText(recipe).text
                         && r.fields.context == ContextText(history).text
    ensures r.Built? ==> r.fields.userRequest == userRequest
    ensures r.Built? && Lookup(recipe, "dish_name").Some? && Lookup(recipe, "dish_name").value.Str? ==>
              r.fields.dishName == Lookup(recipe, "dish_name").value.s
    ensures r.Built? && Lookup(recipe, "cuisine_type").Some? && Lookup(recipe, "cuisine_type").value.Str? ==>
              r.fields.cuisineType == Lookup(recipe, "cuisine_type").value.s
    ensures r.Built? && Lookup(recipe, "difficulty").Some? && Lookup(recipe, "difficulty").value.Str? ==>
              r.fields.difficulty == Lookup(recipe, "difficulty").value.s
    ensures r.Built? && Lookup(recipe, "servings").Some? && Lookup(recipe, "servings").value.Int? ==>
              r.fields.servings == IntString(Lookup(recipe, "servings").value.i)
    ensures r.Built? && Lookup(recipe, "dish_name").None? ==> r.fields.dishName == UnknownDish
    ensures r.Built? && Lookup(recipe, "cuisine_type").None? ==> r.fields.cuisineType == DefaultCuisine
    ensures r.Built? && Lookup(recipe, "difficulty").None? ==> r.fields.difficulty == DefaultDifficulty
    ensures r.Built? && Lookup(recipe, "servings").None? ==> r.fields.servings == "2"
  {
    var dish := Setting(recipe, "dish_name", Str(UnknownDish));
    var ingredients := IngredientsText(recipe);
    var steps := StepsText(recipe);
    var context := ContextText(history);
    var cuisine := Setting(recipe, "cuisine_type", Str(DefaultCuisine));
    var difficulty := Setting(recipe, "difficulty", Str(DefaultDifficulty));
    var servings := Setting(recipe, "servings", Int(DefaultServings));
    DefaultServingsText();
    if ingredients.Raised? || steps.Raised? || context.Raised? then RaisesBeforeCall
    else if dish.Rendered? && ingredients.Rendered? && steps.Rendered? && context.Rendered?
            && cuisine.Rendered? && difficulty.Rendered? && servings.Rendered?
    then Built(PromptFields(dish.text, ingredients.text, steps.text, context.text, userRequest,
                            cuisine.text, difficulty.text, servings.text))
    else NotStated
  }

  const OptimizeFailurePrefix := "优化菜谱时发生错误: "

  /**
   * `optimize_recipe(current_recipe, user_request, conversation_history)`:
   * the prompt is built before the `try`, so an exception there propagates
   * as it is (`None` here; its exact type is not modelled); a failure of the
   * call or of decoding its answer is re-raised with the optimizer's
   * prefix; otherwise the decoded recipe is returned.
   */
  function OptimizeRecipe(recipe: Dict, userRequest: string, history: Option<seq<Value>>, reply: Reply): (r: Option<Result<Value>>)
    ensures r.None? <==> BuildOptimizePrompt(recipe, userRequest, history).RaisesBeforeCall?
    ensures r.Some? ==> (r.value.Returns? <==> reply.Decoded?)
    ensures r.Some? && reply.Decoded? ==> r.value.value == reply.value
    ensures r.Some? && reply.Failed? ==> r.value.error == Exception(OptimizeFailurePrefix + reply.message)
  {
    if BuildOptimizePrompt(recipe, userRequest, history).RaisesBeforeCall? then None
    else match reply
      case Decoded(v) => Some(Returns(v))
      case Failed(message) => Some(Raises(Rewrap(OptimizeFailurePrefix, PyError.Exception(message))))
  }

  // ---------------------------------------------------------------------
  // Properties

  /** An ingredient with string name and unit and an integer amount reads `name(amountunit)`. */
  lemma IngredientEntryFormat(name: string, amount: int, unit: string)
    ensures IngredientEntry(Obj([("name", Str(name)), ("amount", Int(amount)), ("unit", Str(unit))]))
            == Rendered(name + "(" + IntString(amount) + unit + ")")
  {
    var members := [("name", Str(name)), ("amount", Int(amount)), ("unit", Str(unit))];
    assert "name"[0] != "amount"[0] && "name"[0] != "unit"[0] && "amount"[0] != "unit"[0];
    LookupPrefix(members, 3, 0);
    LookupPrefix(members, 3, 1);
    LookupPrefix(members, 3, 2);
  }

  /** A key bound among the first `n` items and never after them is found there. */
  lemma LookupPrefix(members: Dict, n: nat, k: nat)
    requires k < n <= |members|
    requires forall i :: 0 <= i < n && i != k ==> members[i].0 != members[k].0
    requires forall i :: n <= i < |members| ==> members[i].0 != members[k].0
    ensures Lookup(members, members[k].0) == Some(members[k].1)
  {
    var key := members[k].0;
    assert members[k].0 == key;
    var r := Lookup(members, key);
    var j :| 0 <= j < |members| && members[j] == (key, r.value) && forall j' :: j < j' < |members| ==> members[j'].0 != key;
    assert j == k;
  }

  /** A step with an integer number and a string description reads `n. description`. */
  lemma StepEntryFormat(n: int, description: string)
    ensures StepEntry(Obj([("step", Int(n)), ("description", Str(description))]))
            == Rendered(IntString(n) + ". " + description)
  {
    var members := [("step", Int(n)), ("description", Str(description))];
    LookupPrefix(members, 2, 0);
    LookupPrefix(members, 2, 1);
  }

  /**
   * A recipe with a string name, cuisine and difficulty and an integer
   * serving count, but no ingredients or steps, and no history: the prompt
   * is built from the recipe's own values, with empty lists and no context.
   */
  lemma RecipeOwnSettings(name: string, cuisine: string, difficulty: string, servings: int, userRequest: string)
    ensures var recipe := [("dish_name", Str(name)), ("cuisine_type", Str(cuisine)),
                           ("difficulty", Str(difficulty)), ("servings", Int(servings))];
            BuildOptimizePrompt(recipe, userRequest, None)
            == Built(PromptFields(name, "", "", "", userRequest, cuisine, difficulty, IntString(servings)))
  {
    var recipe := [("dish_name", Str(name)), ("cuisine_type", Str(cuisine)),
                   ("difficulty", Str(difficulty)), ("servings", Int(servings))];
    assert "dish_name"[0] == 'd' && "cuisine_type"[0] == 'c' && "difficulty"[0] == 'd' && "servings"[0] == 's';
    assert "dish_name"[2] != "difficulty"[2];
    LookupPrefix(recipe, 4, 0);
    LookupPrefix(recipe, 4, 1);
    LookupPrefix(recipe, 4, 2);
    LookupPrefix(recipe, 4, 3);
    assert Setting(recipe, "dish_name", Str(UnknownDish)) == Rendered(name);
    assert Setting(recipe, "cuisine_type", Str(DefaultCuisine)) == Rendered(cuisine);
    assert Setting(recipe, "difficulty", Str(DefaultDifficulty)) == Rendered(difficulty);
    assert Setting(recipe, "servings", Int(DefaultServings)) == Rendered(IntString(servings));
    assert "ingredients"[0] == 'i' && "instructions"[0] == 'i';
    assert Lookup(recipe, "ingredients").None? && Lookup(recipe, "instructions").None?;
    assert IngredientsText(recipe) == Rendered("") && StepsText(recipe) == Rendered("");
  }

  /** No history, `None` or an empty list, gives an empty context. */
  lemma NoHistoryNoContext(history: Option<seq<Value>>)
    ensures ContextText(history) == Rendered("") <==> history.None? || history.value == []
  {
    if history.Some? && history.value != [] {
      var t := ContextText(history);
      if t.Rendered? {
        assert t.text[..|ContextHeader|] == ContextHeader;
      }
    }
  }

  /** Messages older than the last four never reach the prompt. */
  lemma {:induction false} OlderMessagesIgnored(older: seq<Value>, latest: seq<Value>)
    requires |latest| == ContextWindow
    ensures ContextText(Some(older + latest)) == ContextText(Some(latest))
  {
    var h := older + latest;
    assert h[|h| - ContextWindow..] == latest;
  }

  /** Only role "user" is labelled "用户"; every other role, or none, is "AI". */
  lemma ContextLineLabels(message: Dict)
    requires ContextLine(Obj(message)).Rendered?
    ensures StartsWith(ContextLine(Obj(message)).text, (if Lookup(message, "role") == Some(Str("user")) then UserLabel else AssistantLabel) + ": ")
  {
    var head := Label(message) + ": ";
    var t := ContextLine(Obj(message)).text;
    assert t[..|head|] == head;
  }
}
