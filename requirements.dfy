/**
 * `RecipeRequirementsParser`: turning a free-text request into the
 * seven-field requirements dict. The language model's answer is an input
 * (the decoded JSON value, or the message of what the call or decoding
 * raised); what the parser then checks and fills in is modelled exactly.
 */
module Requirements {
  import opened Common
  import opened Text
  import opened Json
  import opened Python

  const EmptyInput := "用户输入不能为空"
  const NoIngredients := "未能从描述中识别出任何食材"
  const ParseFailurePrefix := "解析用户需求时发生错误: "
  const DefaultCuisine := "中式"
  const DefaultDifficulty := "中等"
  const DefaultServingSize := 2

  const IngredientsKey := "ingredients"
  const MaxCookTimeKey := "max_cook_time_mins"
  const DietaryKey := "dietary_requirements"
  const CuisineKey := "cuisine_preference"
  const DifficultyKey := "difficulty_preference"
  const CalorieKey := "calorie_preference"
  const ServingSizeKey := "serving_size"

  /** The keys of a validated requirements dict, in the order the dict is built. */
  const FieldNames: seq<string> :=
    [IngredientsKey, MaxCookTimeKey, DietaryKey, CuisineKey, DifficultyKey, CalorieKey, ServingSizeKey]

  /** The seven key names are different strings. */
  lemma FieldNamesDistinct()
    ensures forall i, j :: 0 <= i < j < |FieldNames| ==> FieldNames[i] != FieldNames[j]
  {
    assert MaxCookTimeKey[0] != CuisineKey[0] && MaxCookTimeKey[0] != CalorieKey[0] && CuisineKey[1] != CalorieKey[1];
  }

  /** A dict holding the seven keys in their fixed order. */
  predicate Shaped(d: Dict) {
    |d| == |FieldNames| && forall k :: 0 <= k < |d| ==> d[k].0 == FieldNames[k]
  }

  /** In a shaped dict the `k`-th key finds the `k`-th value. */
  lemma ShapedLookup(d: Dict, k: nat)
    requires Shaped(d) && k < |FieldNames|
    ensures Lookup(d, FieldNames[k]) == Some(d[k].1)
  {
    FieldNamesDistinct();
    assert DistinctKeys(d);
    LookupDistinct(d, k);
  }

  /** Assigning the `k`-th key of a shaped dict replaces the value in place. */
  lemma ShapedSetItem(d: Dict, k: nat, v: Value)
    requires Shaped(d) && k < |FieldNames|
    ensures SetItem(d, FieldNames[k], v) == d[k := (FieldNames[k], v)]
  {
    FieldNamesDistinct();
    assert Keys(d)[k] == FieldNames[k];
  }

  /** The default `requirements.get` supplies when the `k`-th key is absent. */
  function AbsentDefault(k: nat): Value
    requires k < |FieldNames|
  {
    if k == 0 || k == 2 then Arr([])
    else if k == 6 then Int(DefaultServingSize)
    else Null
  }

  /** The value a successful validation leaves under the `k`-th key. */
  function FinalValue(requirements: Dict, k: nat): Value
    requires k < |FieldNames|
  {
    var v := Get(requirements, FieldNames[k], AbsentDefault(k));
    if k == 3 && v == Null then Str(DefaultCuisine)
    else if k == 4 && v == Null then Str(DefaultDifficulty)
    else v
  }

  /** The dict literal of seven `requirements.get` calls the validation starts from. */
  function Gathered(requirements: Dict): (d: Dict)
    ensures Shaped(d)
    ensures forall k :: 0 <= k < |FieldNames| ==> d[k].1 == Get(requirements, FieldNames[k], AbsentDefault(k))
  {
    seq(|FieldNames|, k requires 0 <= k < |FieldNames| => (FieldNames[k], Get(requirements, FieldNames[k], AbsentDefault(k))))
  }

  /**
   * Reference definition of `_validate_and_complete_requirements`: an
   * AttributeError when the decoded answer is not a dict, a ValueError
   * when its ingredients are missing or falsy, and otherwise each of the
   * seven keys bound to its final value.
   */
  function Validation(requirements: Value): Result<Dict> {
    if !requirements.Obj? then Raises(AttributeError(NoGetMessage(requirements)))
    else if !PyTruthy(Get(requirements.members, IngredientsKey, Arr([]))) then Raises(ValueError(NoIngredients))
    else Returns(seq(|FieldNames|, k requires 0 <= k < |FieldNames| =>
                       (FieldNames[k], FinalValue(requirements.members, k))))
  }

  /**
   * `_validate_and_complete_requirements(requirements)`: builds the dict
   * from seven `get` calls, rejects falsy ingredients, then overwrites a
   * null cuisine and a null difficulty in place.
   */
  method ValidateAndComplete(requirements: Value) returns (r: Result<Dict>)
    ensures r == Validation(requirements)
  {
    if !requirements.Obj? {
      return Raises(AttributeError(NoGetMessage(requirements)));
    }
    var given := requirements.members;
    var validated := Gathered(given);
    assert Shaped(validated);
    ShapedLookup(validated, 0);
    if !PyTruthy(Get(validated, IngredientsKey, Null)) {
      return Raises(ValueError(NoIngredients));
    }
    DefaultStep(validated, 3, Str(DefaultCuisine), FinalValue(given, 3));
    if Get(validated, CuisineKey, Null) == Null {
      validated := SetItem(validated, CuisineKey, Str(DefaultCuisine));
    }
    DefaultStep(validated, 4, Str(DefaultDifficulty), FinalValue(given, 4));
    if Get(validated, DifficultyKey, Null) == Null {
      validated := SetItem(validated, DifficultyKey, Str(DefaultDifficulty));
    }
    GatheredThenDefaulted(given);
    r := Returns(validated);
  }

  /** `if validated[key] is None: validated[key] = default` on a shaped dict puts the key's final value in place. */
  lemma DefaultStep(d: Dict, k: nat, default: Value, final: Value)
    requires Shaped(d) && k < |FieldNames|
    requires final == if d[k].1 == Null then default else d[k].1
    ensures Get(d, FieldNames[k], Null) == d[k].1
    ensures (if d[k].1 == Null then SetItem(d, FieldNames[k], default) else d) == d[k := (FieldNames[k], final)]
    ensures Shaped(d[k := (FieldNames[k], final)])
  {
    ShapedLookup(d, k);
    ShapedSetItem(d, k, default);
  }

  /** Overwriting the two preferences of the gathered dict with their final values gives the validated dict. */
  lemma GatheredThenDefaulted(given: Dict)
    requires PyTruthy(Get(given, IngredientsKey, Arr([])))
    ensures Validation(Obj(given)) == Returns(Gathered(given)[3 := (CuisineKey, FinalValue(given, 3))]
                                                             [4 := (DifficultyKey, FinalValue(given, 4))])
  {
    var d := Gathered(given)[3 := (CuisineKey, FinalValue(given, 3))][4 := (DifficultyKey, FinalValue(given, 4))];
    var expected := seq(|FieldNames|, k requires 0 <= k < |FieldNames| => (FieldNames[k], FinalValue(given, k)));
    assert |d| == |expected|;
    forall k | 0 <= k < |FieldNames|
      ensures d[k] == expected[k]
    {
    }
    assert d == expected;
  }

  /**
   * `parse_requirements(user_input)`: blank input is refused before the
   * model is asked; anything raised afterwards (by the call, by decoding
   * or by validation) comes back as a plain Exception with a prefix.
   */
  function ParseRequirements(userInput: string, reply: Reply): (r: Result<Dict>)
    ensures r == Raises(ValueError(EmptyInput)) <==> PyStrip(userInput) == ""
    ensures PyStrip(userInput) != "" && r.Raises? ==> r.error.Exception? && StartsWith(r.error.message, ParseFailurePrefix)
  {
    if PyStrip(userInput) == "" then Raises(ValueError(EmptyInput))
    else match reply
      case Failed(message) => Raises(Exception(ParseFailurePrefix + message))
      case Decoded(value) =>
        match Validation(value)
        case Returns(validated) => Returns(validated)
        case Raises(e) => Raises(Rewrap(ParseFailurePrefix, e))
  }

  // ---------------------------------------------------------------------
  // Properties of validation

  /** Validation fails exactly when the answer is not a dict or its ingredients are missing or falsy, and says which. */
  lemma ValidationFailures(requirements: Value)
    ensures Validation(requirements).Raises? <==>
              !requirements.Obj? || !PyTruthy(Get(requirements.members, IngredientsKey, Arr([])))
    ensures !requirements.Obj? ==> Validation(requirements).error == AttributeError(NoGetMessage(requirements))
    ensures requirements.Obj? && Validation(requirements).Raises? ==> Validation(requirements).error == ValueError(NoIngredients)
  {
  }

  /** A validated dict has exactly the seven keys, each once, in the fixed order. */
  lemma ValidatedHasSevenKeys(requirements: Value)
    requires Validation(requirements).Returns?
    ensures var d := Validation(requirements).value;
              Keys(d) == FieldNames && |d| == 7 && DistinctKeys(d)
  {
    FieldNamesDistinct();
  }

  /** Looking a field up in the validated dict gives its final value. */
  lemma ValidatedLookup(requirements: Value, k: nat)
    requires Validation(requirements).Returns? && k < 7
    ensures Lookup(Validation(requirements).value, FieldNames[k]) == Some(FinalValue(requirements.members, k))
  {
    ShapedLookup(Validation(requirements).value, k);
  }

  /**
   * Defaults: a missing or null cuisine becomes "中式" and a missing or
   * null difficulty "中等"; any other value, even an empty string, is kept.
   */
  lemma PreferenceDefaults(members: Dict)
    requires Validation(Obj(members)).Returns?
    ensures var d := Validation(Obj(members)).value;
              && d[3].1 == (if Get(members, CuisineKey, Null) == Null then Str(DefaultCuisine)
                            else Get(members, CuisineKey, Null))
              && d[4].1 == (if Get(members, DifficultyKey, Null) == Null then Str(DefaultDifficulty)
                            else Get(members, DifficultyKey, Null))
              && d[3].1 != Null && d[4].1 != Null
  {
  }

  /**
   * `serving_size` is 2 only when the key is absent: an explicit null is
   * kept as null. `dietary_requirements` defaults to an empty list, and the
   * time limit and calorie preference pass through (null when absent).
   */
  lemma ServingSizeAndPassThrough(members: Dict)
    requires Validation(Obj(members)).Returns?
    ensures var d := Validation(Obj(members)).value;
              && (Lookup(members, ServingSizeKey).None? ==> d[6].1 == Int(DefaultServingSize))
              && (Lookup(members, ServingSizeKey) == Some(Null) ==> d[6].1 == Null)
              && (Lookup(members, DietaryKey).None? ==> d[2].1 == Arr([]))
              && d[1].1 == Lookup(members, MaxCookTimeKey).GetOr(Null)
              && d[5].1 == Lookup(members, CalorieKey).GetOr(Null)
              && d[0].1 == Lookup(members, IngredientsKey).value
  {
    var d := Validation(Obj(members)).value;
    assert d[0].1 == FinalValue(members, 0);
    assert d[1].1 == FinalValue(members, 1);
    assert d[2].1 == FinalValue(members, 2);
    assert d[5].1 == FinalValue(members, 5);
    assert d[6].1 == FinalValue(members, 6);
  }

  /** Validating an already validated dict changes nothing. */
  lemma ValidationIdempotent(requirements: Value)
    requires Validation(requirements).Returns?
    ensures Validation(Obj(Validation(requirements).value)) == Validation(requirements)
  {
    var d := Validation(requirements).value;
    assert Shaped(d);
    var again := seq(|FieldNames|, k requires 0 <= k < |FieldNames| => (FieldNames[k], FinalValue(d, k)));
    forall k | 0 <= k < 7
      ensures again[k] == d[k]
    {
      ShapedLookup(d, k);
    }
    assert again == d;
    ShapedLookup(d, 0);
    assert PyTruthy(Get(d, IngredientsKey, Arr([])));
  }

  // ---------------------------------------------------------------------
  // Properties of parsing

  /** Blank input is refused the same way whatever the model would have answered. */
  lemma BlankInputNeverReachesModel(userInput: string, reply1: Reply, reply2: Reply)
    requires PyStrip(userInput) == ""
    ensures ParseRequirements(userInput, reply1) == ParseRequirements(userInput, reply2)
  {
  }

  /** For non-blank input, success is exactly a successful validation of the decoded answer. */
  lemma ParseSucceedsWithValidation(userInput: string, reply: Reply)
    requires PyStrip(userInput) != ""
    ensures ParseRequirements(userInput, reply).Returns? <==> reply.Decoded? && Validation(reply.value).Returns?
    ensures ParseRequirements(userInput, reply).Returns? ==> ParseRequirements(userInput, reply) == Validation(reply.value)
  {
  }

  /** The validation ValueError loses its type: callers see a prefixed plain Exception. */
  lemma MissingIngredientsSurfaceAsException(userInput: string, members: Dict)
    requires PyStrip(userInput) != ""
    requires !PyTruthy(Get(members, IngredientsKey, Arr([])))
    ensures ParseRequirements(userInput, Decoded(Obj(members))) == Raises(Exception(ParseFailurePrefix + NoIngredients))
  {
  }
}
