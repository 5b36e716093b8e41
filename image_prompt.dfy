/**
 * `QwenImageGenerator`: the text-to-image prompt composed from a recipe
 * (`_compose_prompt_from_recipe`) and the outcome contract of
 * `generate_recipe_image`. The image service's answer is an input.
 */
module ImagePrompt {
  import opened Common
  import opened Text
  import opened Json
  import opened Python

  const ChineseStyle := "中式家常菜风格, 温暖的灯光, 菜品盛放在一个精美的青花瓷盘中, 放在深色木质桌面上"
  const WesternStyle := "现代简约西式摆盘, 浅景深摄影, 干净的白色大瓷盘, 侧面有柔和的自然光"
  const PlainStyle := "专业美食摄影, 浅景深, 极简背景, 突出食物本身"
  const PromptHead := "特写镜头, '"
  const QualityTail := "突出菜肴的质感与光泽, 背景干净明亮, 画面充满食欲, 照片级真实感, 电影级光效, 细节丰富, 高清画质, 8K"
  /** `HTTPStatus.OK`. */
  const StatusOk := 200

  /**
   * `style_bias`: one phrase chosen by the cuisine, `"中" in cuisine`
   * tested first and `"西" in cuisine` only when that fails; a cuisine
   * that is not iterable makes the first test raise.
   */
  function StyleBias(cuisine: Value): (r: Result<seq<string>>)
    ensures r.Raises? <==> In("中", cuisine).Raises?
    ensures r.Returns? ==> |r.value| == 1 && r.value[0] in [ChineseStyle, WesternStyle, PlainStyle]
    ensures cuisine.Str? ==> r.Returns?
    ensures cuisine.Str? ==> (r.value == [ChineseStyle] <==> Contains(cuisine.s, "中"))
    ensures cuisine.Str? ==> (r.value == [WesternStyle] <==> !Contains(cuisine.s, "中") && Contains(cuisine.s, "西"))
    ensures cuisine.Str? ==> (r.value == [PlainStyle] <==> !Contains(cuisine.s, "中") && !Contains(cuisine.s, "西"))
  {
    StylesDiffer();
    match In("中", cuisine)
    case Raises(e) => Raises(e)
    case Returns(chinese) =>
      if chinese then Returns([ChineseStyle])
      else match In("西", cuisine)
        case Raises(e) => Raises(e)
        case Returns(western) => Returns(if western then [WesternStyle] else [PlainStyle])
  }

  /** The three phrases are different texts. */
  lemma StylesDiffer()
    ensures ChineseStyle != WesternStyle && ChineseStyle != PlainStyle && WesternStyle != PlainStyle
  {
    assert ChineseStyle[0] == '中' && WesternStyle[0] == '现' && PlainStyle[0] == '专';
  }

  /** The opening of the prompt: the close-up phrase and the quoted dish name. */
  function Opening(name: string): string {
    PromptHead + name + "', "
  }

  /** The rest of the prompt: the description, the joined style list and the fixed quality phrases. */
  function Closing(desc: string, bias: seq<string>): string {
    desc + "。 " + Join(bias, " ") + ". " + QualityTail
  }

  /** The f-string before stripping. */
  function RawPrompt(name: string, desc: string, bias: seq<string>): string {
    Opening(name) + Closing(desc, bias)
  }

  /**
   * `_compose_prompt_from_recipe(recipe)`: the dish name, description and
   * cuisine default to "" when missing; only the style tests can raise.
   */
  function ComposePrompt(recipe: Dict): (r: Rendering)
    ensures r.Raised? <==> In("中", Get(recipe, "cuisine_type", Str(""))).Raises?
  {
    var name := PyStr(Get(recipe, "dish_name", Str("")));
    var desc := PyStr(Get(recipe, "description", Str("")));
    match StyleBias(Get(recipe, "cuisine_type", Str("")))
    case Raises(_) => Raised
    case Returns(bias) =>
      if name.Rendered? && desc.Rendered? then Rendered(PyStrip(RawPrompt(name.text, desc.text, bias)))
      else Unstated
  }

  /** What `ImageSynthesis.call` gave: a finished response with a status code and the result URLs, or an exception. */
  datatype ImageCall = Finished(status: int, resultUrls: seq<string>) | SdkRaised(message: string)

  /**
   * `generate_recipe_image(recipe_json)`: the first result's URL when the
   * service answers OK; `None` for any other status and for every
   * exception, including one raised while composing the prompt or
   * indexing an empty result list.
   */
  function GenerateRecipeImage(recipe: Dict, call: ImageCall): (r: Option<string>)
    ensures r.Some? <==> !ComposePrompt(recipe).Raised? && call.Finished? && call.status == StatusOk && call.resultUrls != []
    ensures r.Some? ==> r.value == call.resultUrls[0]
  {
    if ComposePrompt(recipe).Raised? then None
    else match call
      case SdkRaised(_) => None
      case Finished(status, urls) => if status == StatusOk && urls != [] then Some(urls[0]) else None
  }

  // ---------------------------------------------------------------------
  // Properties

  /** The first and last characters of a concatenation of two non-empty strings. */
  lemma Ends(a: string, b: string)
    requires a != [] && b != []
    ensures (a + b)[0] == a[0] && (a + b)[|a + b| - 1] == b[|b| - 1]
  {
  }

  /** Stripping changes nothing: the prompt starts with "特" and ends with "K". */
  lemma RawPromptIsStripped(name: string, desc: string, bias: seq<string>)
    ensures PyStrip(RawPrompt(name, desc, bias)) == RawPrompt(name, desc, bias)
  {
    var opening := Opening(name);
    var closing := Closing(desc, bias);
    Ends(PromptHead, name + "', ");
    assert opening == PromptHead + (name + "', ");
    Ends(desc + "。 " + Join(bias, " ") + ". ", QualityTail);
    Ends(opening, closing);
    assert PromptHead[0] == '特' && QualityTail[|QualityTail| - 1] == 'K';
    StripOfTrimmed(RawPrompt(name, desc, bias), IsPyWhitespace);
  }

  /**
   * The prompt, once the fields render, is the opening with the quoted
   * name followed by the description, exactly one style phrase and the
   * quality phrases; stripping removes nothing.
   */
  lemma PromptText(recipe: Dict)
    requires ComposePrompt(recipe).Rendered?
    ensures var style := StyleBias(Get(recipe, "cuisine_type", Str(""))).value[0];
            ComposePrompt(recipe).text
            == Opening(PyStr(Get(recipe, "dish_name", Str(""))).text)
               + (PyStr(Get(recipe, "description", Str(""))).text + "。 " + style + ". " + QualityTail)
    ensures StartsWith(ComposePrompt(recipe).text, PromptHead + PyStr(Get(recipe, "dish_name", Str(""))).text + "', ")
  {
    var name := PyStr(Get(recipe, "dish_name", Str(""))).text;
    var desc := PyStr(Get(recipe, "description", Str(""))).text;
    var bias := StyleBias(Get(recipe, "cuisine_type", Str(""))).value;
    assert Join(bias, " ") == bias[0];
    RawPromptIsStripped(name, desc, bias);
    var text := ComposePrompt(recipe).text;
    assert text == Opening(name) + Closing(desc, bias);
    assert text[..|Opening(name)|] == Opening(name);
  }

  /** An empty recipe gives an empty name and description and the neutral style. */
  lemma EmptyRecipePrompt()
    ensures ComposePrompt([]) == Rendered(RawPrompt("", "", [PlainStyle]))
  {
    assert !Contains("", "中") && !Contains("", "西");
    RawPromptIsStripped("", "", [PlainStyle]);
  }

  /** A cuisine naming both "中" and "西" gets the Chinese style: the first test wins. */
  lemma ChineseTakesPrecedence()
    ensures StyleBias(Str("中西融合")) == Returns([ChineseStyle])
    ensures StyleBias(Str("西餐")) == Returns([WesternStyle])
    ensures StyleBias(Str("日料")) == Returns([PlainStyle])
  {
    ContainsChar("中西融合", '中');
    ContainsChar("西餐", '中');
    ContainsChar("西餐", '西');
    ContainsChar("日料", '中');
    ContainsChar("日料", '西');
    assert "中"[0] in "中西融合";
  }

  /** A cuisine that is a number or null is not iterable: composing raises, so no image is produced. */
  lemma UniterableCuisineGivesNoImage(recipe: Dict, call: ImageCall)
    requires Lookup(recipe, "cuisine_type").Some?
    requires var c := Lookup(recipe, "cuisine_type").value; c.Null? || c.Int? || c.Float? || c.Bool?
    ensures GenerateRecipeImage(recipe, call).None?
  {
  }

  /** A non-OK status or an exception of the service gives `None` whatever the recipe. */
  lemma FailuresGiveNone(recipe: Dict, status: int, urls: seq<string>, message: string)
    requires status != StatusOk
    ensures GenerateRecipeImage(recipe, Finished(status, urls)) == None
    ensures GenerateRecipeImage(recipe, SdkRaised(message)) == None
  {
  }
}
