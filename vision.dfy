/**
 * `GPTVisionAnalyzer`: the data URL of an uploaded image, the envelopes
 * `analyze_image_for_ingredients` returns, the brace-span fallback of
 * `_extract_json_from_text` and the text `get_ingredients_text` makes of
 * an analysis. The file contents, their base64 form, the model call and
 * `json.loads` are inputs.
 */
module Vision {
  import opened Common
  import opened Text
  import opened Json
  import opened Python

  const AnalysisFailed := "图片分析失败"
  const NothingRecognised := "未识别到明显的食材，请尝试上传更清晰的食材图片"
  const UnknownConfidence := "unknown"
  const IngredientSeparator := "、"

  // ---------------------------------------------------------------------
  // Encoding

  /** `"image/" + name.split(".")[-1].lower()`: the text after the last dot (all of it when there is none), lower-cased. */
  function MimeType(filename: string): (r: string)
    ensures StartsWith(r, "image/")
    ensures |r| == |"image/"| + |AfterLast(filename, '.')|
    ensures '.' !in r[|"image/"|..]
  {
    var ext := Lower(AfterLast(filename, '.'));
    assert forall k :: 0 <= k < |ext| ==> ext[k] == LowerChar(AfterLast(filename, '.')[k]);
    var r := "image/" + ext;
    assert r[..|"image/"|] == "image/";
    assert r[|"image/"|..] == ext;
    r
  }

  /** `_encode_image(image_file)`: a data URL of the file's base64 text, typed by its extension. */
  function DataUrl(filename: string, base64Text: string): string {
    "data:" + MimeType(filename) + ";base64," + base64Text
  }

  // ---------------------------------------------------------------------
  // The brace span

  /** The first position of `c` in `s`. */
  function FirstIndex(s: string, c: char): (r: Option<nat>)
    ensures r.None? <==> c !in s
    ensures r.Some? ==> r.value < |s| && s[r.value] == c && forall k :: 0 <= k < r.value ==> s[k] != c
  {
    if s == [] then None
    else if s[0] == c then Some(0)
    else match FirstIndex(s[1..], c)
      case None => None
      case Some(i) => Some(i + 1)
  }

  /** The last position of `c` in `s`. */
  function LastIndex(s: string, c: char): (r: Option<nat>)
    ensures r.None? <==> c !in s
    ensures r.Some? ==> r.value < |s| && s[r.value] == c && forall k :: r.value < k < |s| ==> s[k] != c
  {
    if s == [] then None
    else if s[|s| - 1] == c then Some(|s| - 1)
    else LastIndex(s[..|s| - 1], c)
  }

  /**
   * `re.search(r"\{.*\}", text, re.DOTALL)`: the leftmost "{" that has a
   * "}" after it, and the greedy match runs to the last "}". The result
   * is the positions of the two braces.
   */
  function BraceSpan(text: string): (r: Option<(nat, nat)>)
    ensures r.Some? ==> r.value.0 < r.value.1 < |text| && text[r.value.0] == '{' && text[r.value.1] == '}'
    ensures r.Some? ==> && (forall k :: 0 <= k < r.value.0 ==> text[k] != '{')
                        && (forall k :: r.value.1 < k < |text| ==> text[k] != '}')
    ensures r.None? <==> forall i, j :: 0 <= i < j < |text| && text[i] == '{' ==> text[j] != '}'
  {
    var first := FirstIndex(text, '{');
    var last := LastIndex(text, '}');
    if first.Some? && last.Some? && first.value < last.value then Some((first.value, last.value))
    else
      assert forall i, j :: 0 <= i < j < |text| && text[i] == '{' ==> text[j] != '}' by {
        forall i, j | 0 <= i < j < |text| && text[i] == '{' ensures text[j] != '}' {
          assert text[i] in text;
        }
      }
      None
  }

  /** The matched text `match.group()`. */
  function SpanText(text: string, span: (nat, nat)): string
    requires span.0 <= span.1 < |text|
  {
    text[span.0..span.1 + 1]
  }

  /** The dict returned when no JSON can be recovered: no ingredients, unknown confidence, the whole text as description. */
  function Fallback(text: string): Dict {
    [("ingredients", Arr([])), ("confidence", Str(UnknownConfidence)), ("description", Str(text))]
  }

  /**
   * `_extract_json_from_text(text)`, where `spanDecoded` is what
   * `json.loads(match.group())` gives for the brace span (`None` for a
   * decoding error); text starting with "{" decodes only to a dict.
   */
  function ExtractJsonFromText(text: string, spanDecoded: Option<Dict>): (r: Dict)
    ensures BraceSpan(text).None? || spanDecoded.None? ==> r == Fallback(text)
    ensures BraceSpan(text).Some? && spanDecoded.Some? ==> r == spanDecoded.value
  {
    if BraceSpan(text).Some? && spanDecoded.Some? then spanDecoded.value else Fallback(text)
  }

  // ---------------------------------------------------------------------
  // Envelopes

  /** The fields of the dict `analyze_image_for_ingredients` returns; `error` is present only on failure. */
  datatype Analysis = Analysis(success: bool, error: Option<string>, ingredients: Value, rawResponse: string, confidence: Value)

  /** The envelope as the dict the caller receives, keys in the order the source writes them. */
  function Envelope(a: Analysis): (d: Dict)
    ensures |d| == if a.error.Some? then 5 else 4
    ensures DistinctKeys(d)
    ensures d[0] == ("success", Bool(a.success))
  {
    var tail := [("ingredients", a.ingredients), ("raw_response", Str(a.rawResponse)), ("confidence", a.confidence)];
    var d := [("success", Bool(a.success))] + (if a.error.Some? then [("error", Str(a.error.value))] else []) + tail;
    assert "success"[0] == 's' && "error"[0] == 'e' && "ingredients"[0] == 'i'
        && "raw_response"[0] == 'r' && "confidence"[0] == 'c';
    d
  }

  /** The failure envelope: `str(e)` as the error, no ingredients, no raw response, unknown confidence. */
  function Failure(message: string): Analysis {
    Analysis(false, Some(message), Arr([]), "", Str(UnknownConfidence))
  }

  /** What the vision call gave: the answer's text with what `json.loads` and the span fallback make of it, or an exception (reading or encoding the file, or the call itself). */
  datatype VisionCall =
    | Answered(content: string, decoded: Option<Value>, spanDecoded: Option<Dict>)
    | CallRaised(message: string)

  /** The value `result` takes: the decoded answer, or the fallback extraction when decoding failed. */
  function AnswerResult(content: string, decoded: Option<Value>, spanDecoded: Option<Dict>): Value {
    if decoded.Some? then decoded.value else Obj(ExtractJsonFromText(content, spanDecoded))
  }

  /**
   * `analyze_image_for_ingredients(image_file)`: a decoded dict gives the
   * success envelope (ingredients default to [] and confidence to
   * "unknown"); an exception, including `.get` on a decoded value that is
   * not a dict, gives the failure envelope.
   */
  function Analyze(call: VisionCall): (a: Analysis)
    ensures a.success <==> call.Answered? && AnswerResult(call.content, call.decoded, call.spanDecoded).Obj?
    ensures !a.success ==> a.error.Some? && a.ingredients == Arr([]) && a.rawResponse == "" && a.confidence == Str(UnknownConfidence)
    ensures a.success ==> a.error.None? && a.rawResponse == call.content
    ensures a.success ==>
              var result := AnswerResult(call.content, call.decoded, call.spanDecoded).members;
              && a.ingredients == (if Lookup(result, "ingredients").Some? then Lookup(result, "ingredients").value else Arr([]))
              && a.confidence == (if Lookup(result, "confidence").Some? then Lookup(result, "confidence").value else Str(UnknownConfidence))
  {
    match call
    case CallRaised(message) => Failure(message)
    case Answered(content, decoded, spanDecoded) =>
      var result := AnswerResult(content, decoded, spanDecoded);
      if !result.Obj? then Failure(NoGetMessage(result))
      else Analysis(true, None, Get(result.members, "ingredients", Arr([])), content,
                    Get(result.members, "confidence", Str(UnknownConfidence)))
  }

  // ---------------------------------------------------------------------
  // Ingredient text

  /** The position of the first item that is not a string. */
  function FirstNonString(items: seq<Value>): (r: Option<nat>)
    ensures r.None? <==> forall k :: 0 <= k < |items| ==> items[k].Str?
    ensures r.Some? ==> r.value < |items| && !items[r.value].Str? && forall k :: 0 <= k < r.value ==> items[k].Str?
  {
    if items == [] then None
    else if !items[0].Str? then Some(0)
    else match FirstNonString(items[1..])
      case None => None
      case Some(i) => Some(i + 1)
  }

  /** The texts of items that are all strings. */
  function StrTexts(items: seq<Value>): (r: seq<string>)
    requires forall k :: 0 <= k < |items| ==> items[k].Str?
    ensures |r| == |items| && forall k :: 0 <= k < |items| ==> r[k] == items[k].s
  {
    if items == [] then [] else [items[0].s] + StrTexts(items[1..])
  }

  /**
   * `sep.join(v)`: the items `for x in v` visits must all be strings; the
   * first that is not raises TypeError naming its position and type, and
   * a value that is not iterable raises TypeError too.
   */
  function JoinValues(v: Value, sep: string): (r: Result<string>)
    ensures r.Raises? ==> r.error.TypeError?
    ensures v.Arr? ==> (r.Returns? <==> forall k :: 0 <= k < |v.items| ==> v.items[k].Str?)
    ensures v.Arr? && r.Returns? ==> r.value == Join(StrTexts(v.items), sep)
  {
    match Iterate(v)
    case None => Raises(TypeError("can only join an iterable"))
    case Some(items) =>
      match FirstNonString(items)
      case None => Returns(Join(StrTexts(items), sep))
      case Some(k) =>
        Raises(TypeError("sequence item " + IntString(k) + ": expected str instance, " + PyTypeName(items[k]) + " found"))
  }

  /**
   * `get_ingredients_text(image_file)`: "图片分析失败" for a failed
   * analysis, a hint when nothing was recognised, otherwise the
   * ingredients joined with "、".
   */
  function GetIngredientsText(call: VisionCall): (r: Result<string>)
    ensures !Analyze(call).success ==> r == Returns(AnalysisFailed)
    ensures Analyze(call).success && !PyTruthy(Analyze(call).ingredients) ==> r == Returns(NothingRecognised)
    ensures Analyze(call).success && PyTruthy(Analyze(call).ingredients) ==> r == JoinValues(Analyze(call).ingredients, IngredientSeparator)
  {
    var result := Envelope(Analyze(call));
    EnvelopeLookup(Analyze(call));
    if !PyTruthy(Lookup(result, "success").value) then Returns(AnalysisFailed)
    else
      var ingredients := Lookup(result, "ingredients").value;
      if !PyTruthy(ingredients) then Returns(NothingRecognised)
      else JoinValues(ingredients, IngredientSeparator)
  }

  // ---------------------------------------------------------------------
  // Properties

  /** Reading the envelope dict by key gives the fields of the analysis; "error" is there only on failure. */
  lemma EnvelopeLookup(a: Analysis)
    ensures Lookup(Envelope(a), "success") == Some(Bool(a.success))
    ensures Lookup(Envelope(a), "ingredients") == Some(a.ingredients)
    ensures Lookup(Envelope(a), "raw_response") == Some(Str(a.rawResponse))
    ensures Lookup(Envelope(a), "confidence") == Some(a.confidence)
    ensures Lookup(Envelope(a), "error") == if a.error.Some? then Some(Str(a.error.value)) else None
  {
    var d := Envelope(a);
    var n := |d|;
    LookupDistinct(d, 0);
    LookupDistinct(d, n - 3);
    LookupDistinct(d, n - 2);
    LookupDistinct(d, n - 1);
    if a.error.Some? {
      LookupDistinct(d, 1);
    } else {
      assert "error"[0] == 'e' && "success"[0] == 's' && "ingredients"[0] == 'i'
          && "raw_response"[0] == 'r' && "confidence"[0] == 'c';
    }
  }

  /** Any exception gives `success` False, the message as `error`, no ingredients, no raw response and unknown confidence. */
  lemma FailureEnvelope(message: string)
    ensures Envelope(Analyze(CallRaised(message)))
            == [("success", Bool(false)), ("error", Str(message)), ("ingredients", Arr([])),
                ("raw_response", Str("")), ("confidence", Str("unknown"))]
  {
  }

  /** A decoded dict without the keys gives no ingredients and unknown confidence, and keeps the raw answer. */
  lemma SuccessDefaults(content: string, members: Dict, spanDecoded: Option<Dict>)
    requires Lookup(members, "ingredients").None? && Lookup(members, "confidence").None?
    ensures Analyze(Answered(content, Some(Obj(members)), spanDecoded))
            == Analysis(true, None, Arr([]), content, Str(UnknownConfidence))
  {
  }

  /** An answer that is JSON but not a dict fails on `.get`: the failure envelope carries the AttributeError's message. */
  lemma NonDictAnswerFails(content: string, v: Value, spanDecoded: Option<Dict>)
    requires !v.Obj?
    ensures Analyze(Answered(content, Some(v), spanDecoded)) == Failure(NoGetMessage(v))
    ensures GetIngredientsText(Answered(content, Some(v), spanDecoded)) == Returns(AnalysisFailed)
  {
  }

  /** Text that is not JSON and holds no "{...}" span still succeeds, with no ingredients and unknown confidence. */
  lemma ProseAnswerFallsBack(content: string, spanDecoded: Option<Dict>)
    requires BraceSpan(content).None?
    ensures Analyze(Answered(content, None, spanDecoded)) == Analysis(true, None, Arr([]), content, Str(UnknownConfidence))
    ensures GetIngredientsText(Answered(content, None, spanDecoded)) == Returns(NothingRecognised)
  {
    var d := Fallback(content);
    assert "ingredients"[0] != "confidence"[0] && "ingredients"[0] != "description"[0] && "confidence"[0] != "description"[0];
    LookupDistinct(d, 0);
    LookupDistinct(d, 1);
  }

  /**
   * Prose around a JSON object: when the answer does not decode as a
   * whole but its brace span does, the span's dict supplies the
   * ingredients and the confidence, and the raw answer is kept.
   */
  lemma RecoveredSpanIsUsed(content: string, ingredients: Value, confidence: Value)
    requires BraceSpan(content).Some?
    ensures var d := [("ingredients", ingredients), ("confidence", confidence)];
            Analyze(Answered(content, None, Some(d))) == Analysis(true, None, ingredients, content, confidence)
  {
    var d := [("ingredients", ingredients), ("confidence", confidence)];
    assert "ingredients"[0] != "confidence"[0];
    LookupDistinct(d, 0);
    LookupDistinct(d, 1);
  }

  /** The fallback dict holds the whole text as its description. */
  lemma FallbackDescribesText(text: string)
    ensures Lookup(Fallback(text), "description") == Some(Str(text))
    ensures Lookup(Fallback(text), "ingredients") == Some(Arr([]))
    ensures Lookup(Fallback(text), "confidence") == Some(Str(UnknownConfidence))
  {
    var d := Fallback(text);
    assert "ingredients"[0] != "confidence"[0] && "ingredients"[0] != "description"[0] && "confidence"[0] != "description"[0];
    LookupDistinct(d, 0);
    LookupDistinct(d, 1);
    LookupDistinct(d, 2);
  }

  /** Recognised ingredient names are joined with "、" in the order the model listed them. */
  lemma IngredientNamesJoined(content: string, items: seq<Value>, spanDecoded: Option<Dict>)
    requires items != [] && forall k :: 0 <= k < |items| ==> items[k].Str?
    ensures GetIngredientsText(Answered(content, Some(Obj([("ingredients", Arr(items))])), spanDecoded))
            == Returns(Join(StrTexts(items), IngredientSeparator))
  {
    var members := [("ingredients", Arr(items))];
    assert Lookup(members, "ingredients") == Some(Arr(items));
    assert Get(members, "ingredients", Arr([])) == Arr(items);
    assert AnswerResult(content, Some(Obj(members)), spanDecoded) == Obj(members);
    var a := Analyze(Answered(content, Some(Obj(members)), spanDecoded));
    assert a.success && a.ingredients == Arr(items);
    assert PyTruthy(a.ingredients);
  }

  /** A file name with a dot gives the text after its last dot, lower-cased. */
  lemma MimeOfDotted(stem: string, ext: string)
    requires '.' !in ext
    ensures MimeType(stem + "." + ext) == "image/" + Lower(ext)
  {
    AfterLastOf(stem, ext, '.');
  }

  /** The data URL starts "data:image/" and ends with the encoded bytes after ";base64,". */
  lemma DataUrlShape(filename: string, base64Text: string)
    ensures StartsWith(DataUrl(filename, base64Text), "data:image/")
    ensures var url := DataUrl(filename, base64Text);
            |url| >= |base64Text| + 8 && url[|url| - |base64Text| - 8..] == ";base64," + base64Text
  {
    var mime := MimeType(filename);
    var tail := ";base64," + base64Text;
    var head := "data:" + mime;
    var url := head + tail;
    assert url == DataUrl(filename, base64Text);
    assert mime[..6] == "image/";
    assert head[..11] == "data:image/" by {
      forall k | 0 <= k < 11 ensures head[k] == "data:image/"[k] {
        if k >= 5 {
          assert head[k] == mime[k - 5] == "image/"[k - 5];
        }
      }
    }
    assert url[..11] == head[..11];
    assert url[|head|..] == tail;
  }

  /** An upper-case extension is lower-cased. */
  lemma UpperCaseExtension()
    ensures MimeType("photo.JPG") == "image/jpg"
  {
    assert "photo" + "." + "JPG" == "photo.JPG";
    MimeOfDotted("photo", "JPG");
    var lower := Lower("JPG");
    assert lower[0] == LowerChar('J') == 'j' && lower[1] == LowerChar('P') == 'p' && lower[2] == LowerChar('G') == 'g';
    assert lower == "jpg";
    assert "image/" + "jpg" == "image/jpg";
  }

  /** A name without a dot is taken whole. */
  lemma NameWithoutDot()
    ensures MimeType("photo") == "image/photo"
  {
    AfterLastNoSep("photo", '.');
    var lower := Lower("photo");
    assert forall k :: 0 <= k < 5 ==> lower[k] == LowerChar("photo"[k]) == "photo"[k];
    assert lower == "photo";
    assert "image/" + "photo" == "image/photo";
  }
}
