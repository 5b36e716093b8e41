/**
 * Deciding whether a chat message asks for a recipe: the backend's intent
 * endpoint, and the keyword patterns the page falls back on when that
 * endpoint cannot answer.
 *
 * Each pattern is a JavaScript regular expression tested with `.test`,
 * which succeeds when a match starts anywhere in the message. In those
 * expressions `.` matches any character but a line terminator and `\d`
 * matches an ASCII digit.
 */
module Intent {
  import opened Common
  import opened Text
  import opened Json
  import opened Store
  import opened HookFlow

  /** The three shapes the fallback patterns come in. */
  datatype Pattern =
      /** `/p(a|b|…)/`: the prefix directly followed by one of the alternatives (`[""]` for a plain word). */
    | Word(prefix: string, alts: seq<string>)
      /** `/(a|…).*(b|…)/`: an alternative of the first group, then later on the same line one of the second. */
    | Gap(first: seq<string>, second: seq<string>)
      /** `/\d+w.*(b|…)/`: digits directly before the word, then later on the same line one of the alternatives. */
    | DigitsGap(word: string, second: seq<string>)

  const CookVerbs: seq<string> := ["做", "煮", "炒", "蒸", "烤", "炸"]
  const DishWords: seq<string> := ["菜", "dish"]
  const DoneWords: seq<string> := ["菜", "dish", "完成"]

  /** The fallback's patterns, in the order the page lists them. */
  const RecipePatterns: seq<Pattern> := [
    Word("我想", CookVerbs),
    Word("想要", CookVerbs),
    Word("帮我", CookVerbs),
    Gap(["用", "有"], CookVerbs + ["料理"]),
    Gap(CookVerbs + ["料理"], DishWords),
    DigitsGap("分钟", DoneWords),
    Gap(["半小时"], DoneWords),
    Gap(["一小时"], DoneWords),
    Word("冰箱里有", [""]),
    Gap(["家里有"], ["想做", "做"]),
    Word("这些食材", [""]),
    Gap(["中式", "西式", "日式", "韩式", "川菜", "粤菜"], DishWords),
    Gap(["简单", "快手", "营养", "健康", "低脂"], DishWords)
  ]

  // ---------------------------------------------------------------------
  // What a match is

  /** No line terminator in `s[lo..hi]`: what `.*` can span. */
  predicate SameLine(s: string, lo: int, hi: int)
    requires 0 <= lo <= hi <= |s|
  {
    forall k :: lo <= k < hi ==> !IsJsLineTerminator(s[k])
  }

  /** One of `alts` occurs at `i`. */
  predicate OneOfAt(s: string, alts: seq<string>, i: int) {
    exists b :: 0 <= b < |alts| && OccursAt(s, alts[b], i)
  }

  /** One of `alts` occurs at or after `e`, with only same-line characters in between. */
  predicate LaterOnLine(s: string, alts: seq<string>, e: int)
    requires 0 <= e <= |s|
  {
    exists j :: e <= j <= |s| && OneOfAt(s, alts, j) && SameLine(s, e, j)
  }

  /** A match of `p` starts at `i` (for `DigitsGap`, `i` is the last digit). */
  predicate MatchesAt(p: Pattern, s: string, i: int)
    requires 0 <= i <= |s|
  {
    match p
    case Word(prefix, alts) =>
      exists b :: 0 <= b < |alts| && OccursAt(s, prefix + alts[b], i)
    case Gap(first, second) =>
      exists a :: 0 <= a < |first| && OccursAt(s, first[a], i) && LaterOnLine(s, second, i + |first[a]|)
    case DigitsGap(word, second) =>
      i < |s| && IsDigit(s[i]) && OccursAt(s, word, i + 1) && LaterOnLine(s, second, i + 1 + |word|)
  }

  /** `pattern.test(s)`. */
  predicate Matches(p: Pattern, s: string) {
    exists i :: 0 <= i <= |s| && MatchesAt(p, s, i)
  }

  // ---------------------------------------------------------------------
  // A matcher that scans the message

  /** Whether one of `alts` occurs at `i`, trying them in order. */
  function TryAlts(s: string, alts: seq<string>, i: int): (r: bool)
    ensures r <==> OneOfAt(s, alts, i)
  {
    if alts == [] then false
    else if OccursAt(s, alts[0], i) then
      assert OneOfAt(s, alts, i) by { assert OccursAt(s, alts[0], i); }
      true
    else
      var r := TryAlts(s, alts[1..], i);
      assert OneOfAt(s, alts, i) ==> OneOfAt(s, alts[1..], i) by {
        if OneOfAt(s, alts, i) {
          var b :| 0 <= b < |alts| && OccursAt(s, alts[b], i);
          assert alts[1..][b - 1] == alts[b];
        }
      }
      assert OneOfAt(s, alts[1..], i) ==> OneOfAt(s, alts, i) by {
        if OneOfAt(s, alts[1..], i) {
          var b :| 0 <= b < |alts[1..]| && OccursAt(s, alts[1..][b], i);
          assert alts[b + 1] == alts[1..][b];
        }
      }
      r
  }

  /** `LaterOnLine` unfolded by one character: found here, or this character is not a line end and it is found further on. */
  lemma LaterOnLineStep(s: string, alts: seq<string>, e: int)
    requires 0 <= e < |s|
    ensures LaterOnLine(s, alts, e) <==>
              OneOfAt(s, alts, e) || (!IsJsLineTerminator(s[e]) && LaterOnLine(s, alts, e + 1))
  {
    if LaterOnLine(s, alts, e) && !OneOfAt(s, alts, e) {
      var j :| e <= j <= |s| && OneOfAt(s, alts, j) && SameLine(s, e, j);
      assert j != e;
      assert SameLine(s, e + 1, j);
    }
    if OneOfAt(s, alts, e) {
      assert SameLine(s, e, e);
    }
    if !IsJsLineTerminator(s[e]) && LaterOnLine(s, alts, e + 1) {
      var j :| e + 1 <= j <= |s| && OneOfAt(s, alts, j) && SameLine(s, e + 1, j);
      assert SameLine(s, e, j);
    }
  }

  /** At the end of the message only an empty alternative can still be found. */
  lemma LaterOnLineAtEnd(s: string, alts: seq<string>)
    ensures LaterOnLine(s, alts, |s|) <==> OneOfAt(s, alts, |s|)
  {
    assert SameLine(s, |s|, |s|);
  }

  /** Scanning from `e` to the end of the line for one of `alts`. */
  function ScanLine(s: string, alts: seq<string>, e: int): (r: bool)
    requires 0 <= e <= |s|
    ensures r <==> LaterOnLine(s, alts, e)
    decreases |s| - e
  {
    if e == |s| then
      LaterOnLineAtEnd(s, alts);
      TryAlts(s, alts, e)
    else
      LaterOnLineStep(s, alts, e);
      TryAlts(s, alts, e) || (!IsJsLineTerminator(s[e]) && ScanLine(s, alts, e + 1))
  }

  /** An alternative of `first` at `i` followed later on its line by one of `second`, trying the first group in order. */
  function TryGap(s: string, first: seq<string>, second: seq<string>, i: int): (r: bool)
    requires 0 <= i <= |s|
    ensures r <==> exists a :: 0 <= a < |first| && OccursAt(s, first[a], i) && LaterOnLine(s, second, i + |first[a]|)
  {
    if first == [] then false
    else
      var here := OccursAt(s, first[0], i) && ScanLine(s, second, i + |first[0]|);
      var rest := TryGap(s, first[1..], second, i);
      assert rest ==> exists a :: 0 <= a < |first| && OccursAt(s, first[a], i) && LaterOnLine(s, second, i + |first[a]|) by {
        if rest {
          var a :| 0 <= a < |first[1..]| && OccursAt(s, first[1..][a], i) && LaterOnLine(s, second, i + |first[1..][a]|);
          assert first[a + 1] == first[1..][a];
        }
      }
      assert (exists a :: 0 <= a < |first| && OccursAt(s, first[a], i) && LaterOnLine(s, second, i + |first[a]|)) ==> here || rest by {
        if exists a :: 0 <= a < |first| && OccursAt(s, first[a], i) && LaterOnLine(s, second, i + |first[a]|) {
          var a :| 0 <= a < |first| && OccursAt(s, first[a], i) && LaterOnLine(s, second, i + |first[a]|);
          if a > 0 {
            assert first[1..][a - 1] == first[a];
          }
        }
      }
      here || rest
  }

  /** Whether a match of `p` starts at `i`. */
  function TestAt(p: Pattern, s: string, i: int): (r: bool)
    requires 0 <= i <= |s|
    ensures r <==> MatchesAt(p, s, i)
  {
    match p
    case Word(prefix, alts) =>
      WordAt(s, prefix, alts, i)
    case Gap(first, second) =>
      TryGap(s, first, second, i)
    case DigitsGap(word, second) =>
      i < |s| && IsDigit(s[i]) && OccursAt(s, word, i + 1) && ScanLine(s, second, i + 1 + |word|)
  }

  /** `prefix` followed by one of `alts` at `i`. */
  function WordAt(s: string, prefix: string, alts: seq<string>, i: int): (r: bool)
    ensures r <==> exists b :: 0 <= b < |alts| && OccursAt(s, prefix + alts[b], i)
  {
    if alts == [] then false
    else
      var rest := WordAt(s, prefix, alts[1..], i);
      assert rest ==> exists b :: 0 <= b < |alts| && OccursAt(s, prefix + alts[b], i) by {
        if rest {
          var b :| 0 <= b < |alts[1..]| && OccursAt(s, prefix + alts[1..][b], i);
          assert alts[b + 1] == alts[1..][b];
        }
      }
      assert (exists b :: 0 <= b < |alts| && OccursAt(s, prefix + alts[b], i)) ==> OccursAt(s, prefix + alts[0], i) || rest by {
        if exists b :: 0 <= b < |alts| && OccursAt(s, prefix + alts[b], i) {
          var b :| 0 <= b < |alts| && OccursAt(s, prefix + alts[b], i);
          if b > 0 {
            assert alts[1..][b - 1] == alts[b];
          }
        }
      }
      OccursAt(s, prefix + alts[0], i) || rest
  }

  /** Whether a match of `p` starts at `i` or later. */
  function TestFrom(p: Pattern, s: string, i: int): (r: bool)
    requires 0 <= i <= |s|
    ensures r <==> exists k :: i <= k <= |s| && MatchesAt(p, s, k)
    decreases |s| - i
  {
    if TestAt(p, s, i) then true
    else if i == |s| then false
    else
      var r := TestFrom(p, s, i + 1);
      assert (exists k :: i <= k <= |s| && MatchesAt(p, s, k)) ==> r by {
        if exists k :: i <= k <= |s| && MatchesAt(p, s, k) {
          var k :| i <= k <= |s| && MatchesAt(p, s, k);
          assert k != i;
        }
      }
      r
  }

  /** `pattern.test(s)`, by scanning. */
  function Test(p: Pattern, s: string): (r: bool)
    ensures r <==> Matches(p, s)
  {
    TestFrom(p, s, 0)
  }

  /** `patterns.some(pattern => pattern.test(s))`. */
  function AnyMatches(patterns: seq<Pattern>, s: string): (r: bool)
    ensures r <==> exists k :: 0 <= k < |patterns| && Matches(patterns[k], s)
  {
    if patterns == [] then false
    else
      var rest := AnyMatches(patterns[1..], s);
      assert rest ==> exists k :: 0 <= k < |patterns| && Matches(patterns[k], s) by {
        if rest {
          var k :| 0 <= k < |patterns[1..]| && Matches(patterns[1..][k], s);
          assert patterns[k + 1] == patterns[1..][k];
        }
      }
      assert (exists k :: 0 <= k < |patterns| && Matches(patterns[k], s)) ==> Test(patterns[0], s) || rest by {
        if exists k :: 0 <= k < |patterns| && Matches(patterns[k], s) {
          var k :| 0 <= k < |patterns| && Matches(patterns[k], s);
          if k > 0 {
            assert patterns[1..][k - 1] == patterns[k];
          }
        }
      }
      Test(patterns[0], s) || rest
  }

  /** `isRecipeRequestFallback(message)`. */
  function Fallback(message: string): (r: bool)
    ensures r <==> exists k :: 0 <= k < |RecipePatterns| && Matches(RecipePatterns[k], message)
  {
    AnyMatches(RecipePatterns, message)
  }

  // ---------------------------------------------------------------------
  // isRecipeRequest

  /**
   * `isRecipeRequest(message)` given how the intent call ended. A failed
   * call, or one whose body is `null` (reading a field of it throws), falls
   * back on the patterns. Otherwise the answer is the truthiness of the
   * body's `is_recipe_request`, absent meaning no.
   */
  function IsRecipeRequest(message: string, outcome: Outcome<Value>): (r: bool)
    ensures !outcome.Ok? || outcome.value == Null ==> r == Fallback(message)
    ensures outcome.Ok? && outcome.value.Obj? ==>
              (r <==> exists v :: Lookup(outcome.value.members, "is_recipe_request") == Some(v) && JsTruthy(v))
    ensures outcome.Ok? && !outcome.value.Obj? && outcome.value != Null ==> !r
  {
    if !outcome.Ok? then Fallback(message)
    else
      match outcome.value
      case Null => Fallback(message)
      case Obj(members) =>
        var v := Lookup(members, "is_recipe_request");
        v.Some? && JsTruthy(v.value)
      case _ => false
  }

  /** `isRecipeRequest(message)` itself: the intent call is always made, and its outcome, or else the patterns, decide. */
  method AskIntent(store: AppStore, message: string, outcome: Outcome<Value>) returns (wanted: bool)
    modifies store
    ensures wanted == IsRecipeRequest(message, outcome)
    ensures store.log == old(store.log) + [Fetched(IntentRequest(message))]
    ensures store.state == old(store.state) && store.timers == old(store.timers)
  {
    store.Fetch(IntentRequest(message));
    wanted := IsRecipeRequest(message, outcome);
  }

  /** Once the endpoint answers with an object, the patterns play no part: any two messages get the same answer. */
  lemma AnsweredIgnoresPatterns(m1: string, m2: string, members: seq<(string, Value)>)
    ensures IsRecipeRequest(m1, Ok(Obj(members))) == IsRecipeRequest(m2, Ok(Obj(members)))
  {
  }

  // ---------------------------------------------------------------------
  // The fallback on particular messages

  /** A character every match of a fallback pattern contains: one of each pattern's last group, or of its plain word. */
  predicate IsKeyChar(c: char) {
    c in {'做', '煮', '炒', '蒸', '烤', '炸', '料', '菜', 'd', '完', '冰', '这'}
  }

  predicate HasKey(w: string) {
    exists k :: 0 <= k < |w| && IsKeyChar(w[k])
  }

  predicate AllHaveKey(ws: seq<string>) {
    forall b :: 0 <= b < |ws| ==> HasKey(ws[b])
  }

  /** Every text a match of `p` is sure to contain has a key character. */
  predicate Keyed(p: Pattern) {
    match p
    case Word(prefix, alts) => forall b :: 0 <= b < |alts| ==> HasKey(prefix + alts[b])
    case Gap(_, second) => AllHaveKey(second)
    case DigitsGap(_, second) => AllHaveKey(second)
  }

  /** An occurrence of a word with a key character puts one in the message. */
  lemma OccurrenceHasKey(s: string, w: string, i: int)
    requires HasKey(w) && OccursAt(s, w, i)
    ensures HasKey(s)
  {
    var m :| 0 <= m < |w| && IsKeyChar(w[m]);
    assert s[i + m] == s[i..i + |w|][m];
  }

  /** A later alternative, all of whose choices have a key character, puts one in the message. */
  lemma LaterOnLineHasKey(s: string, alts: seq<string>, e: int)
    requires 0 <= e <= |s|
    requires AllHaveKey(alts) && LaterOnLine(s, alts, e)
    ensures HasKey(s)
  {
    var j :| e <= j <= |s| && OneOfAt(s, alts, j) && SameLine(s, e, j);
    var b :| 0 <= b < |alts| && OccursAt(s, alts[b], j);
    OccurrenceHasKey(s, alts[b], j);
  }

  /** A match of a keyed word pattern puts a key character in the message. */
  lemma WordMatchHasKey(prefix: string, alts: seq<string>, s: string)
    requires Keyed(Word(prefix, alts)) && Matches(Word(prefix, alts), s)
    ensures HasKey(s)
  {
    var i :| 0 <= i <= |s| && MatchesAt(Word(prefix, alts), s, i);
    var b :| 0 <= b < |alts| && OccursAt(s, prefix + alts[b], i);
    OccurrenceHasKey(s, prefix + alts[b], i);
  }

  /** A match of a keyed two-part pattern puts a key character in the message. */
  lemma GapMatchHasKey(first: seq<string>, second: seq<string>, s: string)
    requires Keyed(Gap(first, second)) && Matches(Gap(first, second), s)
    ensures HasKey(s)
  {
    var i :| 0 <= i <= |s| && MatchesAt(Gap(first, second), s, i);
    forall a | 0 <= a < |first| && OccursAt(s, first[a], i) && LaterOnLine(s, second, i + |first[a]|)
      ensures HasKey(s)
    {
      LaterOnLineHasKey(s, second, i + |first[a]|);
    }
  }

  /** A match of a keyed digits pattern puts a key character in the message. */
  lemma DigitsGapMatchHasKey(word: string, second: seq<string>, s: string)
    requires Keyed(DigitsGap(word, second)) && Matches(DigitsGap(word, second), s)
    ensures HasKey(s)
  {
    var i :| 0 <= i <= |s| && MatchesAt(DigitsGap(word, second), s, i);
    LaterOnLineHasKey(s, second, i + 1 + |word|);
  }

  /** A match of a keyed pattern puts a key character in the message. */
  lemma MatchHasKey(p: Pattern, s: string)
    requires Keyed(p) && Matches(p, s)
    ensures HasKey(s)
  {
    match p
    case Word(prefix, alts) => WordMatchHasKey(prefix, alts, s);
    case Gap(first, second) => GapMatchHasKey(first, second, s);
    case DigitsGap(word, second) => DigitsGapMatchHasKey(word, second, s);
  }

  /** A cooking verb after any prefix brings its key character along. */
  lemma CookWordKeyed(prefix: string)
    ensures Keyed(Word(prefix, CookVerbs))
  {
    forall b | 0 <= b < |CookVerbs| ensures HasKey(prefix + CookVerbs[b]) {
      assert (prefix + CookVerbs[b])[|prefix|] == CookVerbs[b][0];
    }
  }

  /** Every fallback pattern is keyed. */
  lemma AllPatternsKeyed()
    ensures forall k :: 0 <= k < |RecipePatterns| ==> Keyed(RecipePatterns[k])
  {
    assert IsKeyChar("料理"[0]) && IsKeyChar("dish"[0]) && IsKeyChar("完成"[0]) && IsKeyChar("想做"[1]);
    assert IsKeyChar("做"[0]) && IsKeyChar("煮"[0]) && IsKeyChar("炒"[0]) && IsKeyChar("蒸"[0]);
    assert IsKeyChar("烤"[0]) && IsKeyChar("炸"[0]) && IsKeyChar("菜"[0]);
    assert HasKey("做") && HasKey("煮") && HasKey("炒") && HasKey("蒸") && HasKey("烤") && HasKey("炸");
    assert HasKey("料理") && HasKey("菜") && HasKey("dish") && HasKey("完成") && HasKey("想做");
    assert AllHaveKey(CookVerbs + ["料理"]);
    assert AllHaveKey(DishWords) && AllHaveKey(DoneWords) && AllHaveKey(["想做", "做"]);
    CookWordKeyed("我想");
    CookWordKeyed("想要");
    CookWordKeyed("帮我");
    assert HasKey("冰箱里有" + [""][0]) by { assert IsKeyChar(("冰箱里有" + [""][0])[0]); }
    assert HasKey("这些食材" + [""][0]) by { assert IsKeyChar(("这些食材" + [""][0])[0]); }
  }

  /** A message with no key character matches no fallback pattern. */
  lemma NoKeyCharNoFallback(message: string)
    requires !HasKey(message)
    ensures !Fallback(message)
  {
    AllPatternsKeyed();
    forall k | 0 <= k < |RecipePatterns| ensures !Matches(RecipePatterns[k], message) {
      if Matches(RecipePatterns[k], message) {
        MatchHasKey(RecipePatterns[k], message);
      }
    }
  }

  /** Messages that ask for a dish are recognised. */
  lemma FallbackAccepts()
    ensures Fallback("我想做一道红烧肉")
    ensures Fallback("冰箱里有土豆和牛肉")
    ensures Fallback("半小时内能完成的菜")
    ensures Fallback("30分钟能做好的菜")
  {
    var s1 := "我想做一道红烧肉";
    assert OccursAt(s1, "我想" + CookVerbs[0], 0);
    assert MatchesAt(RecipePatterns[0], s1, 0);

    var s2 := "冰箱里有土豆和牛肉";
    assert OccursAt(s2, RecipePatterns[8].prefix + RecipePatterns[8].alts[0], 0);
    assert MatchesAt(RecipePatterns[8], s2, 0);

    var s3 := "半小时内能完成的菜";
    assert OccursAt(s3, DoneWords[0], 8);
    assert OneOfAt(s3, DoneWords, 8);
    assert SameLine(s3, 3, 8);
    assert OccursAt(s3, ["半小时"][0], 0);
    assert MatchesAt(RecipePatterns[6], s3, 0);

    var s4 := "30分钟能做好的菜";
    assert OccursAt(s4, "分钟", 2);
    assert OccursAt(s4, DoneWords[0], 8);
    assert OneOfAt(s4, DoneWords, 8);
    assert SameLine(s4, 4, 8);
    assert MatchesAt(RecipePatterns[5], s4, 1);
  }

  /** Small talk is not. */
  lemma FallbackRejects()
    ensures !Fallback("今天天气怎么样")
    ensures !Fallback("你好")
  {
    NoKeyCharNoFallback("今天天气怎么样");
    NoKeyCharNoFallback("你好");
  }

  /** `.` stops at a line break: the same words split over two lines no longer match. */
  lemma LineBreakDefeatsGap()
    ensures Matches(Gap(["半小时"], DoneWords), "半小时完成")
    ensures !Matches(Gap(["半小时"], DoneWords), "半小时\n完成")
  {
    var g := Gap(["半小时"], DoneWords);
    var s := "半小时完成";
    assert OccursAt(s, DoneWords[2], 3);
    assert OneOfAt(s, DoneWords, 3);
    assert SameLine(s, 3, 3);
    assert OccursAt(s, ["半小时"][0], 0);
    assert MatchesAt(g, s, 0);
    var t := "半小时\n完成";
    assert !OneOfAt(t, DoneWords, 3) by {
      forall b | 0 <= b < |DoneWords| ensures !OccursAt(t, DoneWords[b], 3) {
        if 3 + |DoneWords[b]| <= |t| {
          assert t[3..3 + |DoneWords[b]|][0] == t[3];
        }
      }
    }
    assert !LaterOnLine(t, DoneWords, 3) by {
      LaterOnLineStep(t, DoneWords, 3);
    }
    forall i | 0 <= i <= |t| ensures !MatchesAt(g, t, i) {
      if OccursAt(t, "半小时", i) {
        assert t[i] == t[i..i + 3][0];
      }
    }
  }
}
