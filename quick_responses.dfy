/**
 * The quick-answer shortcut of the chat back end
 * (backend/src/utils/quick_responses.py): a crude language guess, whole-query
 * greeting patterns and start-of-query question patterns, each answered by a
 * canned text in the guessed language. The six greeting and five question
 * regular expressions are written out as predicates over the words they
 * spell, `\s+` being a run of at least one whitespace character.
 */
module QuickResponses {
  import opened Wrappers
  import opened Text

  datatype Language = Sv | En

  const SwedishWords: seq<string> := ["\U{00E4}r", "och", "det", "en", "du", "jag", "vad", "hur", "vem", "hej", "d\U{00E4}r"]
  const EnglishWords: seq<string> := ["are", "and", "the", "you", "what", "how", "who", "hello", "hi"]

  /** `sum(1 for word in words if word in text)`. */
  function CountPresent(text: string, words: seq<string>): (n: nat)
    ensures n <= |words|
    ensures n == 0 <==> forall i | 0 <= i < |words| :: !Contains(text, words[i])
  {
    if words == [] then 0
    else CountPresent(text, words[..|words| - 1]) + (if Contains(text, words[|words| - 1]) then 1 else 0)
  }

  /** `detect_language` (lines 56-65): Swedish only on a strict majority, ties go to English. */
  function DetectLanguage(text: string): Language
  {
    if CountPresent(Lower(text), SwedishWords) > CountPresent(Lower(text), EnglishWords) then Sv else En
  }

  /** Text with none of the Swedish words is never taken for Swedish. */
  lemma NoSwedishWordMeansEnglish(text: string)
    requires forall i | 0 <= i < |SwedishWords| :: !Contains(Lower(text), SwedishWords[i])
    ensures DetectLanguage(text) == En
  {
  }

  /** `s` is exactly `words` separated by runs of whitespace (one alternative of a greeting). */
  predicate MatchesWords(s: string, words: seq<string>)
    decreases |s|, 1
  {
    if |words| <= 1 then words == [s]
    else words[0] <= s && SpaceThenWords(s[|words[0]|..], words[1..])
  }

  /** One or more whitespace characters, then `words` to the end. */
  predicate SpaceThenWords(s: string, words: seq<string>)
    decreases |s|, 0
  {
    |s| > 0 && IsSpace(s[0]) && (MatchesWords(s[1..], words) || SpaceThenWords(s[1..], words))
  }

  /** Whitespace then one final word: everything before the word is whitespace. */
  lemma {:induction false} SpaceThenLastWord(s: string, w: string)
    requires SpaceThenWords(s, [w])
    ensures |w| < |s| && s[|s| - |w|..] == w
    ensures forall i | 0 <= i < |s| - |w| :: IsSpace(s[i])
    decreases |s|
  {
    if !MatchesWords(s[1..], [w]) {
      SpaceThenLastWord(s[1..], w);
      assert forall i | 1 <= i < |s| - |w| :: s[i] == s[1..][i - 1];
    }
  }

  /** `s` starts with `words` separated by runs of whitespace (one alternative of a question pattern). */
  predicate StartsWithWords(s: string, words: seq<string>)
    decreases |s|, 1
  {
    if |words| <= 1 then words != [] && words[0] <= s
    else words[0] <= s && SpaceThenPrefix(s[|words[0]|..], words[1..])
  }

  predicate SpaceThenPrefix(s: string, words: seq<string>)
    decreases |s|, 0
  {
    |s| > 0 && IsSpace(s[0]) && (StartsWithWords(s[1..], words) || SpaceThenPrefix(s[1..], words))
  }

  /**
   * The tail `\.?!?$`: the query minus an optional final '!' and then an
   * optional final '.'. No greeting word holds either character, so this
   * split is the only one the regular expression can make.
   */
  function WithoutClosingMarks(s: string): (body: string)
    ensures body <= s && |s| - 2 <= |body|
  {
    var t := if s != [] && s[|s| - 1] == '!' then s[..|s| - 1] else s;
    if t != [] && t[|t| - 1] == '.' then t[..|t| - 1] else t
  }

  /** `GREETING_PATTERNS` (lines 10-17), each a list of alternatives, each alternative a list of words. */
  const GreetingPatterns: seq<seq<seq<string>>> := [
    [["hej"], ["hello"], ["hi"], ["hall\U{00E5}"], ["tjena"], ["tja"], ["yo"]],
    [["hej", "d\U{00E4}r"], ["hej", "peter"], ["hej", "du"],
     ["hello", "d\U{00E4}r"], ["hello", "peter"], ["hello", "du"],
     ["hi", "d\U{00E4}r"], ["hi", "peter"], ["hi", "du"]],
    [["god", "morgon"], ["godmorgon"], ["gm"]],
    [["god", "kv\U{00E4}ll"], ["godkv\U{00E4}ll"], ["gk"]],
    [["god", "dag"], ["goddag"]],
    [["bra", "dag"], ["ha", "en", "bra", "dag"]]
  ]

  /** `re.match(pattern, query_clean)` for a greeting pattern: the whole query is the greeting. */
  predicate MatchesGreeting(pattern: seq<seq<string>>, clean: string)
  {
    exists a | 0 <= a < |pattern| :: MatchesWords(WithoutClosingMarks(clean), pattern[a])
  }

  predicate IsGreeting(clean: string)
  {
    exists i | 0 <= i < |GreetingPatterns| :: MatchesGreeting(GreetingPatterns[i], clean)
  }

  /** One alternative of a question pattern: words, or the `what.+name` wildcard. */
  datatype Alternative = Words(words: seq<string>) | WhatThenName

  /** `what.+name` at the start: at least one character other than a newline between the two words. */
  predicate WhatThenNameAt(s: string)
  {
    "what" <= s &&
    exists i | 5 <= i <= |s| - 4 :: s[i..i + 4] == "name" && '\n' !in s[4..i]
  }

  predicate StartsWith(s: string, alt: Alternative)
  {
    match alt
    case Words(words) => StartsWithWords(s, words)
    case WhatThenName => WhatThenNameAt(s)
  }

  /** The question a pattern answers: its name, its wellbeing, who it is, opening hours, location. */
  datatype Topic = Name | Wellbeing | Identity | Hours | Location

  /** A `QUICK_PATTERNS` entry: the regular expression's alternatives and which `{"sv", "en"}` answer pair it carries. */
  datatype QuickPattern = QuickPattern(alternatives: seq<Alternative>, topic: Topic)

  /** The `sv` and `en` answers of each entry of `QUICK_PATTERNS` (lines 19-40). */
  function Reply(topic: Topic, language: Language): string
  {
    match (topic, language)
    case (Name, Sv) => "Hej! Jag \U{00E4}r AI-assistenten p\U{00E5} Foodie restaurang. Vad kan jag hj\U{00E4}lpa dig med idag?"
    case (Name, En) => "Hi! I'm the AI assistant at Foodie restaurant. How can I help you today?"
    case (Wellbeing, Sv) => "Tack f\U{00F6}r att du fr\U{00E5}gar! Jag m\U{00E5}r bra och \U{00E4}r redo att hj\U{00E4}lpa dig med v\U{00E5}r meny. Vad \U{00E4}r du nyfiken p\U{00E5}?"
    case (Wellbeing, En) => "Thanks for asking! I'm doing well and ready to help you with our menu. What are you curious about?"
    case (Identity, Sv) => "Jag \U{00E4}r AI-assistenten p\U{00E5} Foodie, en svensk restaurang. Jag kan hj\U{00E4}lpa dig med menyn, allergener och best\U{00E4}llningar. Vad beh\U{00F6}ver du hj\U{00E4}lp med?"
    case (Identity, En) => "I'm the AI assistant at Foodie, a Swedish restaurant. I can help you with our menu, allergens, and orders. What do you need help with?"
    case (Hours, Sv) => "Vi \U{00E4}r \U{00F6}ppna m\U{00E5}ndag-fredag 11:00-22:00 och helger 12:00-23:00. Vill du veta n\U{00E5}got mer om restaurangen?"
    case (Hours, En) => "We're open Monday-Friday 11:00-22:00 and weekends 12:00-23:00. Would you like to know more about the restaurant?"
    case (Location, Sv) => "Du hittar oss p\U{00E5} Storgatan 123, Stockholm. Vi har \U{00E4}ven hemleverans! Vill du se v\U{00E5}r meny?"
    case (Location, En) => "You can find us at Storgatan 123, Stockholm. We also offer home delivery! Would you like to see our menu?"
  }

  /** `QUICK_PATTERNS` (lines 19-40), in the dict's insertion order. */
  const QuickPatterns: seq<QuickPattern> := [
    QuickPattern([Words(["vad", "heter", "du"]), WhatThenName], Name),
    QuickPattern([Words(["hur", "m\U{00E5}r", "du"]), Words(["how", "are", "you"])], Wellbeing),
    QuickPattern([Words(["vem", "\U{00E4}r", "du"]), Words(["who", "are", "you"])], Identity),
    QuickPattern([Words(["\U{00F6}ppettider"]), Words(["opening", "hours"]), Words(["when", "open"])], Hours),
    QuickPattern([Words(["var", "ligger"]), Words(["where", "located"]), Words(["location"])], Location)
  ]

  /** `re.search(pattern, query_clean)` for a `^`-anchored question pattern. */
  predicate MatchesQuick(pattern: QuickPattern, clean: string)
  {
    exists a | 0 <= a < |pattern.alternatives| :: StartsWith(clean, pattern.alternatives[a])
  }

  /** The first question pattern, from index `from` on, that matches. */
  function FirstQuick(clean: string, from: nat): (k: Option<nat>)
    requires from <= |QuickPatterns|
    ensures k.Some? ==> from <= k.value < |QuickPatterns| && MatchesQuick(QuickPatterns[k.value], clean)
    ensures k.Some? ==> forall j | from <= j < k.value :: !MatchesQuick(QuickPatterns[j], clean)
    ensures k.None? <==> forall j | from <= j < |QuickPatterns| :: !MatchesQuick(QuickPatterns[j], clean)
    decreases |QuickPatterns| - from
  {
    if from == |QuickPatterns| then None
    else if MatchesQuick(QuickPatterns[from], clean) then Some(from)
    else FirstQuick(clean, from + 1)
  }

  /** `GREETING_RESPONSES` (lines 43-54). */
  const SvGreeting0 := "Hej d\U{00E4}r! V\U{00E4}lkommen till Foodie! Jag \U{00E4}r er AI-assistent. Vad kan jag hj\U{00E4}lpa dig med idag?"
  const SvGreeting1 := "Hall\U{00E5}! Trevligt att tr\U{00E4}ffas! Jag kan hj\U{00E4}lpa dig med v\U{00E5}r meny, allergener och best\U{00E4}llningar. Vad \U{00E4}r du nyfiken p\U{00E5}?"
  const SvGreeting2 := "Hej! V\U{00E4}lkommen till Foodie restaurang! Jag \U{00E4}r h\U{00E4}r f\U{00F6}r att hj\U{00E4}lpa dig. Vad kan jag visa dig?"
  const EnGreeting0 := "Hello there! Welcome to Foodie! I'm your AI assistant. How can I help you today?"
  const EnGreeting1 := "Hi! Nice to meet you! I can help you with our menu, allergens, and orders. What are you curious about?"
  const EnGreeting2 := "Hello! Welcome to Foodie restaurant! I'm here to help you. What can I show you?"
  const SvGreetings: seq<string> := [SvGreeting0, SvGreeting1, SvGreeting2]
  const EnGreetings: seq<string> := [EnGreeting0, EnGreeting1, EnGreeting2]

  function GreetingResponses(language: Language): seq<string>
  {
    match language
    case Sv => SvGreetings
    case En => EnGreetings
  }

  /** `response_data[language]`: the entry's answer in the detected language. */
  function InLanguage(pattern: QuickPattern, language: Language): string
  {
    Reply(pattern.topic, language)
  }

  /** `query.lower().strip()` (line 77). */
  function Clean(query: string): string
  {
    Strip(Lower(query))
  }

  /**
   * `get_quick_response` (lines 67-94); `choice` is the index `random.choice`
   * picks among the three greetings.
   */
  function GetQuickResponse(query: string, choice: nat): (r: Option<string>)
    requires choice < 3
    ensures IsGreeting(Clean(query)) ==> r.Some? && r.value in GreetingResponses(DetectLanguage(query))
    ensures !IsGreeting(Clean(query)) && r.Some? ==>
      exists k | 0 <= k < |QuickPatterns| :: MatchesQuick(QuickPatterns[k], Clean(query)) &&
        r.value == InLanguage(QuickPatterns[k], DetectLanguage(query))
    ensures r.None? <==>
      !IsGreeting(Clean(query)) && forall k | 0 <= k < |QuickPatterns| :: !MatchesQuick(QuickPatterns[k], Clean(query))
  {
    var clean := Clean(query);
    var language := DetectLanguage(query);
    if IsGreeting(clean) then Some(GreetingResponses(language)[choice])
    else match FirstQuick(clean, 0)
      case Some(k) => Some(InLanguage(QuickPatterns[k], language))
      case None => None
  }

  /** `should_use_quick_response` (lines 96-106). */
  predicate ShouldUseQuickResponse(query: string)
  {
    GetQuickResponse(query, 0).Some?
  }

  /** Without a greeting, the answer is the first matching question pattern's text in the detected language. */
  lemma QuestionAnswerIsFirstMatch(query: string, choice: nat, k: nat)
    requires choice < 3 && k < |QuickPatterns|
    requires !IsGreeting(Clean(query)) && MatchesQuick(QuickPatterns[k], Clean(query))
    requires forall j | 0 <= j < k :: !MatchesQuick(QuickPatterns[j], Clean(query))
    ensures GetQuickResponse(query, choice) == Some(InLanguage(QuickPatterns[k], DetectLanguage(query)))
  {
    var found := FirstQuick(Clean(query), 0);
    assert found.Some?;
    assert found.value == k;
  }

  /** Whether an answer exists does not depend on which greeting the random pick would choose. */
  lemma ShouldUseMatchesAnyPick(query: string, choice: nat)
    requires choice < 3
    ensures ShouldUseQuickResponse(query) <==> GetQuickResponse(query, choice).Some?
  {
  }

  lemma LowerHej()
    ensures Lower("Hej!") == "hej!"
  {
  }

  lemma StripHej()
    ensures Strip("hej!") == "hej!"
  {
    StripOfTrimmed("hej!");
  }

  lemma CleanHej()
    ensures Clean("Hej!") == "hej!"
  {
    LowerHej();
    StripHej();
  }

  lemma GreetingHej()
    ensures MatchesGreeting(GreetingPatterns[0], "hej!")
  {
    assert WithoutClosingMarks("hej!") == "hej";
    assert MatchesWords("hej", GreetingPatterns[0][0]);
  }

  lemma HejIsGreeting()
    ensures IsGreeting(Clean("Hej!"))
  {
    CleanHej();
    GreetingHej();
  }

  lemma HejIsSwedish()
    ensures DetectLanguage("Hej!") == Sv
  {
    assert Lower("Hej!") == "hej!";
    HejHasSwedishWord();
    HejHasNoEnglishWord();
  }

  lemma HejHasSwedishWord()
    ensures CountPresent("hej!", SwedishWords) > 0
  {
    ContainsAt("hej!", SwedishWords[9], 0);
  }

  lemma HejHasNoEnglishWord()
    ensures CountPresent("hej!", EnglishWords) == 0
  {
    NotInHej(EnglishWords[0], 1);
    NotInHej(EnglishWords[1], 1);
    NotInHej(EnglishWords[2], 0);
    NotInHej(EnglishWords[3], 1);
    NotInHej(EnglishWords[4], 2);
    NotInHej(EnglishWords[5], 1);
    NotInHej(EnglishWords[6], 2);
    NotInHej(EnglishWords[7], 2);
    NotInHej(EnglishWords[8], 1);
  }

  /** A word with a letter that "hej!" lacks does not occur in it. */
  lemma NotInHej(w: string, k: nat)
    requires k < |w| && w[k] != 'h' && w[k] != 'e' && w[k] != 'j' && w[k] != '!'
    ensures !Contains("hej!", w)
  {
    var t := "hej!";
    assert w[k] !in t;
    MissingCharNotContained(t, w, w[k]);
  }

  /** "Hej!" is a whole-query greeting, taken for Swedish. */
  lemma HejIsSwedishGreeting(choice: nat)
    requires choice < 3
    ensures GetQuickResponse("Hej!", choice) == Some(SvGreetings[choice])
  {
    HejIsGreeting();
    HejIsSwedish();
  }

  const HejHurMarDu := "hej hur m\U{00E5}r du"

  lemma CleanHejHurMarDu()
    ensures Clean(HejHurMarDu) == HejHurMarDu
  {
    var q := HejHurMarDu;
    LowerOfLowercase(q);
    assert q[0] == 'h' && q[|q| - 1] == 'u';
    StripOfTrimmed(q);
  }

  lemma HejHurMarDuIsNoGreeting()
    ensures !IsGreeting(HejHurMarDu)
  {
    var q := HejHurMarDu;
    assert WithoutClosingMarks(q) == q;
    forall i, a | 0 <= i < |GreetingPatterns| && 0 <= a < |GreetingPatterns[i]|
      ensures !MatchesWords(q, GreetingPatterns[i][a])
    {
      NotHejHurMarDuWords(GreetingPatterns[i][a]);
    }
  }

  /**
   * No single word is the whole query, no two words separated by spaces can
   * be it (its sixth character is a letter), and "ha ..." does not start it.
   */
  lemma {:induction false} NotHejHurMarDuWords(w: seq<string>)
    requires |w| == 1 ==> |w[0]| < |HejHurMarDu|
    requires |w| == 2 ==> |w[0]| <= 5 && |w[1]| <= 6
    requires |w| > 2 ==> w[0] == "ha"
    ensures !MatchesWords(HejHurMarDu, w)
  {
    var q := HejHurMarDu;
    assert |q| == 14 && q[1] == 'e';
    if |w| == 2 {
      if w[0] <= q && SpaceThenWords(q[|w[0]|..], w[1..]) {
        assert w[1..] == [w[1]];
        assert q[|w[0]|..][5 - |w[0]|] == 'u';
        SpaceThenLastWord(q[|w[0]|..], w[1]);
      }
    } else if |w| > 2 {
      assert !(w[0] <= q);
    }
  }

  lemma HejHurMarDuIsNoQuestion()
    ensures forall k | 0 <= k < |QuickPatterns| :: !MatchesQuick(QuickPatterns[k], HejHurMarDu)
  {
    forall k, a | 0 <= k < |QuickPatterns| && 0 <= a < |QuickPatterns[k].alternatives|
      ensures !StartsWith(HejHurMarDu, QuickPatterns[k].alternatives[a])
    {
      NotHejHurMarDuStart(QuickPatterns[k].alternatives[a]);
    }
  }

  /** An alternative whose first word does not begin with "he" cannot start the query. */
  lemma NotHejHurMarDuStart(alt: Alternative)
    requires alt.Words? ==> alt.words != [] && |alt.words[0]| >= 2 && (alt.words[0][0] != 'h' || alt.words[0][1] != 'e')
    ensures !StartsWith(HejHurMarDu, alt)
  {
    var q := HejHurMarDu;
    assert q[0] == 'h' && q[1] == 'e';
    if alt.WhatThenName? {
      assert "what"[0] != q[0];
    }
  }

  /** A greeting followed by more words is no greeting, and "hur mår du" is only recognised at the start. */
  lemma HejHurMarDuGetsNoAnswer(choice: nat)
    requires choice < 3
    ensures GetQuickResponse(HejHurMarDu, choice) == None
  {
    CleanHejHurMarDu();
    HejHurMarDuIsNoGreeting();
    HejHurMarDuIsNoQuestion();
  }
}
