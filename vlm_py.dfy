/**
 * vlm.py: the Python client of the vision-language model. Modelled are the
 * clean-up of the model's answers (digits, rarity, fences), the merge of
 * custom prompts over the defaults, the fallbacks for empty answers, the
 * choice between the stub and a real answer, and the range of the stub's
 * numbers. The HTTP calls and the image re-encoding are not.
 */
module VlmPy {
  import opened Wrappers
  import opened Strings
  import Vlm

  /** The five rarities `_clean_rarity` can answer, in the order it tries them. */
  const RarityOrder: seq<string> := ["SSR", "UR", "SR", "R", "N"]

  predicate IsRarity(r: string) {
    r == "SSR" || r == "UR" || r == "SR" || r == "R" || r == "N"
  }

  /** Candidate `i` occurs in `text` and no earlier candidate does. */
  predicate FirstOccurring(text: string, candidates: seq<string>, i: int) {
    0 <= i < |candidates| && Contains(text, candidates[i])
    && forall j :: 0 <= j < i ==> !Contains(text, candidates[j])
  }

  /** The first candidate occurring in `text`, or "N" when none does. */
  function FirstFound(text: string, candidates: seq<string>): (r: string)
    requires forall i :: 0 <= i < |candidates| ==> IsRarity(candidates[i])
    ensures IsRarity(r)
    ensures (exists i :: FirstOccurring(text, candidates, i) && r == candidates[i])
      || (r == "N" && forall i :: 0 <= i < |candidates| ==> !Contains(text, candidates[i]))
    decreases |candidates|
  {
    if candidates == [] then "N"
    else if Contains(text, candidates[0]) then
      assert FirstOccurring(text, candidates, 0);
      candidates[0]
    else
      FirstOccurringShift(text, candidates);
      FirstFound(text, candidates[1..])
  }

  /** Past a candidate that does not occur, the first occurring one moves up by one index. */
  lemma FirstOccurringShift(text: string, candidates: seq<string>)
    requires |candidates| > 0 && !Contains(text, candidates[0])
    ensures forall i :: FirstOccurring(text, candidates[1..], i) ==> FirstOccurring(text, candidates, i + 1)
  {
    forall i | FirstOccurring(text, candidates[1..], i)
      ensures FirstOccurring(text, candidates, i + 1)
    {
      assert forall j :: 1 <= j < i + 1 ==> candidates[j] == candidates[1..][j - 1];
    }
  }

  /** `_clean_rarity`: uppercase, strip, then the first of SSR, UR, SR, R found in the text, and N otherwise. */
  function CleanRarity(text: string): (r: string)
    ensures IsRarity(r)
    ensures var u := Trim(Upper(text), Python);
      && (r == "SSR" <==> Contains(u, "SSR"))
      && (r == "UR" <==> !Contains(u, "SSR") && Contains(u, "UR"))
      && (r == "SR" <==> !Contains(u, "SSR") && !Contains(u, "UR") && Contains(u, "SR"))
      && (r == "R" <==> !Contains(u, "SSR") && !Contains(u, "UR") && !Contains(u, "SR") && Contains(u, "R"))
      && (r == "N" <==> !Contains(u, "SSR") && !Contains(u, "UR") && !Contains(u, "SR") && !Contains(u, "R"))
  {
    FirstFound(Trim(Upper(text), Python), RarityOrder)
  }

  /** Lower-case input is accepted, and "ssr" is SSR, not the SR it also contains. */
  lemma CleanRarityLowerSsr(text: string)
    requires text == "ssr"
    ensures CleanRarity(text) == "SSR"
  {
    var u := Upper(text);
    assert u[0] == 'S' && u[1] == 'S' && u[2] == 'R';
    TrimUnpadded(u, Python);
    assert StartsWith(u, "SSR");
  }

  /** SSR anywhere in the cleaned text wins, whatever else it names. */
  lemma CleanRaritySsrWins(text: string)
    requires Contains(Trim(Upper(text), Python), "SSR")
    ensures CleanRarity(text) == "SSR"
  {
  }

  /** A text naming two rarities gets the one tried first: SSR before UR. */
  lemma CleanRaritySsrBeforeUr(text: string)
    requires text == "SSR or UR"
    ensures CleanRarity(text) == "SSR"
  {
    var u := Upper(text);
    assert u[0] == 'S' && u[1] == 'S' && u[2] == 'R' && u[8] == 'R';
    TrimUnpadded(u, Python);
    assert StartsWith(u, "SSR");
    CleanRaritySsrWins(text);
  }

  /** A candidate other than N that occurs, with no N before it, keeps the answer off N. */
  lemma {:induction false} FirstFoundHits(text: string, candidates: seq<string>, i: nat)
    requires forall j :: 0 <= j < |candidates| ==> IsRarity(candidates[j])
    requires i < |candidates| && Contains(text, candidates[i]) && candidates[i] != "N"
    requires forall j :: 0 <= j < i ==> candidates[j] != "N"
    ensures FirstFound(text, candidates) != "N"
    decreases i
  {
    if i > 0 && !Contains(text, candidates[0]) {
      FirstFoundHits(text, candidates[1..], i - 1);
    }
  }

  /** Every rarity but N ends in R. */
  lemma RarityContainsR(r: string)
    requires IsRarity(r) && r != "N"
    ensures Contains(r, "R")
  {
    assert r[|r| - 1..] == "R";
    ContainsAt(r, "R", |r| - 1);
  }

  /** A rarity other than N is only answered for a text with an R in it. */
  lemma CleanRarityHasR(text: string)
    requires CleanRarity(text) != "N"
    ensures Contains(Trim(Upper(text), Python), "R")
  {
    var r := CleanRarity(text);
    RarityContainsR(r);
    ContainsTransitive(Trim(Upper(text), Python), r, "R");
  }

  /** A text with an R in it is never answered N. */
  lemma CleanRarityRIsNotN(text: string)
    requires Contains(Trim(Upper(text), Python), "R")
    ensures CleanRarity(text) != "N"
  {
    var cleaned := Trim(Upper(text), Python);
    assert RarityOrder[3] == "R";
    assert forall j :: 0 <= j < 3 ==> RarityOrder[j] != "N";
    FirstFoundHits(cleaned, RarityOrder, 3);
  }

  /** The answer is N exactly when the cleaned text has no "R" at all. */
  lemma CleanRarityNIffNoR(text: string)
    ensures CleanRarity(text) == "N" <==> !Contains(Trim(Upper(text), Python), "R")
  {
    if CleanRarity(text) != "N" {
      CleanRarityHasR(text);
    }
    if Contains(Trim(Upper(text), Python), "R") {
      CleanRarityRIsNotN(text);
    }
  }

  /** The digit characters of `s`, in order. */
  function Digits(s: string): (d: string)
    ensures AllDigits(d) && |d| <= |s|
  {
    if s == [] then [] else (if IsDigit(s[0]) then [s[0]] else []) + Digits(s[1..])
  }

  /** Filtering distributes over concatenation, so exactly the digits survive, in order. */
  lemma {:induction false} DigitsAppend(a: string, b: string)
    ensures Digits(a + b) == Digits(a) + Digits(b)
  {
    if a != [] {
      var head := if IsDigit(a[0]) then [a[0]] else [];
      assert (a + b)[0] == a[0];
      assert (a + b)[1..] == a[1..] + b;
      assert Digits(a + b) == head + Digits(a[1..] + b);
      DigitsAppend(a[1..], b);
      assert Digits(a) == head + Digits(a[1..]);
    } else {
      assert a + b == b;
    }
  }

  /** A string of digits filters to itself. */
  lemma {:induction false} DigitsOfDigits(s: string)
    requires AllDigits(s)
    ensures Digits(s) == s
  {
    if s != [] {
      DigitsOfDigits(s[1..]);
    }
  }

  /** `_clean_number`: the digits of the text, or "0" when it has none. */
  function CleanNumber(text: string): (r: string)
    ensures |r| > 0 && AllDigits(r)
    ensures Digits(text) != [] ==> r == Digits(text)
    ensures Digits(text) == [] ==> r == "0"
  {
    var digits := Digits(text);
    if digits != [] then digits else "0"
  }

  /** Cleaning a cleaned number changes nothing. */
  lemma CleanNumberIdempotent(text: string)
    ensures CleanNumber(CleanNumber(text)) == CleanNumber(text)
  {
    DigitsOfDigits(CleanNumber(text));
  }

  /** A number with digit-free text on either side cleans to the number itself. */
  lemma CleanNumberDropsNoise(prefix: string, n: nat, suffix: string)
    requires Digits(prefix) == [] && Digits(suffix) == []
    ensures CleanNumber(prefix + Decimal(n) + suffix) == Decimal(n)
  {
    DigitsAppend(prefix, Decimal(n));
    DigitsAppend(prefix + Decimal(n), suffix);
    DigitsOfDigits(Decimal(n));
  }

  /** Python `if value and value.strip()`: present and not only whitespace. */
  predicate NonBlank(v: string) {
    v != "" && Trim(v, Python) != ""
  }

  /**
   * The prompt merge in `analyze_image`: a copy of the defaults, overwritten
   * (or extended) by every non-blank custom prompt.
   */
  method MergePrompts(defaults: map<string, string>, custom: map<string, string>) returns (prompts: map<string, string>)
    ensures forall k :: k in prompts <==> k in defaults || (k in custom && NonBlank(custom[k]))
    ensures forall k :: k in custom && NonBlank(custom[k]) ==> prompts[k] == custom[k]
    ensures forall k :: k in defaults && !(k in custom && NonBlank(custom[k])) ==> prompts[k] == defaults[k]
  {
    prompts := defaults;
    var todo := custom.Keys;
    while todo != {}
      invariant todo <= custom.Keys
      invariant forall k :: k in prompts <==> k in defaults || (k in custom && k !in todo && NonBlank(custom[k]))
      invariant forall k :: k in custom && k !in todo && NonBlank(custom[k]) ==> prompts[k] == custom[k]
      invariant forall k :: k in defaults && !(k in custom && k !in todo && NonBlank(custom[k])) ==> prompts[k] == defaults[k]
      decreases todo
    {
      var key :| key in todo;
      var value := custom[key];
      if value != "" && Trim(value, Python) != "" {
        prompts := prompts[key := value];
      }
      todo := todo - {key};
    }
  }

  /** `if not x: x = default`. */
  function Fallback(answer: string, default: string): (r: string)
    ensures answer != "" ==> r == answer
    ensures answer == "" ==> r == default
  {
    if answer == "" then default else answer
  }

  /** The five answers after their fallbacks and clean-up: the dict `analyze_image` returns. */
  function AssembleCard(answers: Vlm.CardData): (card: Vlm.CardData)
    ensures IsRarity(card.rarity)
    ensures |card.atk| > 0 && AllDigits(card.atk) && |card.def| > 0 && AllDigits(card.def)
    ensures card.name == [] || (!IsSpace(card.name[0], Python) && !IsSpace(card.name[|card.name| - 1], Python))
    ensures card.description == [] || (!IsSpace(card.description[0], Python) && !IsSpace(card.description[|card.description| - 1], Python))
  {
    Vlm.CardData(
      CleanRarity(Fallback(answers.rarity, "N")),
      Trim(Fallback(answers.name, "Unknown Entity"), Python),
      Trim(Fallback(answers.description, "No effect."), Python),
      CleanNumber(Fallback(answers.atk, "0")),
      CleanNumber(Fallback(answers.def, "0")))
  }

  lemma CleanRarityOfN()
    ensures CleanRarity("N") == "N"
  {
    var u := Upper("N");
    assert u[0] == 'N';
    assert u == "N";
    TrimUnpadded(u, Python);
  }

  lemma CleanNumberOfZero()
    ensures CleanNumber("0") == "0"
  {
    assert Digits("0") == "0";
  }

  /** A default with no surrounding whitespace survives the strip after the fallback. */
  lemma StrippedDefault(answer: string, default: string)
    requires answer == [] && default != []
    requires !IsSpace(default[0], Python) && !IsSpace(default[|default| - 1], Python)
    ensures Trim(Fallback(answer, default), Python) == default
  {
    TrimUnpadded(default, Python);
  }

  /** An empty rarity answer becomes N. */
  lemma EmptyRarityIsN(answers: Vlm.CardData)
    requires answers.rarity == ""
    ensures AssembleCard(answers).rarity == "N"
  {
    CleanRarityOfN();
  }

  /** An empty name answer becomes "Unknown Entity". */
  lemma EmptyNameIsUnknown(answers: Vlm.CardData)
    requires answers.name == ""
    ensures AssembleCard(answers).name == "Unknown Entity"
  {
    StrippedDefault(answers.name, "Unknown Entity");
  }

  /** An empty description answer becomes "No effect.". */
  lemma EmptyDescriptionIsNoEffect(answers: Vlm.CardData)
    requires answers.description == ""
    ensures AssembleCard(answers).description == "No effect."
  {
    StrippedDefault(answers.description, "No effect.");
  }

  /** Empty attack and defence answers become "0". */
  lemma EmptyStatsAreZero(answers: Vlm.CardData)
    ensures answers.atk == "" ==> AssembleCard(answers).atk == "0"
    ensures answers.def == "" ==> AssembleCard(answers).def == "0"
  {
    CleanNumberOfZero();
  }

  /**
   * The fallback only looks for the empty string: a name of spaces escapes
   * it and is stripped to nothing.
   */
  lemma BlankNameBecomesEmpty(answers: Vlm.CardData)
    requires answers.name == "   "
    ensures AssembleCard(answers).name == ""
  {
  }

  /** How `analyze_image` answered: the stub's random card, or the assembled answers. */
  datatype Analysis = Stub | Answered(card: Vlm.CardData)

  /**
   * `analyze_image`. `answers` is None when one of the five model calls raised.
   * The single-call path always ends in the stub: its `json.loads` names a
   * module that is never imported, and the resulting error is caught.
   */
  function AnalyzeImage(useStub: bool, singleCallMode: bool, answers: Option<Vlm.CardData>): (a: Analysis)
    ensures a.Answered? <==> !useStub && !singleCallMode && answers.Some?
    ensures a.Answered? ==> a.card == AssembleCard(answers.value)
  {
    if useStub then Stub
    else if singleCallMode then Stub
    else match answers
      case None => Stub
      case Some(raw) => Answered(AssembleCard(raw))
  }

  /** `str(random.randint(0, 500) * 10)` for the drawn k. */
  function StubStat(k: nat): (s: string)
    requires k <= 500
    ensures AllDigits(s) && |s| > 0
    ensures DecimalValue(s) % 10 == 0 && DecimalValue(s) <= 5000
  {
    DecimalRoundTrip(k * 10);
    Decimal(k * 10)
  }

  /** With no NEL character the Python and Kotlin whitespace rules agree. */
  predicate NoNel(s: string) {
    '\U{85}' !in s
  }

  lemma {:induction false} TrimStartAgrees(s: string)
    requires NoNel(s)
    ensures TrimStart(s, Python) == TrimStart(s, Kotlin)
  {
    if s != [] && IsSpace(s[0], Python) {
      TrimStartAgrees(s[1..]);
    }
  }

  lemma {:induction false} TrimEndAgrees(s: string)
    requires NoNel(s)
    ensures TrimEnd(s, Python) == TrimEnd(s, Kotlin)
  {
    if s != [] && IsSpace(s[|s| - 1], Python) {
      TrimEndAgrees(s[..|s| - 1]);
    }
  }

  lemma TrimAgrees(s: string)
    requires NoNel(s)
    ensures Trim(s, Python) == Trim(s, Kotlin)
  {
    TrimStartAgrees(s);
    TrimEndAgrees(TrimStart(s, Python));
  }

  /**
   * The fence clean-up of `_analyze_single_call` is the Android one: on a
   * reply without NEL characters both give the same text.
   */
  lemma FencesAgreeWithKotlin(reply: string)
    requires NoNel(reply)
    ensures Vlm.StripFences(reply, Python) == Vlm.StripFences(reply, Kotlin)
  {
    TrimAgrees(reply);
    var d := Vlm.Unfence(Trim(reply, Python));
    TrimAgrees(d);
  }
}
