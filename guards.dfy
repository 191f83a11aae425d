/** The guard layer of the reading pipeline (`guardrails.py`): the checks on
    questions, retrieved context and generated readings, and the
    `TarotGuardrails` object that counts requests and blocks. */
module Guards {
  import opened Text
  import Deck

  // ---------------------------------------------------------------------
  // Results
  // ---------------------------------------------------------------------

  /** A value stored in a result's metadata dictionary. */
  datatype MetaValue = MetaInt(i: int) | MetaReal(r: real) | MetaText(s: string)

  /** `GuardrailResult`: `reason` defaults to None, `confidence` to 1.0 and
      `metadata` to None. */
  datatype GuardrailResult = GuardrailResult(
    isSafe: bool,
    reason: Option<string>,
    confidence: real,
    metadata: Option<map<string, MetaValue>>)

  function Pass(): GuardrailResult
  {
    GuardrailResult(true, None, 1.0, None)
  }

  function Block(reason: string): GuardrailResult
  {
    GuardrailResult(false, Some(reason), 1.0, None)
  }

  // ---------------------------------------------------------------------
  // Limits and word lists
  // ---------------------------------------------------------------------

  const MaxQuestionLength: nat := 500
  const MaxResponseLength: nat := 5000
  const MinResponseLength: nat := 50
  const MinStructuredLength: nat := 100
  const MaxParagraphFreeLength: nat := 200
  const MinConfidenceThreshold: real := 0.7

  /** Forbidden words, in the order they are tried. */
  const ForbiddenWords: seq<string> := [
    "самогубство", "suicide", "kill", "вбивство", "смерть людини",
    "наркотики", "drugs", "gambling", "азартні ігри",
    "терроризм", "terrorism", "насилля", "violence"
  ]

  const MedicalKeywords: seq<string> := ["хвороба", "лікування", "діагноз", "symptom", "cancer", "рак"]
  const LegalKeywords: seq<string> := ["суд", "закон", "legal", "lawsuit", "судова справа"]
  const FinancialKeywords: seq<string> := ["інвестиції", "біткоїн", "акції", "investment", "stock"]

  // ---------------------------------------------------------------------
  // Reasons
  // ---------------------------------------------------------------------

  const EmptyReason: string := "Порожній запит"
  const TooLongReason: string := "Питання завелике (>500 символів)"
  const SpamReason: string := "Виявлено спам або некоректний текст"
  const MaliciousReason: string := "Виявлено підозрілий контент"
  const MedicalReason: string := "Таро не може надавати медичні поради. Зверніться до лікаря."
  const LegalReason: string := "Таро не може надавати юридичні поради. Зверніться до адвоката."
  const NoDocumentsReason: string := "Не знайдено релевантних документів"
  const ResponseTooLongReason: string := "Відповідь завелика (>5000 символів)"
  const ResponseTooShortReason: string := "Відповідь занадто коротка"
  const BadStructureReason: string := "Відповідь має некоректну структуру"

  function ForbiddenReason(word: string): string
  {
    "Виявлено заборонене слово: " + word
  }

  function ResponseForbiddenReason(word: string): string
  {
    "Відповідь містить заборонене слово: " + word
  }

  /** The integer nearest to `y`; an exact tie goes to the even neighbour,
      as Python's float formatting rounds. */
  function RoundHalfEven(y: real): (n: int)
    ensures -0.5 <= y - n as real <= 0.5
    ensures y - n as real == 0.5 || n as real - y == 0.5 ==> n % 2 == 0
  {
    var f := y.Floor;
    var d := y - f as real;
    if d < 0.5 then f
    else if d > 0.5 then f + 1
    else if f % 2 == 0 then f
    else f + 1
  }

  /** The number of hundredths a `d.dd` text denotes. */
  function FixedValue(s: string): int
    requires |s| == 4
  {
    100 * (s[0] as int - '0' as int) + 10 * (s[2] as int - '0' as int) + (s[3] as int - '0' as int)
  }

  /** Python's `f"{x:.2f}"` for a ratio in [0, 1]: reading the text back
      gives the hundredths nearest to `x`, an exact tie going to the even one. */
  function Fixed2(x: real): (s: string)
    requires 0.0 <= x <= 1.0
    ensures |s| == 4 && s[1] == '.'
    ensures forall i :: 0 <= i < |s| && i != 1 ==> IsDigit(s[i])
    ensures FixedValue(s) == RoundHalfEven(x * 100.0)
  {
    var h := RoundHalfEven(x * 100.0);
    assert 0 <= h <= 100;
    if h == 100 then "1.00" else ['0', '.', DigitChar(h / 10), DigitChar(h % 10)]
  }

  /** Ties a double holds exactly go to the even digit: 0.625 prints as
      0.62 and 0.125 as 0.12, while 0.375 goes up to 0.38. */
  lemma Fixed2Ties()
    ensures Fixed2(0.625) == "0.62" && Fixed2(0.125) == "0.12"
    ensures Fixed2(0.375) == "0.38" && Fixed2(0.7) == "0.70"
  {
    assert RoundHalfEven(62.5) == 62;
    assert RoundHalfEven(12.5) == 12;
    assert RoundHalfEven(37.5) == 38;
    assert RoundHalfEven(70.0) == 70;
  }

  // ---------------------------------------------------------------------
  // Spam (`_is_spam`)
  // ---------------------------------------------------------------------

  /** `re.search(r'(.)\1{5,}', text)`: six equal consecutive characters
      other than a newline, which `.` does not match. */
  predicate HasRepeatedRun(t: string)
  {
    exists i :: 0 <= i && i + 6 <= |t| && RunAt(t, i)
  }

  /** Six copies of the character at `i`, starting there. */
  predicate RunAt(t: string, i: nat)
    requires i + 6 <= |t|
  {
    t[i] != '\n' && t[i + 1] == t[i] && t[i + 2] == t[i] && t[i + 3] == t[i]
    && t[i + 4] == t[i] && t[i + 5] == t[i]
  }

  /** More than 70% upper-case characters in a text longer than 10. */
  predicate MostlyUpper(t: string)
  {
    |t| > 10 && 10 * CountChars(t, IsUpper) > 7 * |t|
  }

  /** More than 50% digits in a text longer than 20. */
  predicate MostlyDigits(t: string)
  {
    |t| > 20 && 2 * CountChars(t, IsDigit) > |t|
  }

  predicate IsSpam(t: string)
  {
    HasRepeatedRun(t) || MostlyUpper(t) || MostlyDigits(t)
  }

  // ---------------------------------------------------------------------
  // Injection patterns (`_has_malicious_content`), on the lowered text
  // ---------------------------------------------------------------------

  predicate MatchAt(t: string, a: nat, p: string)
  {
    a + |p| <= |t| && t[a..a + |p|] == p
  }

  /** `<script[^>]*>.*?</script>`: an opening tag, its first `>`, and a
      closing tag later on the same line as that `>`. */
  predicate ScriptTag(t: string)
  {
    exists i, j, k :: 0 <= i < j < k < |t| && MatchAt(t, i, "<script") && i + 7 <= j
      && t[j] == '>' && '>' !in t[i + 7..j]
      && MatchAt(t, k, "</script>") && '\n' !in t[j + 1..k]
  }

  /** `SELECT.*FROM.*WHERE`: the three keywords in order on one line. */
  predicate SelectFromWhere(t: string)
  {
    exists a, b, c :: 0 <= a < b < c < |t| && a + 6 <= b && b + 4 <= c
      && MatchAt(t, a, "select") && MatchAt(t, b, "from") && MatchAt(t, c, "where")
      && '\n' !in t[a..c]
  }

  /** `<first>\s+<second>`: two keywords separated by white space only. */
  predicate SpacedPair(t: string, first: string, second: string)
  {
    exists a, b :: 0 <= a < b < |t| && a + |first| < b
      && MatchAt(t, a, first) && MatchAt(t, b, second)
      && forall k :: a + |first| <= k < b ==> IsSpace(t[k])
  }

  /** The five patterns, matched ignoring case. */
  predicate HasMaliciousContent(text: string)
  {
    var t := Lower(text);
    ScriptTag(t) || Contains(t, "javascript:") || SelectFromWhere(t)
    || SpacedPair(t, "drop", "table") || SpacedPair(t, "union", "select")
  }

  // ---------------------------------------------------------------------
  // Input screening (`input_validation`)
  // ---------------------------------------------------------------------

  /** The verdict `input_validation` reaches: the first failing check, in
      the order empty, length, forbidden word, spam, injection. */
  function InputVerdict(question: string): GuardrailResult
  {
    if IsBlank(question) then Block(EmptyReason)
    else if |question| > MaxQuestionLength then Block(TooLongReason)
    else match FirstContained(ForbiddenWords, Lower(question))
      case Some(word) => Block(ForbiddenReason(word))
      case None =>
        if IsSpam(question) then Block(SpamReason)
        else if HasMaliciousContent(question) then Block(MaliciousReason)
        else Pass()
  }

  /** A question passes exactly when every check passes; a blocked question
      always carries a reason, and every verdict has confidence 1.0. */
  lemma InputVerdictSafeIff(question: string)
    ensures var r := InputVerdict(question);
            r.confidence == 1.0 && r.metadata == None
            && (r.isSafe <==> r.reason == None)
            && (r.isSafe <==>
                  !IsBlank(question) && |question| <= MaxQuestionLength
                  && (forall i :: 0 <= i < |ForbiddenWords| ==> !Contains(Lower(question), ForbiddenWords[i]))
                  && !IsSpam(question) && !HasMaliciousContent(question))
  {
    FirstContainedIsFirst(ForbiddenWords, Lower(question));
  }

  /** A forbidden-word block names the first listed word that occurs in the
      lowered question; that only happens to non-blank questions within
      the length limit. */
  lemma ForbiddenBlockNamesFirstWord(question: string, word: string)
    requires InputVerdict(question) == Block(ForbiddenReason(word))
    ensures !IsBlank(question) && |question| <= MaxQuestionLength
    ensures exists i :: 0 <= i < |ForbiddenWords| && ForbiddenWords[i] == word
                        && Contains(Lower(question), word)
                        && forall j :: 0 <= j < i ==> !Contains(Lower(question), ForbiddenWords[j])
  {
    var lowered := Lower(question);
    FirstContainedIsFirst(ForbiddenWords, lowered);
    ForbiddenReasonIsDistinct(word);
    var w := FirstContained(ForbiddenWords, lowered).value;
    ForbiddenReasonInjective(w, word);
  }

  /** No other input reason reads like a forbidden-word reason. */
  lemma ForbiddenReasonIsDistinct(word: string)
    ensures EmptyReason != ForbiddenReason(word) && TooLongReason != ForbiddenReason(word)
    ensures SpamReason != ForbiddenReason(word) && MaliciousReason != ForbiddenReason(word)
  {
    assert |EmptyReason| < |ForbiddenReason(word)|;
    assert TooLongReason[0] != ForbiddenReason(word)[0];
    assert SpamReason[9] != ForbiddenReason(word)[9];
    assert MaliciousReason[9] != ForbiddenReason(word)[9];
  }

  /** The forbidden-word reason names its word. */
  lemma ForbiddenReasonInjective(w: string, word: string)
    ensures ForbiddenReason(w) == ForbiddenReason(word) ==> w == word
  {
    assert w == ForbiddenReason(w)[|ForbiddenReason("")|..];
    assert word == ForbiddenReason(word)[|ForbiddenReason("")|..];
  }

  /** The length check is inclusive: 500 characters pass it, 501 do not. */
  lemma LengthBoundary(question: string)
    requires !IsBlank(question)
    ensures |question| == 501 ==> InputVerdict(question) == Block(TooLongReason)
    ensures |question| == 500 ==> InputVerdict(question) != Block(TooLongReason)
  {
    if |question| == 500 {
      var r := InputVerdict(question);
      match FirstContained(ForbiddenWords, Lower(question))
      case Some(word) =>
        assert r == Block(ForbiddenReason(word));
        assert TooLongReason[0] != ForbiddenReason(word)[0];
      case None =>
        assert TooLongReason != SpamReason by { assert TooLongReason[0] != SpamReason[0]; }
        assert TooLongReason != MaliciousReason by { assert TooLongReason[0] != MaliciousReason[0]; }
    }
  }

  // ---------------------------------------------------------------------
  // Content policy (`content_appropriateness`)
  // ---------------------------------------------------------------------

  /** Medical topics block before legal ones; financial topics are only
      logged, so they never change the verdict. */
  function ContentVerdict(question: string): GuardrailResult
  {
    var lowered := Lower(question);
    if FirstContained(MedicalKeywords, lowered).Some? then Block(MedicalReason)
    else if FirstContained(LegalKeywords, lowered).Some? then Block(LegalReason)
    else Pass()
  }

  lemma ContentVerdictIff(question: string)
    ensures var lowered := Lower(question);
            var r := ContentVerdict(question);
            (r == Block(MedicalReason) <==> exists i :: 0 <= i < |MedicalKeywords| && Contains(lowered, MedicalKeywords[i]))
            && (r == Block(LegalReason) <==>
                  (forall i :: 0 <= i < |MedicalKeywords| ==> !Contains(lowered, MedicalKeywords[i]))
                  && exists i :: 0 <= i < |LegalKeywords| && Contains(lowered, LegalKeywords[i]))
            && (r.isSafe <==> r == Pass())
            && (r.isSafe <==>
                  (forall i :: 0 <= i < |MedicalKeywords| ==> !Contains(lowered, MedicalKeywords[i]))
                  && (forall i :: 0 <= i < |LegalKeywords| ==> !Contains(lowered, LegalKeywords[i])))
  {
    var lowered := Lower(question);
    FirstContainedIsFirst(MedicalKeywords, lowered);
    FirstContainedIsFirst(LegalKeywords, lowered);
    assert MedicalReason != LegalReason by { assert MedicalReason[27] != LegalReason[27]; }
  }

  // ---------------------------------------------------------------------
  // Output screening (`output_validation`)
  // ---------------------------------------------------------------------

  /** How many drawn cards (by their `name`, "" when absent) are named in
      the response; each entry of `drawn` is counted separately. */
  function MentionedCount(response: string, drawn: seq<string>): (n: nat)
    ensures n <= |drawn|
  {
    if drawn == [] then 0
    else (if drawn[0] != "" && Contains(response, drawn[0]) then 1 else 0)
         + MentionedCount(response, drawn[1..])
  }

  /** `_has_valid_structure`. */
  predicate HasValidStructure(response: string, drawn: seq<string>)
  {
    MentionedCount(response, drawn) >= |drawn| / 2
    && |response| >= MinStructuredLength
    && ('\n' in response || |response| <= MaxParagraphFreeLength)
  }

  /** Major arcana named in the response that were not drawn. */
  function StrayMajors(majors: seq<string>, response: string, drawn: seq<string>): (k: nat)
    ensures k <= |majors|
  {
    if majors == [] then 0
    else (if Contains(response, majors[0]) && majors[0] !in drawn then 1 else 0)
         + StrayMajors(majors[1..], response, drawn)
  }

  function Min(a: int, b: int): int
  {
    if a <= b then a else b
  }

  /** `_detect_hallucinations`, in hundredths: 10 when some drawn card is
      not named, plus 15 per undrawn major arcana named, capped at 100. */
  function HallucinationScore(response: string, drawn: seq<string>): (h: nat)
    ensures h <= 100
  {
    var missing := if MentionedCount(response, drawn) < |drawn| then 10 else 0;
    Min(missing + 15 * StrayMajors(Deck.MajorArcana, response, drawn), 100)
  }

  /** The score is flagged only above 0.30. */
  predicate Hallucinating(response: string, drawn: seq<string>)
  {
    HallucinationScore(response, drawn) > 30
  }

  /** `output_validation(response, cards)`, with `drawn` the cards' names. */
  function OutputVerdict(response: string, drawn: seq<string>): GuardrailResult
  {
    if |response| > MaxResponseLength then Block(ResponseTooLongReason)
    else if |response| < MinResponseLength then Block(ResponseTooShortReason)
    else match FirstContained(ForbiddenWords, Lower(response))
      case Some(word) => Block(ResponseForbiddenReason(word))
      case None =>
        if !HasValidStructure(response, drawn) then Block(BadStructureReason)
        else if Hallucinating(response, drawn) then
          var h := HallucinationScore(response, drawn);
          GuardrailResult(false, Some("Виявлено можливі галюцинації: " + Fixed2(h as real / 100.0)),
                          1.0 - h as real / 100.0, None)
        else GuardrailResult(true, None, 1.0, Some(map["response_length" := MetaInt(|response|)]))
  }

  /** A reading passes exactly when it is 50 to 5000 characters long, names
      no forbidden word, is well structured and scores at most 0.30; a
      passing reading reports its length, and a failing one's confidence
      is 1 - score when it failed on the score and 1.0 otherwise. */
  lemma OutputVerdictSafeIff(response: string, drawn: seq<string>)
    ensures var r := OutputVerdict(response, drawn);
            (r.isSafe <==>
               MinResponseLength <= |response| <= MaxResponseLength
               && (forall i :: 0 <= i < |ForbiddenWords| ==> !Contains(Lower(response), ForbiddenWords[i]))
               && HasValidStructure(response, drawn) && !Hallucinating(response, drawn))
            && (r.isSafe ==> r.metadata == Some(map["response_length" := MetaInt(|response|)]))
            && (!r.isSafe ==> r.reason.Some? && r.metadata == None)
            && (r.isSafe ==> r.confidence == 1.0)
            && (!r.isSafe ==>
                  r.confidence
                  == if MinResponseLength <= |response| <= MaxResponseLength
                        && (forall i :: 0 <= i < |ForbiddenWords| ==> !Contains(Lower(response), ForbiddenWords[i]))
                        && HasValidStructure(response, drawn)
                     then 1.0 - HallucinationScore(response, drawn) as real / 100.0
                     else 1.0)
            && 0.0 <= r.confidence <= 1.0
  {
    FirstContainedIsFirst(ForbiddenWords, Lower(response));
  }

  /** The boundary case: two undrawn majors named, with every drawn card
      named, scores exactly 0.30 and is not flagged; a third one is. */
  lemma HallucinationThreshold(response: string, drawn: seq<string>)
    requires MentionedCount(response, drawn) == |drawn|
    ensures StrayMajors(Deck.MajorArcana, response, drawn) == 2 ==> !Hallucinating(response, drawn)
    ensures StrayMajors(Deck.MajorArcana, response, drawn) >= 3 ==> Hallucinating(response, drawn)
    ensures StrayMajors(Deck.MajorArcana, response, drawn) <= 2 <==> !Hallucinating(response, drawn)
  {
  }

  /** Naming every drawn card and no other major keeps the score at 0. */
  lemma {:induction false} NoStrayWhenOnlyDrawnNamed(majors: seq<string>, response: string, drawn: seq<string>)
    requires forall i :: 0 <= i < |majors| && Contains(response, majors[i]) ==> majors[i] in drawn
    ensures StrayMajors(majors, response, drawn) == 0
  {
    if majors != [] {
      forall i | 0 <= i < |majors[1..]| && Contains(response, majors[1..][i])
        ensures majors[1..][i] in drawn
      {
        assert majors[1..][i] == majors[i + 1];
      }
      NoStrayWhenOnlyDrawnNamed(majors[1..], response, drawn);
    }
  }

  // ---------------------------------------------------------------------
  // Context quality (`context_quality_check`, `_calculate_relevance`)
  // ---------------------------------------------------------------------

  /** Share of the question's distinct words that occur in one document. */
  function DocRelevance(questionWords: set<string>, doc: string): (r: real)
    ensures 0.0 <= r <= 1.0
  {
    if |questionWords| == 0 then 0.0
    else
      var common := questionWords * ToSet(Words(Lower(doc)));
      SubsetNoLarger(common, questionWords);
      Ratio(|common|, |questionWords|)
  }

  function TotalRelevance(questionWords: set<string>, docs: seq<string>): (t: real)
    ensures 0.0 <= t <= |docs| as real
  {
    if docs == [] then 0.0
    else DocRelevance(questionWords, docs[0]) + TotalRelevance(questionWords, docs[1..])
  }

  /** `_calculate_relevance`: the mean relevance over the documents, capped
      at 1.0; 0.0 for no documents. */
  function Relevance(docs: seq<string>, question: string): (r: real)
    ensures 0.0 <= r <= 1.0
    ensures docs == [] ==> r == 0.0
  {
    if docs == [] then 0.0
    else
      var questionWords := ToSet(Words(Lower(question)));
      var mean := Mean(TotalRelevance(questionWords, docs), |docs|);
      if mean <= 1.0 then mean else 1.0
  }

  /** `total / count` for a total of `count` shares in [0, 1]. */
  function Mean(total: real, count: nat): (m: real)
    requires count > 0 && 0.0 <= total <= count as real
    ensures 0.0 <= m <= 1.0
    ensures m * count as real == total
  {
    total / count as real
  }

  /** `context_quality_check(retrieved_docs, question)`, each document
      given by its text. */
  function ContextVerdict(docs: seq<string>, question: string): GuardrailResult
  {
    if docs == [] then Block(NoDocumentsReason)
    else
      var score := Relevance(docs, question);
      if score < MinConfidenceThreshold then
        GuardrailResult(false, Some("Низька релевантність контексту: " + Fixed2(score)), score, None)
      else
        GuardrailResult(true, None, score,
                        Some(map["relevance_score" := MetaReal(score), "docs_count" := MetaInt(|docs|)]))
  }

  /** Context passes exactly when there is a document and the relevance is
      at least 0.7; the confidence is the relevance whenever there are
      documents. */
  lemma ContextVerdictSafeIff(docs: seq<string>, question: string)
    ensures var r := ContextVerdict(docs, question);
            (r.isSafe <==> docs != [] && Relevance(docs, question) >= MinConfidenceThreshold)
            && (docs != [] ==> r.confidence == Relevance(docs, question))
            && (docs == [] ==> r == Block(NoDocumentsReason))
            && (!r.isSafe ==> r.confidence < MinConfidenceThreshold || docs == [])
  {
  }

  /** A question without words relates to no document. */
  lemma {:induction false} WordlessQuestionIrrelevant(docs: seq<string>, question: string)
    requires Words(Lower(question)) == []
    ensures Relevance(docs, question) == 0.0
  {
    if docs != [] {
      assert ToSet(Words(Lower(question))) == {};
      ZeroTotalRelevance({}, docs);
    }
  }

  lemma {:induction false} ZeroTotalRelevance(questionWords: set<string>, docs: seq<string>)
    requires |questionWords| == 0
    ensures TotalRelevance(questionWords, docs) == 0.0
  {
    if docs != [] {
      ZeroTotalRelevance(questionWords, docs[1..]);
    }
  }

  // ---------------------------------------------------------------------
  // Rate limiting
  // ---------------------------------------------------------------------

  /** `rate_limiting(user_id)`: the per-minute window is not implemented, so
      every request passes and reports its user. */
  function RateVerdict(userId: string): (r: GuardrailResult)
    ensures r.isSafe && r.reason == None
  {
    GuardrailResult(true, None, 1.0, Some(map["user_id" := MetaText(userId)]))
  }

  // ---------------------------------------------------------------------
  // Statistics
  // ---------------------------------------------------------------------

  /** Some key of a non-empty map. */
  ghost function AnyKey(m: map<string, nat>): string
    requires m != map[]
  {
    var k :| k in m; k
  }

  /** Sum of the counts in a reason -> count map. */
  ghost function SumCounts(m: map<string, nat>): nat
    decreases |m|
  {
    if m == map[] then 0
    else
      var k := AnyKey(m);
      assert |m - {k}| < |m| by { assert m.Keys == (m - {k}).Keys + {k}; }
      m[k] + SumCounts(m - {k})
  }

  /** The sum does not depend on which key is taken first. */
  lemma {:induction false} SumCountsRemove(m: map<string, nat>, k: string)
    requires k in m
    ensures SumCounts(m) == m[k] + SumCounts(m - {k})
    decreases |m|
  {
    var j := AnyKey(m);
    if j != k {
      assert |m - {j}| < |m| by { assert m.Keys == (m - {j}).Keys + {j}; }
      assert |m - {k}| < |m| by { assert m.Keys == (m - {k}).Keys + {k}; }
      SumCountsRemove(m - {j}, k);
      SumCountsRemove(m - {k}, j);
      assert m - {j} - {k} == m - {k} - {j};
    }
  }

  /** The count of a reason, 0 when it was never recorded
      (`blocked_reasons.get(reason, 0)`). */
  function CountOf(m: map<string, nat>, reason: string): nat
  {
    if reason in m then m[reason] else 0
  }

  /** The reasons after one more block for `reason`. */
  function Bump(m: map<string, nat>, reason: string): (r: map<string, nat>)
    ensures reason in r && r[reason] == CountOf(m, reason) + 1
    ensures forall k :: k != reason ==> (k in r <==> k in m) && (k in m ==> r[k] == m[k])
  {
    m[reason := CountOf(m, reason) + 1]
  }

  /** Recording one block raises the total of the counts by exactly one. */
  lemma BumpAddsOne(m: map<string, nat>, reason: string)
    ensures SumCounts(Bump(m, reason)) == SumCounts(m) + 1
  {
    var r := Bump(m, reason);
    SumCountsRemove(r, reason);
    assert r - {reason} == m - {reason};
    if reason in m {
      SumCountsRemove(m, reason);
    } else {
      assert m - {reason} == m;
    }
  }

  function SumReals(xs: seq<real>): real
  {
    if xs == [] then 0.0 else xs[0] + SumReals(xs[1..])
  }

  /** The dictionary `get_stats` returns. */
  datatype Stats = Stats(
    totalRequests: nat,
    blockedRequests: nat,
    blockRate: real,
    averageProcessingTime: real,
    blockedReasons: map<string, nat>)

  /** `TarotGuardrails`: the checks above plus the mutable `stats` record. */
  class TarotGuardrails {
    var totalRequests: nat
    var blockedRequests: nat
    var blockedReasons: map<string, nat>
    var processingTimes: seq<real>

    /** No more blocks than requests, and the reason counts add up to the
        blocks. */
    ghost predicate Valid()
      reads this
    {
      blockedRequests <= totalRequests && SumCounts(blockedReasons) == blockedRequests
    }

    constructor()
      ensures Valid()
      ensures totalRequests == 0 && blockedRequests == 0
      ensures blockedReasons == map[] && processingTimes == []
    {
      totalRequests := 0;
      blockedRequests := 0;
      blockedReasons := map[];
      processingTimes := [];
    }

    /** `_block_request`: one more block, recorded under `reason`. */
    method BlockRequest(reason: string) returns (r: GuardrailResult)
      modifies this
      ensures r == Block(reason)
      ensures blockedRequests == old(blockedRequests) + 1
      ensures blockedReasons == Bump(old(blockedReasons), reason)
      ensures SumCounts(blockedReasons) == old(SumCounts(blockedReasons)) + 1
      ensures totalRequests == old(totalRequests) && processingTimes == old(processingTimes)
    {
      BumpAddsOne(blockedReasons, reason);
      blockedRequests := blockedRequests + 1;
      blockedReasons := Bump(blockedReasons, reason);
      r := Block(reason);
    }

    /** `input_validation`: counts the request first, then runs the checks
        in order and records a block under the first failing check's
        reason. */
    method InputValidation(question: string) returns (r: GuardrailResult)
      requires Valid()
      modifies this
      ensures Valid()
      ensures r == InputVerdict(question)
      ensures totalRequests == old(totalRequests) + 1
      ensures r.isSafe ==> blockedRequests == old(blockedRequests) && blockedReasons == old(blockedReasons)
      ensures !r.isSafe ==> blockedRequests == old(blockedRequests) + 1
                            && blockedReasons == Bump(old(blockedReasons), r.reason.value)
      ensures processingTimes == old(processingTimes)
    {
      totalRequests := totalRequests + 1;
      if IsBlank(question) {
        r := BlockRequest(EmptyReason);
        return;
      }
      if |question| > MaxQuestionLength {
        r := BlockRequest(TooLongReason);
        return;
      }
      var found := FindForbiddenWord(Lower(question));
      if found.Some? {
        r := BlockRequest(ForbiddenReason(found.value));
        return;
      }
      if IsSpam(question) {
        r := BlockRequest(SpamReason);
        return;
      }
      if HasMaliciousContent(question) {
        r := BlockRequest(MaliciousReason);
        return;
      }
      r := Pass();
    }

    /** The loop over the forbidden words: the first one the lowered
        question contains. */
    static method FindForbiddenWord(lowered: string) returns (found: Option<string>)
      ensures found == FirstContained(ForbiddenWords, lowered)
    {
      var i := 0;
      while i < |ForbiddenWords|
        invariant 0 <= i <= |ForbiddenWords|
        invariant forall j :: 0 <= j < i ==> !Contains(lowered, ForbiddenWords[j])
      {
        if Contains(lowered, ForbiddenWords[i]) {
          FirstContainedAt(ForbiddenWords, lowered, i);
          return Some(ForbiddenWords[i]);
        }
        i := i + 1;
      }
      FirstContainedIsFirst(ForbiddenWords, lowered);
      return None;
    }

    /** Appends one processing time (done by the decorator and the context
        manager). */
    method RecordProcessingTime(t: real)
      modifies this
      ensures processingTimes == old(processingTimes) + [t]
      ensures totalRequests == old(totalRequests) && blockedRequests == old(blockedRequests)
      ensures blockedReasons == old(blockedReasons)
      ensures Valid() <==> old(Valid())
    {
      processingTimes := processingTimes + [t];
    }

    /** `get_stats`. */
    function GetStats(): (s: Stats)
      reads this
      ensures s.totalRequests == totalRequests && s.blockedRequests == blockedRequests
      ensures s.blockedReasons == blockedReasons
      ensures totalRequests == 0 ==> s.blockRate == 0.0
      ensures totalRequests > 0 ==> s.blockRate * totalRequests as real == blockedRequests as real
      ensures blockedRequests <= totalRequests ==> 0.0 <= s.blockRate <= 1.0
      ensures processingTimes == [] ==> s.averageProcessingTime == 0.0
      ensures processingTimes != [] ==>
                s.averageProcessingTime * |processingTimes| as real == SumReals(processingTimes)
    {
      var rate := if totalRequests > 0 then blockedRequests as real / totalRequests as real else 0.0;
      var avg := if processingTimes != [] then SumReals(processingTimes) / |processingTimes| as real else 0.0;
      Stats(totalRequests, blockedRequests, rate, avg, blockedReasons)
    }

    /** `reset_stats`: every counter back to zero. */
    method ResetStats()
      modifies this
      ensures Valid()
      ensures totalRequests == 0 && blockedRequests == 0
      ensures blockedReasons == map[] && processingTimes == []
    {
      totalRequests := 0;
      blockedRequests := 0;
      blockedReasons := map[];
      processingTimes := [];
    }
  }

  // ---------------------------------------------------------------------
  // The context manager and the decorator
  // ---------------------------------------------------------------------

  /** `GuardrailsContext`: remembers when the block was entered and, on
      exit, appends the elapsed time when a start time was taken. */
  class GuardrailsContext {
    const guardrails: TarotGuardrails
    var startTime: Option<real>

    constructor(g: TarotGuardrails)
      ensures guardrails == g && startTime == None
    {
      guardrails := g;
      startTime := None;
    }

    method Enter(now: real) returns (g: TarotGuardrails)
      modifies this
      ensures startTime == Some(now) && g == guardrails
    {
      startTime := Some(now);
      g := guardrails;
    }

    /** `__exit__`: a start time of 0.0 is falsy and records nothing. */
    method Exit(now: real)
      modifies guardrails
      ensures startTime.Some? && startTime.value != 0.0 ==>
                guardrails.processingTimes == old(guardrails.processingTimes) + [now - startTime.value]
      ensures !(startTime.Some? && startTime.value != 0.0) ==>
                guardrails.processingTimes == old(guardrails.processingTimes)
      ensures guardrails.totalRequests == old(guardrails.totalRequests)
      ensures guardrails.blockedRequests == old(guardrails.blockedRequests)
      ensures guardrails.blockedReasons == old(guardrails.blockedReasons)
    {
      if startTime.Some? && startTime.value != 0.0 {
        guardrails.RecordProcessingTime(now - startTime.value);
      }
    }
  }

  /** What the wrapped call returned, or the exception it raised. */
  datatype CallOutcome<R> = Returned(value: R) | Raised(message: string)

  /** `apply_guardrails(g)(func)` on one call: input, content and rate
      checks raise in that order before `func` runs; output screening only
      logs; the elapsed time is recorded only when the call returns. */
  method ApplyGuardrails<R>(g: TarotGuardrails, question: string, call: CallOutcome<R>,
                            startTime: real, endTime: real)
    returns (outcome: Result<R, string>)
    requires g.Valid()
    modifies g
    ensures g.Valid()
    ensures g.totalRequests == old(g.totalRequests) + 1
    ensures InputVerdict(question).isSafe ==>
              g.blockedRequests == old(g.blockedRequests) && g.blockedReasons == old(g.blockedReasons)
    ensures !InputVerdict(question).isSafe ==>
              g.blockedRequests == old(g.blockedRequests) + 1
              && g.blockedReasons == Bump(old(g.blockedReasons), InputVerdict(question).reason.value)
    ensures !InputVerdict(question).isSafe ==>
              outcome == Err("Input validation failed: " + InputVerdict(question).reason.value)
    ensures InputVerdict(question).isSafe && !ContentVerdict(question).isSafe ==>
              outcome == Err("Content validation failed: " + ContentVerdict(question).reason.value)
    ensures InputVerdict(question).isSafe && ContentVerdict(question).isSafe ==>
              (call.Returned? ==> outcome == Ok(call.value)) && (call.Raised? ==> outcome == Err(call.message))
    ensures outcome.Ok? ==> g.processingTimes == old(g.processingTimes) + [endTime - startTime]
    ensures outcome.Err? ==> g.processingTimes == old(g.processingTimes)
  {
    var inputResult := g.InputValidation(question);
    if !inputResult.isSafe {
      return Err("Input validation failed: " + inputResult.reason.value);
    }
    var contentResult := ContentVerdict(question);
    if !contentResult.isSafe {
      return Err("Content validation failed: " + contentResult.reason.value);
    }
    var rateResult := RateVerdict("default");
    if call.Raised? {
      return Err(call.message);
    }
    g.RecordProcessingTime(endTime - startTime);
    outcome := Ok(call.value);
  }
}
