/** The metrics of the evaluation script (`rag_evaluate.py`): precision,
    recall and F1 of the retrieved card names, the keyword and context
    coverage of a generated text, and the shape statistics of a response. */
module RagEvaluate {
  import opened Text

  // ---------------------------------------------------------------------
  // Retrieval (`evaluate_retrieval`)
  // ---------------------------------------------------------------------

  /** `len(part) / len(whole) if whole else 0`. */
  function Share(part: nat, whole: nat): (r: real)
    requires part <= whole
    ensures 0.0 <= r <= 1.0
    ensures whole == 0 ==> r == 0.0
    ensures whole > 0 ==> r * whole as real == part as real
  {
    if whole == 0 then 0.0 else Ratio(part, whole)
  }

  /** `2 * (p * r) / (p + r) if (p + r) > 0 else 0`. */
  function F1(p: real, r: real): (f1: real)
  {
    if p + r > 0.0 then 2.0 * (p * r) / (p + r) else 0.0
  }

  /** The dictionary `evaluate_retrieval` returns; the three card lists are
      built from sets and have no order, so they are kept as sets. */
  datatype RetrievalScores = RetrievalScores(
    precision: real,
    recall: real,
    f1: real,
    correct: set<string>,
    missing: set<string>,
    extra: set<string>)

  function EvaluateRetrieval(retrieved: seq<string>, expected: seq<string>): (s: RetrievalScores)
    ensures 0.0 <= s.precision <= 1.0 && 0.0 <= s.recall <= 1.0
  {
    var r := ToSet(retrieved);
    var e := ToSet(expected);
    var correct := r * e;
    SubsetNoLarger(correct, r);
    SubsetNoLarger(correct, e);
    var precision := Share(|correct|, |r|);
    var recall := Share(|correct|, |e|);
    RetrievalScores(precision, recall, F1(precision, recall), correct, e - r, r - e)
  }

  /** The correct cards are those both retrieved and expected; with the
      missing ones they make up the expected cards, with the extra ones the
      retrieved cards, and no card is in two of the three. */
  lemma RetrievalPartition(retrieved: seq<string>, expected: seq<string>)
    ensures var s := EvaluateRetrieval(retrieved, expected);
            && (forall c :: c in s.correct <==> c in retrieved && c in expected)
            && (forall c :: c in s.missing <==> c in expected && c !in retrieved)
            && (forall c :: c in s.extra <==> c in retrieved && c !in expected)
            && s.correct + s.missing == ToSet(expected)
            && s.correct + s.extra == ToSet(retrieved)
            && s.correct !! s.missing && s.correct !! s.extra && s.missing !! s.extra
  {
    var s := EvaluateRetrieval(retrieved, expected);
    var r, e := ToSet(retrieved), ToSet(expected);
    assert s.correct == r * e && s.missing == e - r && s.extra == r - e;
    SetSplit(r, e);
  }

  /** Intersection and the two differences split both sets. */
  lemma SetSplit<T>(r: set<T>, e: set<T>)
    ensures (r * e) + (e - r) == e && (r * e) + (r - e) == r
    ensures (r * e) !! (e - r) && (r * e) !! (r - e) && (e - r) !! (r - e)
  {
  }

  /** Multiplying by a non-negative factor keeps an order. */
  lemma MulMono(a: real, b: real, c: real)
    requires a <= b && 0.0 <= c
    ensures a * c <= b * c
  {
    assert b * c - a * c == (b - a) * c;
  }

  /** A quotient by a positive number is bounded as its numerator is. */
  lemma QuotientBetween(x: real, d: real, lo: real, hi: real)
    requires d > 0.0 && lo * d <= x <= hi * d
    ensures lo <= x / d <= hi
  {
    assert (x / d) * d == x;
  }

  /** Dividing by a positive number and multiplying back is the identity. */
  lemma QuotientTimes(x: real, d: real)
    requires d > 0.0
    ensures (x / d) * d == x
  {
  }

  /** The harmonic mean lies between the smaller and the larger of two
      shares, so it is a share too. */
  lemma F1Bounds(p: real, r: real)
    requires 0.0 <= p <= 1.0 && 0.0 <= r <= 1.0
    ensures 0.0 <= F1(p, r) <= 1.0
    ensures p + r > 0.0 ==> (p <= r ==> p <= F1(p, r) <= r) && (r <= p ==> r <= F1(p, r) <= p)
  {
    if p + r > 0.0 {
      var lo, hi := if p <= r then p else r, if p <= r then r else p;
      MulMono(lo, hi, lo);
      MulMono(lo, hi, hi);
      assert lo * hi == p * r;
      assert hi * lo == lo * hi;
      assert lo * (p + r) == lo * lo + lo * hi;
      assert hi * (p + r) == hi * lo + hi * hi;
      assert lo * (p + r) <= 2.0 * (p * r);
      assert 2.0 * (p * r) <= hi * (p + r);
      QuotientBetween(2.0 * (p * r), p + r, lo, hi);
    }
  }

  /** A product is 0 only when one of its factors is. */
  lemma ZeroFactor(a: real, b: real)
    requires a * b == 0.0 && b != 0.0
    ensures a == 0.0
  {
    assert a == (a * b) / b;
  }

  /** A share is 1 exactly when the part is the whole of a non-empty whole. */
  lemma ShareOne(part: nat, whole: nat)
    requires part <= whole
    ensures Share(part, whole) == 1.0 <==> 0 < whole && part == whole
  {
    if whole > 0 && part == whole {
      var s := Share(part, whole);
      assert (s - 1.0) * whole as real == 0.0;
      ZeroFactor(s - 1.0, whole as real);
    }
  }

  /** A share is 0 exactly when the part is empty. */
  lemma ShareZero(part: nat, whole: nat)
    requires part <= whole
    ensures Share(part, whole) == 0.0 <==> part == 0
  {
    if whole > 0 && part == 0 {
      ZeroFactor(Share(part, whole), whole as real);
    }
  }

  /** For shares, F1 is 1 exactly when both precision and recall are. */
  lemma F1OneIff(p: real, r: real)
    requires 0.0 <= p <= 1.0 && 0.0 <= r <= 1.0
    ensures F1(p, r) == 1.0 <==> p == 1.0 && r == 1.0
  {
    if F1(p, r) == 1.0 {
      assert p + r > 0.0;
      assert (2.0 * (p * r)) / (p + r) * (p + r) == 2.0 * (p * r);
      assert 2.0 * (p * r) == p + r;
      MulMono(p, 1.0, r);
      MulMono(r, 1.0, p);
      assert p * r == r && p * r == p;
      assert p == r && p > 0.0;
      ZeroFactor(p - 1.0, p);
    }
  }

  /** All three scores are 1 exactly when the retrieved names and the
      expected names are the same non-empty set. */
  lemma PerfectRetrievalIff(retrieved: seq<string>, expected: seq<string>)
    ensures var s := EvaluateRetrieval(retrieved, expected);
            s.f1 == 1.0 <==> ToSet(retrieved) == ToSet(expected) != {}
    ensures var s := EvaluateRetrieval(retrieved, expected);
            s.f1 == 1.0 <==> s.precision == 1.0 && s.recall == 1.0
  {
    var s := EvaluateRetrieval(retrieved, expected);
    var r, e := ToSet(retrieved), ToSet(expected);
    var correct := r * e;
    SubsetNoLarger(correct, r);
    SubsetNoLarger(correct, e);
    F1OneIff(s.precision, s.recall);
    ShareOne(|correct|, |r|);
    ShareOne(|correct|, |e|);
    if s.precision == 1.0 && s.recall == 1.0 {
      SameSizeSubset(correct, r);
      SameSizeSubset(correct, e);
    }
    if r == e && r != {} {
      assert correct == r;
    }
  }

  /** A subset as large as its superset is the whole set. */
  lemma SameSizeSubset<T>(a: set<T>, b: set<T>)
    requires a <= b && |a| == |b|
    ensures a == b
  {
    assert |b - a| == |b| - |a|;
  }

  /** Listing a card a second time, among the retrieved or the expected
      cards, changes none of the scores. */
  lemma RepeatsDoNotCount(retrieved: seq<string>, expected: seq<string>, i: nat, j: nat)
    requires i < |retrieved| && j < |expected|
    ensures EvaluateRetrieval(retrieved + [retrieved[i]], expected) == EvaluateRetrieval(retrieved, expected)
    ensures EvaluateRetrieval(retrieved, expected + [expected[j]]) == EvaluateRetrieval(retrieved, expected)
  {
    assert ToSet(retrieved + [retrieved[i]]) == ToSet(retrieved);
    assert ToSet(expected + [expected[j]]) == ToSet(expected);
  }

  /** The first worked example: one card retrieved, two expected. */
  lemma HighPrecisionExample()
    ensures var s := EvaluateRetrieval(["The Magician"], ["The Magician", "Death"]);
            s.precision == 1.0 && s.recall == 0.5 && s.f1 == 2.0 / 3.0
  {
    var r := ToSet(["The Magician"]);
    var e := ToSet(["The Magician", "Death"]);
    assert r == {"The Magician"};
    assert e == {"The Magician", "Death"};
    assert r * e == {"The Magician"};
  }

  /** The second worked example: three cards retrieved, two expected. */
  lemma HighRecallExample()
    ensures var s := EvaluateRetrieval(["The Magician", "Death", "The Fool"], ["The Magician", "Death"]);
            s.precision == 2.0 / 3.0 && s.recall == 1.0 && s.f1 == 0.8
  {
    var retrieved, expected := ["The Magician", "Death", "The Fool"], ["The Magician", "Death"];
    HighRecallSets(retrieved, expected);
    var s := EvaluateRetrieval(retrieved, expected);
    assert s.precision == Share(2, 3) && s.recall == Share(2, 2);
    ShareOne(2, 2);
    assert F1(2.0 / 3.0, 1.0) == 0.8;
  }

  lemma HighRecallSets(retrieved: seq<string>, expected: seq<string>)
    requires retrieved == ["The Magician", "Death", "The Fool"] && expected == ["The Magician", "Death"]
    ensures |ToSet(retrieved)| == 3 && ToSet(retrieved) * ToSet(expected) == ToSet(expected)
    ensures |ToSet(expected)| == 2
  {
    assert ToSet(retrieved) == {"The Magician", "Death", "The Fool"};
    assert ToSet(expected) == {"The Magician", "Death"};
  }

  // ---------------------------------------------------------------------
  // Keyword and context coverage (`evaluate_keyword_presence`,
  // `evaluate_context`)
  // ---------------------------------------------------------------------

  /** The loop both functions run: each item, in order, goes to the found
      list when its lowered form occurs in the lowered text, and to the
      missing list otherwise. */
  function Partition(textLower: string, items: seq<string>): (p: (seq<string>, seq<string>))
    ensures |p.0| + |p.1| == |items|
    decreases |items|
  {
    if items == [] then ([], [])
    else
      var (found, missing) := Partition(textLower, items[..|items| - 1]);
      var item := items[|items| - 1];
      if Contains(textLower, Lower(item)) then (found + [item], missing) else (found, missing + [item])
  }

  predicate Occurs(textLower: string, item: string)
  {
    Contains(textLower, Lower(item))
  }

  /** `sub` lists `items[pos[0]], items[pos[1]], ...` with `pos` increasing. */
  predicate PicksInOrder(sub: seq<string>, items: seq<string>, pos: seq<nat>)
  {
    && |pos| == |sub|
    && (forall i :: 0 <= i < |pos| ==> pos[i] < |items| && sub[i] == items[pos[i]])
    && (forall i, j :: 0 <= i < j < |pos| ==> pos[i] < pos[j])
  }

  /** A selection from all but the last item is a selection from them all. */
  lemma PicksFromInit(sub: seq<string>, items: seq<string>, pos: seq<nat>)
    requires |items| > 0 && PicksInOrder(sub, items[..|items| - 1], pos)
    ensures PicksInOrder(sub, items, pos)
    ensures forall i :: 0 <= i < |pos| ==> pos[i] < |items| - 1
  {
  }

  /** Adding the last item to such a selection keeps it in order. */
  lemma PicksLast(sub: seq<string>, items: seq<string>, pos: seq<nat>)
    requires |items| > 0 && PicksInOrder(sub, items[..|items| - 1], pos)
    ensures PicksInOrder(sub + [items[|items| - 1]], items, pos + [|items| - 1])
  {
    PicksFromInit(sub, items, pos);
  }

  /** The found list is the items that occur and the missing list the
      items that do not, each in the order of the items. */
  lemma {:induction false} PartitionInOrder(textLower: string, items: seq<string>)
    returns (foundAt: seq<nat>, missingAt: seq<nat>)
    ensures var p := Partition(textLower, items);
            PicksInOrder(p.0, items, foundAt) && PicksInOrder(p.1, items, missingAt)
    ensures forall k :: 0 <= k < |items| ==>
              (k in foundAt <==> Occurs(textLower, items[k])) && (k in missingAt <==> !Occurs(textLower, items[k]))
    decreases |items|
  {
    if items == [] {
      foundAt, missingAt := [], [];
    } else {
      var init := items[..|items| - 1];
      var last := |items| - 1;
      var p := Partition(textLower, init);
      foundAt, missingAt := PartitionInOrder(textLower, init);
      PicksFromInit(p.0, items, foundAt);
      PicksFromInit(p.1, items, missingAt);
      if Occurs(textLower, items[last]) {
        PicksLast(p.0, items, foundAt);
        foundAt := foundAt + [last];
      } else {
        PicksLast(p.1, items, missingAt);
        missingAt := missingAt + [last];
      }
      forall k | 0 <= k < last
        ensures items[k] == init[k]
      {
      }
    }
  }

  /** Found and missing together hold every item exactly as often as the
      items do. */
  lemma {:induction false} PartitionKeepsItems(textLower: string, items: seq<string>)
    ensures var p := Partition(textLower, items);
            multiset(p.0) + multiset(p.1) == multiset(items)
    decreases |items|
  {
    if items != [] {
      var init := items[..|items| - 1];
      PartitionKeepsItems(textLower, init);
      assert items == init + [items[|items| - 1]];
    }
  }

  /** Every item occurs exactly when the found list takes all of them. */
  lemma {:induction false} AllFoundIff(textLower: string, items: seq<string>)
    ensures |Partition(textLower, items).0| == |items|
            <==> forall i :: 0 <= i < |items| ==> Occurs(textLower, items[i])
    decreases |items|
  {
    if items != [] {
      var init := items[..|items| - 1];
      AllFoundIff(textLower, init);
      forall k | 0 <= k < |init|
        ensures items[k] == init[k]
      {
      }
    }
  }

  /** No item occurs exactly when the found list is empty. */
  lemma {:induction false} NoneFoundIff(textLower: string, items: seq<string>)
    ensures Partition(textLower, items).0 == []
            <==> forall i :: 0 <= i < |items| ==> !Occurs(textLower, items[i])
    decreases |items|
  {
    if items != [] {
      var init := items[..|items| - 1];
      NoneFoundIff(textLower, init);
      forall k | 0 <= k < |init|
        ensures items[k] == init[k]
      {
      }
    }
  }

  /** The dictionary `evaluate_keyword_presence` returns. */
  datatype KeywordReport = KeywordReport(
    score: real,
    found: seq<string>,
    missing: seq<string>,
    totalExpected: nat,
    totalFound: nat)

  /** What `evaluate_keyword_presence` computes. */
  function KeywordPresence(generatedText: string, expectedKeywords: seq<string>): (k: KeywordReport)
    ensures 0.0 <= k.score <= 1.0
    ensures k.totalFound + |k.missing| == k.totalExpected == |expectedKeywords|
  {
    var (found, missing) := Partition(Lower(generatedText), expectedKeywords);
    KeywordReport(Share(|found|, |expectedKeywords|), found, missing, |expectedKeywords|, |found|)
  }

  /** The loop of `evaluate_keyword_presence`. */
  method EvaluateKeywordPresence(generatedText: string, expectedKeywords: seq<string>)
    returns (k: KeywordReport)
    ensures k == KeywordPresence(generatedText, expectedKeywords)
  {
    var textLower := Lower(generatedText);
    var found, missing := [], [];
    for i := 0 to |expectedKeywords|
      invariant (found, missing) == Partition(textLower, expectedKeywords[..i])
    {
      assert expectedKeywords[..i + 1][..i] == expectedKeywords[..i];
      var keyword := expectedKeywords[i];
      if Contains(textLower, Lower(keyword)) {
        found := found + [keyword];
      } else {
        missing := missing + [keyword];
      }
    }
    assert expectedKeywords[..|expectedKeywords|] == expectedKeywords;
    k := KeywordReport(Share(|found|, |expectedKeywords|), found, missing, |expectedKeywords|, |found|);
  }

  /** The keyword score is 1 exactly when there are keywords and each of
      them occurs. */
  lemma KeywordScoreOne(generatedText: string, expectedKeywords: seq<string>)
    ensures KeywordPresence(generatedText, expectedKeywords).score == 1.0
            <==> expectedKeywords != []
                 && forall i :: 0 <= i < |expectedKeywords| ==>
                      Occurs(Lower(generatedText), expectedKeywords[i])
  {
    var found := Partition(Lower(generatedText), expectedKeywords).0;
    AllFoundIff(Lower(generatedText), expectedKeywords);
    ShareOne(|found|, |expectedKeywords|);
  }

  /** The keyword score is 0 exactly when no keyword occurs (in particular
      when there are none). */
  lemma KeywordScoreZero(generatedText: string, expectedKeywords: seq<string>)
    ensures KeywordPresence(generatedText, expectedKeywords).score == 0.0
            <==> forall i :: 0 <= i < |expectedKeywords| ==>
                   !Occurs(Lower(generatedText), expectedKeywords[i])
  {
    var found := Partition(Lower(generatedText), expectedKeywords).0;
    NoneFoundIff(Lower(generatedText), expectedKeywords);
    ShareZero(|found|, |expectedKeywords|);
  }

  /** The dictionary `evaluate_context` returns. */
  datatype ContextReport = ContextReport(score: real, found: seq<string>, missing: seq<string>)

  /** What `evaluate_context` computes. */
  function Context(generatedText: string, expectedContext: seq<string>): (c: ContextReport)
    ensures 0.0 <= c.score <= 1.0
    ensures |c.found| + |c.missing| == |expectedContext|
  {
    var (found, missing) := Partition(Lower(generatedText), expectedContext);
    ContextReport(Share(|found|, |expectedContext|), found, missing)
  }

  /** The loop of `evaluate_context`. */
  method EvaluateContext(generatedText: string, expectedContext: seq<string>)
    returns (c: ContextReport)
    ensures c == Context(generatedText, expectedContext)
  {
    var textLower := Lower(generatedText);
    var found, missing := [], [];
    for i := 0 to |expectedContext|
      invariant (found, missing) == Partition(textLower, expectedContext[..i])
    {
      assert expectedContext[..i + 1][..i] == expectedContext[..i];
      var context := expectedContext[i];
      if Contains(textLower, Lower(context)) {
        found := found + [context];
      } else {
        missing := missing + [context];
      }
    }
    assert expectedContext[..|expectedContext|] == expectedContext;
    c := ContextReport(Share(|found|, |expectedContext|), found, missing);
  }

  /** Context coverage is the keyword check under another name: the same
      lists and the same score. */
  lemma ContextIsKeywordCoverage(generatedText: string, expectedContext: seq<string>)
    ensures var c := Context(generatedText, expectedContext);
            var k := KeywordPresence(generatedText, expectedContext);
            c.score == k.score && c.found == k.found && c.missing == k.missing
  {
  }

  // ---------------------------------------------------------------------
  // Response shape (`evaluate_response_quality`)
  // ---------------------------------------------------------------------

  /** The dictionary `evaluate_response_quality` returns. */
  datatype Quality = Quality(
    wordCount: nat,
    uniqueWordCount: nat,
    sentenceCount: nat,
    paragraphCount: nat,
    avgWordsPerSentence: real,
    vocabularyDiversity: real)

  /** `set(word.lower() for word in words)`. */
  function LoweredWords(words: seq<string>): set<string>
  {
    set w | w in words :: Lower(w)
  }

  lemma {:induction false} LoweredWordsNoMore(words: seq<string>)
    ensures |LoweredWords(words)| <= |words|
    ensures words != [] ==> |LoweredWords(words)| > 0
  {
    if words != [] {
      LoweredWordsNoMore(words[1..]);
      assert LoweredWords(words) == LoweredWords(words[1..]) + {Lower(words[0])};
    }
  }

  function ResponseQuality(response: string): (quality: Quality)
  {
    var words := Words(response);
    var unique := LoweredWords(words);
    var sentences := Split(response, ".");
    var paragraphs := Split(response, "\n\n");
    LoweredWordsNoMore(words);
    Quality(|words|, |unique|, |sentences|, |paragraphs|,
            |words| as real / |sentences| as real,
            if |words| > 0 then Ratio(|unique|, |words|) else 0.0)
  }

  /** `s.split(c)` has one more piece than `s` has `c` characters. */
  lemma {:induction false} SplitPieces(s: string, c: char)
    ensures |Split(s, [c])| == CountChars(s, x => x == c) + 1
    decreases |s|
  {
    if |s| >= 1 {
      SplitPieces(s[1..], c);
      if [c] <= s {
        assert s[0] == c;
      } else {
        assert s[0] != c;
      }
    }
  }

  /** There is one more sentence than there are full stops, and always at
      least one paragraph. */
  lemma SentenceCount(response: string)
    ensures ResponseQuality(response).sentenceCount == CountChars(response, x => x == '.') + 1
    ensures ResponseQuality(response).paragraphCount >= 1
  {
    SplitPieces(response, '.');
  }

  /** The vocabulary diversity is a share of the words that is 0 exactly
      when there are no words. */
  lemma DiversityBounds(response: string)
    ensures var q := ResponseQuality(response);
            && q.uniqueWordCount <= q.wordCount
            && 0.0 <= q.vocabularyDiversity <= 1.0
            && (q.vocabularyDiversity == 0.0 <==> q.wordCount == 0)
  {
    var words := Words(response);
    var unique := LoweredWords(words);
    LoweredWordsNoMore(words);
    if |words| > 0 {
      ShareZero(|unique|, |words|);
    }
  }

  /** The average sentence length times the number of sentences gives back
      the number of words. */
  lemma AverageSentenceLength(response: string)
    ensures var q := ResponseQuality(response);
            q.avgWordsPerSentence * q.sentenceCount as real == q.wordCount as real
  {
    AverageTimesCount(ResponseQuality(response));
  }

  lemma AverageTimesCount(q: Quality)
    requires q.sentenceCount > 0
    requires q.avgWordsPerSentence == q.wordCount as real / q.sentenceCount as real
    ensures q.avgWordsPerSentence * q.sentenceCount as real == q.wordCount as real
  {
    QuotientTimes(q.wordCount as real, q.sentenceCount as real);
  }
}
