# Tarot reading pipeline with guardrails, in Dafny

This project models the deterministic core of a tarot-reading service. The
service draws cards from a 78-card deck and looks each card up in a document
store. It builds a prompt from those documents and asks a language model for
the reading. Around this runs a guard layer, which screens the question, the
topic and the answer and keeps request statistics. The repository also holds
an offline evaluator for retrieval and answer quality, and a small tracing
helper that prices model calls.

The modules follow the source files:

| module | file | what it holds |
|---|---|---|
| `Text` | `text.dfy` | Python string operations the core relies on: `lower`, `strip`, `split`, `in` on strings, `str(n)` |
| `Guards` | `guards.dfy` | `guardrails.py`: the checks as functions; `TarotGuardrails` and `GuardrailsContext` as classes over the statistics record; the `apply_guardrails` wrapper as a method |
| `Deck` | `deck.dfy` | the 78-name deck and `_get_card_path` of `agent.py` |
| `Agent` | `agent.dfy` | `_draw_cards`, `get_card_info` and `get_reading` of `agent.py` |
| `DataLoader` | `data_loader.dfy` | `data_loader.py`: reading card files, `load_all_cards`, `prepare_documents` |
| `RagEvaluate` | `rag_evaluate.dfy` | `rag_evaluate.py`: retrieval, keyword, context and response-quality metrics |
| `Observability` | `observability.dfy` | `observability.py`: `calculate_cost`, trace card labels and document previews |
| `Integration` | `integration.dfy` | `guardrails_integration_example.py`: `get_reading_safe` and `get_guardrails_report` |

The outside world becomes parameters:

- Randomness:
  - `random.shuffle` is a permutation of the 78 deck positions.
  - `random.choice` is a coin function.
  - The redraws of the retry loop are a finite stream of (position, coin) pairs.
- The file system:
  - The image-existence test is a predicate `assetExists`.
  - The card text files are a function from path to optional contents.
- The vector store's `similarity_search(..., k=1)` is a function from query to documents.
- The retrieval chain is a readiness flag plus a function from prompt to either an error or a response map.
- Clock readings are given reals.

The statistics record is mutable in the source. It is the field set of the
class `Guards.TarotGuardrails`. The class invariant `Valid()` states that
there are no more blocks than requests and that the per-reason counts add
up to the number of blocks. Every state-changing method keeps this invariant.

## Model

| member | source | states |
|---|---|---|
| Guards.TarotGuardrails.constructor | app/tarot_agent/guardrails.py:47-52 | a fresh guard starts with zero requests, zero blocks, no reasons and no processing times, and satisfies the counter invariant |
| Guards.TarotGuardrails.InputValidation | app/tarot_agent/guardrails.py:54-80 | every call counts one request, whatever the verdict; the verdict is `InputVerdict`; a block adds one to the block count and one to its reason's count; a pass leaves both alone; the counter invariant is kept |
| Guards.InputVerdictSafeIff | app/tarot_agent/guardrails.py:54-80 | a question passes exactly when it is not blank, has at most 500 characters, contains no forbidden word after lower-casing, is not spam and has no injection pattern; a block always carries a reason; confidence is always 1.0 |
| Guards.ForbiddenBlockNamesFirstWord | app/tarot_agent/guardrails.py:66-70 | a forbidden-word block names the first word of the list, in list order, that occurs in the lowered question; such a block only happens to a non-blank question within the length limit |
| Guards.ForbiddenReasonIsDistinct | app/tarot_agent/guardrails.py:59-78 | the empty, length, spam and injection reasons never coincide with a forbidden-word reason |
| Guards.ForbiddenReasonInjective | app/tarot_agent/guardrails.py:70 | different forbidden words give different reasons |
| Guards.LengthBoundary | app/tarot_agent/guardrails.py:63-64 | the length check is inclusive: a 501-character non-blank question is refused as too long, a 500-character one is not |
| Guards.TarotGuardrails.FindForbiddenWord | app/tarot_agent/guardrails.py:67-70 | the loop over the forbidden words finds the first listed word the lowered question contains, or none |
| Guards.ContentVerdictIff | app/tarot_agent/guardrails.py:164-194 | a medical keyword blocks with the medical reason, even when a legal keyword is also present; a legal keyword blocks only when no medical one occurs; financial keywords never block; the question passes exactly when it has neither medical nor legal keywords |
| Guards.MentionedCount | app/tarot_agent/guardrails.py:254-259 | at most as many cards are counted as named as there are drawn cards |
| Guards.StrayMajors | app/tarot_agent/guardrails.py:290-301 | at most the 22 major arcana are counted as named but not drawn |
| Guards.HallucinationScore | app/tarot_agent/guardrails.py:274-303 | the score, in hundredths, is capped at 100 |
| Guards.OutputVerdictSafeIff | app/tarot_agent/guardrails.py:108-150 | a response passes exactly when it is 50 to 5000 characters long, has no forbidden word, is well structured and scores at most 0.30; a pass reports the response length; a failure carries a reason; the confidence is 1 minus the score when only the score failed and 1.0 on every other result, a pass included, so always a share |
| Guards.HallucinationThreshold | app/tarot_agent/guardrails.py:274-303 | with every drawn card named, two named majors that were not drawn score exactly 0.30 and pass; three or more are flagged |
| Guards.NoStrayWhenOnlyDrawnNamed | app/tarot_agent/guardrails.py:297-301 | when every major named in the response was drawn, no stray major is counted |
| Guards.Fixed2 | app/tarot_agent/guardrails.py:146 | a ratio formatted with two decimals is a digit, a point and two digits, and reading it back gives the hundredths nearest the ratio, an exact tie going to the even one |
| Guards.RoundHalfEven | app/tarot_agent/guardrails.py:146 | the rounded value lies within one half of the input, and an exact half goes to the even neighbour |
| Guards.Fixed2Ties | app/tarot_agent/guardrails.py:98 | the ties a double holds exactly print to the even digit: 0.625 as 0.62, 0.125 as 0.12, 0.375 as 0.38 |
| Guards.DocRelevance | app/tarot_agent/guardrails.py:244-248 | one document's relevance is a share in [0, 1] |
| Guards.TotalRelevance | app/tarot_agent/guardrails.py:241-248 | the summed relevance of the documents lies between 0 and their number |
| Guards.Relevance | app/tarot_agent/guardrails.py:235-250 | the relevance is in [0, 1], and 0 when there are no documents |
| Guards.Mean | app/tarot_agent/guardrails.py:250 | the mean of shares is a share, and it times the count gives back the total |
| Guards.ContextVerdictSafeIff | app/tarot_agent/guardrails.py:82-106 | the context passes exactly when there is a document and the relevance is at least 0.7; with documents, the confidence is the relevance; without, the verdict is the no-documents block |
| Guards.WordlessQuestionIrrelevant | app/tarot_agent/guardrails.py:240-247 | a question without words is relevant to no document |
| Guards.ZeroTotalRelevance | app/tarot_agent/guardrails.py:247 | with an empty word set every document's relevance is 0 |
| Guards.RateVerdict | app/tarot_agent/guardrails.py:152-162 | rate limiting always lets the request through, with no reason |
| Guards.TarotGuardrails.BlockRequest | app/tarot_agent/guardrails.py:196-201 | one more block, one more count for its reason, total of the counts up by one, total requests and times unchanged; the verdict is the block with that reason |
| Guards.Bump | app/tarot_agent/guardrails.py:199 | the reason's count is its old count (0 if absent) plus one; every other reason is untouched |
| Guards.BumpAddsOne | app/tarot_agent/guardrails.py:198-199 | recording a block raises the sum of the reason counts by exactly one, so the sum keeps tracking the block count |
| Guards.SumCountsRemove | app/tarot_agent/guardrails.py:199 | the sum of the reason counts does not depend on the order the reasons are taken |
| Guards.TarotGuardrails.RecordProcessingTime | app/tarot_agent/guardrails.py:403-406 | appends one time and changes no counter, so the invariant holds after exactly when it held before |
| Guards.TarotGuardrails.GetStats | app/tarot_agent/guardrails.py:305-321 | the snapshot holds the current counters and reason counts; the block rate is 0 with no requests and otherwise blocks divided by requests, a share; the average time is 0 with no times and otherwise their sum divided by their number |
| Guards.TarotGuardrails.ResetStats | app/tarot_agent/guardrails.py:323-330 | every counter and list is back to empty, and the invariant holds |
| Guards.GuardrailsContext.constructor | app/tarot_agent/guardrails.py:395-397 | the context holds its guard and no start time |
| Guards.GuardrailsContext.Enter | app/tarot_agent/guardrails.py:399-401 | entering remembers the start time and hands back the guard |
| Guards.GuardrailsContext.Exit | app/tarot_agent/guardrails.py:403-406 | leaving appends the elapsed time when a non-zero start time was taken, and nothing otherwise; the counters are untouched |
| Guards.ApplyGuardrails | app/tarot_agent/guardrails.py:338-389 | the wrapper counts the request; a failed input check adds one block and one count for its reason, a passed one leaves both alone; it raises on a failed input check, else on a failed content check, before the wrapped call runs; otherwise it passes the call's result or exception through; a time is recorded only when the call returns |
| Deck.MinorName | app/tarot_agent/agent.py:193-219 | card `22 + 14s + r` of the deck is "rank r of suit s": after the 22 majors come the 14 ranks of each suit, suit by suit in the order Cups, Pentacles, Swords, Wands |
| Deck.MajorName | app/tarot_agent/agent.py:193-219 | the first 22 cards of the deck are the major arcana in order |
| Deck.DeckDistinct | app/tarot_agent/agent.py:193-219 | the 78 names of the deck are pairwise different |
| Deck.CardsDiffer | app/tarot_agent/agent.py:193-219 | cards at different positions of the deck have different names |
| Deck.NoSuitInMajor | app/tarot_agent/agent.py:123 | no major arcana name contains a suit name, so every major takes the major branch |
| Deck.MajorNumbersInOrder | app/tarot_agent/agent.py:139-148 | the major table numbers the majors 0 to 21 in deck order |
| Deck.RankNumbersInOrder | app/tarot_agent/agent.py:128-132 | the rank table numbers Ace to King 0 to 13 in order |
| Deck.SuitFound | app/tarot_agent/agent.py:123-125 | a name "rank of suit" selects its own suit, not one listed earlier, when the rank has none of the letters that tell the suits apart |
| Deck.MinorSuitFound | app/tarot_agent/agent.py:123-125 | every minor card of the deck selects its own suit's directory |
| Deck.MinorRankWord | app/tarot_agent/agent.py:133 | the first space-separated word of a minor card's name is its rank |
| Deck.MajorLocation | app/tarot_agent/agent.py:136-149 | major card `i` maps to directory `MajorArcana`, number `i` |
| Deck.MinorLocation | app/tarot_agent/agent.py:123-134 | minor card `r` of suit `s` maps to directory `MinorArcana_<s>`, number `r` |
| Deck.DeckLocations | app/tarot_agent/agent.py:119-149 | every card of the deck maps to the image its position calls for |
| Deck.ExpectedLocationInjective | app/tarot_agent/agent.py:154 | different deck positions call for different images |
| Deck.RankNumbersAreNumerals | app/tarot_agent/agent.py:128-132 | every rank number is a decimal numeral |
| Deck.MajorNumbersAreNumerals | app/tarot_agent/agent.py:139-148 | every major number is a decimal numeral |
| Deck.CardLocationNumeral | app/tarot_agent/agent.py:123-149 | the number of any name, a known one or the "0" fallback, is a decimal numeral |
| Deck.CardPathReversedIff | app/tarot_agent/agent.py:154-182 | every path lies under the cards folder and ends in `.jpg`; it is the `-r.jpg` image exactly when the reversed image was asked for and exists; whether the upright image exists plays no part |
| Deck.ImageBase | app/tarot_agent/agent.py:154 | the path without suffix lies under the cards folder and ends in a digit |
| Deck.ReversedImageName | app/tarot_agent/agent.py:154-172 | the reversed image path ends in `-r.jpg` |
| Deck.UprightImageName | app/tarot_agent/agent.py:154-177 | the upright image path ends in `.jpg` but not in `-r.jpg` |
| Deck.UnknownNameFallsBack | app/tarot_agent/agent.py:136-177 | a name that contains no suit and is not a major gets image `MajorArcana/0`, reversed only when asked for and present |
| Deck.UnknownRankFallsBack | app/tarot_agent/agent.py:123-134 | a name that contains a suit but whose first word is no rank gets image number 0 of the first suit it contains, reversed only when asked for and present |
| Deck.UnknownIsTheFool | app/tarot_agent/agent.py:136-149 | the name "Unknown" contains no suit and is no major, so it gets `MajorArcana/0` |
| Deck.BogusOfCupsIsNumberZero | app/tarot_agent/agent.py:123-134 | "Bogus of Cups" gets `MinorArcana_Cups/0`: the suit decides the directory even when the rank is unknown |
| Agent.DrawPrefix | app/tarot_agent/agent.py:226-232 | the first `k` cards appended form a list of length `k` |
| Agent.DrawPrefixAt | app/tarot_agent/agent.py:222-232 | drawn card `i` is deck card `perm[i]` with coin `i` and the path for that name and coin |
| Agent.DrawProperties | app/tarot_agent/agent.py:189-235 | a draw is a prefix of the shuffled deck: `DrawCount(n)` cards, the length of the slice `all_cards[:n]` (never more than 78), with pairwise different names, each with its coin and its image path |
| Agent.DrawCards | app/tarot_agent/agent.py:189-235 | the loop appends exactly the cards `Draw` describes |
| Agent.InfoQueryNamesCard | app/tarot_agent/agent.py:356-359 | the search text is the fixed prefix followed by the whole card name, so different cards are looked up by different queries |
| Agent.FragmentQuotesContent | app/tarot_agent/agent.py:264-273 | since the card information has no `rmean` or `umean` key, every fragment quotes the document content; only the position label depends on the orientation |
| Agent.Replacement | app/tarot_agent/agent.py:278-291 | a replacement the retry loop accepts has another name than the missing card, is a deck card, has information, and uses up at least one redraw |
| Agent.Assemble | app/tarot_agent/agent.py:259-291 | a finished assembly has one fragment and one kept card per drawn card |
| Agent.AssembleMeaning | app/tarot_agent/agent.py:259-291 | position by position, the kept card is the drawn card when the store knows it, and otherwise another-named deck card the store knows; the fragment describes the kept card |
| Agent.AssembleFirst | app/tarot_agent/agent.py:259-291 | the first kept card is kept for the first drawn card, and the rest is the assembly of the later cards |
| Agent.AllFoundKeepsDraw | app/tarot_agent/agent.py:262-273 | when the store knows every drawn card, no redraw is used and the kept cards are exactly the drawn ones |
| Agent.NoInfoNoReplacement | app/tarot_agent/agent.py:278-291 | when the store knows no card, no number of redraws yields a replacement |
| Agent.NoInfoRetriesForever | app/tarot_agent/agent.py:278-291 | when the store knows no card, the retry loop for the first card never ends |
| Agent.ReplacementCanDuplicate | app/tarot_agent/agent.py:280 | a replacement is compared only with the card it replaces, so a reading can hold the same card twice |
| Agent.AssembleContext | app/tarot_agent/agent.py:259-291 | the loop with its inner `while True` computes `Assemble`, or does not end |
| Agent.Conclude | app/tarot_agent/agent.py:311-339 | a reading is delivered exactly when the chain is ready and answers with an `answer`; it then holds the kept cards and that answer; an unready chain raises its own error |
| Agent.GetReading | app/tarot_agent/agent.py:237-343 | the method ends as `ReadingOf` says: draw, assemble, then consult the chain |
| Agent.ReadingDeliveredIff | app/tarot_agent/agent.py:237-343 | a reading is delivered exactly when assembly ends and the chain answers with an `answer`; it hangs exactly when assembly does not end; a missing chain is reported only after assembly |
| Agent.ReadingCards | app/tarot_agent/agent.py:259-339 | a delivered reading has one card per drawn card, each known to the store, equal to the drawn card where the store knew it, and another-named deck card where it did not |
| DataLoader.TypeTitleCapitalises | app/tarot_agent/data_loader.py:82 | `title()` upper-cases the first letter of the card type and keeps the rest |
| DataLoader.PathJoinEndsWith | app/tarot_agent/data_loader.py:47-52 | a joined path ends with the name joined |
| DataLoader.PathJoinInjective | app/tarot_agent/data_loader.py:47-52 | different relative names joined onto one folder give different paths |
| DataLoader.ReadFileContentMeaning | app/tarot_agent/data_loader.py:34-40 | a missing file reads as ""; the result is "" exactly when the file is missing or blank; otherwise it has no white space at either end |
| DataLoader.CardFilesDistinct | app/tarot_agent/data_loader.py:47-52 | the six files of a card are six different paths |
| DataLoader.LoadCardDataReadsSixFiles | app/tarot_agent/data_loader.py:42-55 | a card's data depends on its six files and nothing else of the file system |
| DataLoader.EachFieldItsOwnFile | app/tarot_agent/data_loader.py:47-52 | each field comes from its own file: with only the description file present, only the description is filled |
| DataLoader.StripOfTrimmed | app/tarot_agent/data_loader.py:38 | text with no white space at either end is its own `strip()` |
| DataLoader.SuitIndex | app/tarot_agent/data_loader.py:66-68 | minor card `k` is loaded by suit iteration `s`, whose 14 cards span `22 + 14s` to `22 + 14s + 13` |
| DataLoader.MinorCardData | app/tarot_agent/data_loader.py:66-68 | card `22 + 14s + r` is loaded from file number `r` in suit `s`'s folder, typed minor, with suit `s` |
| DataLoader.LoadAllCards | app/tarot_agent/data_loader.py:57-70 | the two loops return 78 cards, card `k` being `CardData(k)` |
| DataLoader.LoadSuit | app/tarot_agent/data_loader.py:66-68 | one turn of the suit loop keeps the cards before it and appends suit `s`'s 14 cards, so card `k` is `CardData(k)` up to `22 + 14(s+1)` |
| DataLoader.CardDataOrder | app/tarot_agent/data_loader.py:57-70 | the 22 majors come first, typed major and without a suit; then the minors, suit by suit, each with its suit |
| DataLoader.CardDataMatchesImages | app/tarot_agent/data_loader.py:57-70 | the files of the `k`-th card sit in the same folder, under the same number, as the image the agent shows for the `k`-th deck name |
| DataLoader.SuitLabelNA | app/tarot_agent/data_loader.py:96-126 | the metadata suit is 'NA' exactly for the majors and the card's suit for the minors |
| DataLoader.CardDocuments | app/tarot_agent/data_loader.py:77-128 | each card yields three documents |
| DataLoader.DocumentsOf | app/tarot_agent/data_loader.py:77-128 | a list of cards yields three documents per card |
| DataLoader.DocumentsOfAt | app/tarot_agent/data_loader.py:77-128 | document `3i + j` is document `j` of card `i` |
| DataLoader.CardDocumentsMetadata | app/tarot_agent/data_loader.py:96-126 | all three documents carry the card's name, type and suit or 'NA'; the first has no aspect, then come `upright` and `reversed` |
| DataLoader.CardDocumentsContent | app/tarot_agent/data_loader.py:80-113 | after stripping, each content starts with its `Card:` line: the name, and for the aspect documents the aspect in parentheses |
| DataLoader.AspectContentHead | app/tarot_agent/data_loader.py:112-120 | an aspect document's content starts with its `Card:` line |
| DataLoader.TemplateHead | app/tarot_agent/data_loader.py:80-95 | a triple-quoted template whose first lines start with a letter strips to text starting with its first body line |
| DataLoader.CardDocumentsAre | app/tarot_agent/data_loader.py:79-128 | a card's documents are the comprehensive one, then one per aspect in list order |
| DataLoader.DocumentsOfSnoc | app/tarot_agent/data_loader.py:77-128 | one more card's documents follow those of the cards before it |
| DataLoader.AppendCardDocuments | app/tarot_agent/data_loader.py:78-128 | one turn of the card loop appends exactly that card's three documents |
| DataLoader.RenderDocuments | app/tarot_agent/data_loader.py:75-130 | the card loop returns `DocumentsOf(cards)` |
| DataLoader.PrepareDocuments | app/tarot_agent/data_loader.py:72-130 | 234 documents: document `3k + j` is document `j` of the `k`-th loaded card |
| RagEvaluate.Share | rag_evaluate.py:70-73 | a share is in [0, 1]; it is 0 for an empty whole and otherwise times the whole gives the part |
| RagEvaluate.EvaluateRetrieval | rag_evaluate.py:63-85 | precision and recall are shares |
| RagEvaluate.RetrievalPartition | rag_evaluate.py:63-84 | correct is retrieved ∩ expected, missing is expected − retrieved, extra is retrieved − expected; the three are disjoint and rebuild both sets |
| RagEvaluate.F1Bounds | rag_evaluate.py:76 | F1 of two shares lies between the smaller and the larger of them |
| RagEvaluate.ShareOne | rag_evaluate.py:70-73 | a share is 1 exactly when the part is a non-empty whole |
| RagEvaluate.ShareZero | rag_evaluate.py:70-73 | a share is 0 exactly when the part is empty |
| RagEvaluate.F1OneIff | rag_evaluate.py:76 | F1 is 1 exactly when precision and recall are both 1 |
| RagEvaluate.PerfectRetrievalIff | rag_evaluate.py:63-76 | F1 is 1 exactly when the retrieved and expected names form the same non-empty set |
| RagEvaluate.RepeatsDoNotCount | rag_evaluate.py:63-64 | listing a card a second time, on either side, changes no score |
| RagEvaluate.HighPrecisionExample | rag_evaluate.py:326-330 | the documented first case gives precision 1, recall 0.5 and F1 2/3 |
| RagEvaluate.HighRecallExample | rag_evaluate.py:332-336 | the documented second case gives precision 2/3, recall 1 and F1 0.8 |
| RagEvaluate.Partition | rag_evaluate.py:94-98 | found and missing together have as many entries as the items |
| RagEvaluate.PartitionInOrder | rag_evaluate.py:94-98 | the found list is the items that occur in the lowered text, the missing list the others, each in item order |
| RagEvaluate.PartitionKeepsItems | rag_evaluate.py:94-98 | found and missing hold each item exactly as often as the items do |
| RagEvaluate.AllFoundIff | rag_evaluate.py:94-98 | every item is found exactly when every item occurs |
| RagEvaluate.NoneFoundIff | rag_evaluate.py:94-98 | no item is found exactly when no item occurs |
| RagEvaluate.KeywordPresence | rag_evaluate.py:87-108 | the score is a share and found plus missing makes up all the expected keywords |
| RagEvaluate.EvaluateKeywordPresence | rag_evaluate.py:87-108 | the loop computes `KeywordPresence` |
| RagEvaluate.KeywordScoreOne | rag_evaluate.py:100 | the keyword score is 1 exactly when there are keywords and every one occurs |
| RagEvaluate.KeywordScoreZero | rag_evaluate.py:100 | the keyword score is 0 exactly when no keyword occurs |
| RagEvaluate.Context | rag_evaluate.py:110-129 | the context score is a share and found plus missing makes up the expected context |
| RagEvaluate.EvaluateContext | rag_evaluate.py:110-129 | the loop computes `Context` |
| RagEvaluate.ContextIsKeywordCoverage | rag_evaluate.py:110-129 | the context check gives the same lists and score as the keyword check |
| RagEvaluate.LoweredWordsNoMore | rag_evaluate.py:133 | there are no more distinct lowered words than words, and at least one when there is a word |
| RagEvaluate.SplitPieces | rag_evaluate.py:134-135 | `split(c)` gives one more piece than there are `c` characters |
| RagEvaluate.SentenceCount | rag_evaluate.py:134-141 | there is one more sentence than full stops, and at least one paragraph |
| RagEvaluate.DiversityBounds | rag_evaluate.py:133-144 | the distinct words are no more than the words; the diversity is a share and 0 exactly when there are no words |
| RagEvaluate.AverageSentenceLength | rag_evaluate.py:143 | the average sentence length times the sentence count gives the word count |
| Observability.PricesPositive | app/tarot_agent/observability.py:165-178 | every price the table gives is positive |
| Observability.UnknownModelCostsAsDefault | app/tarot_agent/observability.py:180-181 | a model not in the table is charged as `gpt-4-turbo-preview` |
| Observability.OnlyTokenCountsMatter | app/tarot_agent/observability.py:183-184 | the cost depends only on the prompt and completion counts; `total_tokens` and other keys are ignored |
| Observability.EmptyUsageIsFree | app/tarot_agent/observability.py:183-184 | missing counts are 0, so an empty usage record costs nothing |
| Observability.CostMonotone | app/tarot_agent/observability.py:183-186 | more prompt and completion tokens never cost less |
| Observability.CostNonNegative | app/tarot_agent/observability.py:183-186 | non-negative counts give a non-negative cost |
| Observability.ModelsOrderedByCost | app/tarot_agent/observability.py:165-178 | for the same usage, `gpt-3.5-turbo` costs no more than the default model, which costs no more than `gpt-4` |
| Observability.CostExample | app/tarot_agent/observability.py:162-186 | 1000 prompt and 500 completion tokens on `gpt-4` cost 0.06 dollars |
| Observability.CardLabel | app/tarot_agent/observability.py:43-44 | a label is the card name, then the orientation in parentheses |
| Observability.CardLabelInjective | app/tarot_agent/observability.py:43-44 | different names or orientations give different labels |
| Observability.CardLabels | app/tarot_agent/observability.py:43-44 | one label per drawn card |
| Observability.CardLabelsDetermineSpread | app/tarot_agent/observability.py:43-44 | equal label lists mean the same names and orientations in the same positions |
| Observability.PreviewShape | app/tarot_agent/observability.py:99 | a preview is the first 200 characters of the document, or all of a shorter one, then "..." |
| Observability.PreviewInjectiveWhenShort | app/tarot_agent/observability.py:99 | short documents have different previews when they differ; long ones share a preview exactly when their first 200 characters agree |
| Observability.Previews | app/tarot_agent/observability.py:99 | one preview per document |
| Integration.GetReadingSafe | guardrails_integration_example.py:22-88 | the outcome is `SafeOutcomeOf`; the request is counted, and input blocks are recorded as in `InputValidation`; a time is recorded on every exit from the context, refusals included, unless the start time is 0 or the reading never ends |
| Integration.RefusedIff | guardrails_integration_example.py:40-55 | a question is refused exactly when the input or the content check fails, with the first failing check's message; the agent then plays no part |
| Integration.PassedFollowsAgent | guardrails_integration_example.py:57-88 | once both checks pass, the agent's error is raised again, a hang stays a hang, and a delivered reading keeps its cards and text |
| Integration.AnsweredDecoration | guardrails_integration_example.py:66-81 | output screening is run on the reading's own card names; the warning is present exactly when that screening failed and then holds its reason; the metadata holds input confidence 1.0, appropriate content and the output confidence, a share |
| Integration.Repeat | guardrails_integration_example.py:140 | `s * n` has `n` times the length of `s`, and only characters of `s` |
| Integration.EmptyQuestionRefused | guardrails_integration_example.py:148-152 | the empty question is refused as empty |
| Integration.LongQuestionShape | guardrails_integration_example.py:140 | the demonstration's long question has 1100 characters, all `a` |
| Integration.LongRunRefused | app/tarot_agent/guardrails.py:63-74 | a question over 500 characters that opens with six `a`s is refused as too long, before the spam check it would also fail |
| Integration.LongQuestionRefused | guardrails_integration_example.py:140-144 | the demonstration's long question is refused as too long |
| Integration.MedicalQuestionRefused | guardrails_integration_example.py:135-139 | a question that passes input validation and names a medical keyword is refused as medical, whatever the agent would answer |
| Integration.ReportMeaning | guardrails_integration_example.py:98-111 | the success rate is the percentage of requests not blocked, 100 with no requests; the status is healthy exactly when fewer than one request in ten was blocked |
| Integration.RateBelowTenth | guardrails_integration_example.py:110 | a block rate is below 0.1 exactly when ten times the blocks are fewer than the requests |
| Text.StripEmptyIffBlank | app/tarot_agent/guardrails.py:59 | `strip()` gives "" exactly for blank text |
| Text.DecimalStringInjective | app/tarot_agent/data_loader.py:45 | different numbers have different decimal strings |
| Text.JoinSplit | rag_evaluate.py:134-135 | joining the pieces of a split with its separator gives back the text |

## Left out

- Python's `isspace` is modelled in full. The other character classes cover part of Unicode:
  - `isupper` and `lower` cover exactly A to Z, the Latin-1 capitals U+00C0 to U+00DE except U+00D7, the unaccented Greek capitals U+0391 to U+03A9, the Cyrillic capitals U+0400 to U+042F and Ґ U+0490.
  - Everything else counts as having no case. This includes Latin Extended (such as Ł, Ś, Ž and İ), the accented Greek capitals U+0386 and U+0388 to U+038F, and the rest of the Cyrillic block (such as Қ, Ү, Ә and Ө). On such text the spam check's upper-case ratio and the lowering before word matching differ from Python's.
  - `lower` maps every capital sigma to σ. Python writes ς at the end of a word.
  - `isdigit` covers the ASCII digits only. Python also counts the superscripts ¹, ² and ³ and the digits of other scripts, so the spam check's digit ratio can differ on such text.
  - Other scripts have no digits, and there is no Unicode normalisation.
- Regular expressions are modelled as predicates over the string:
  - `(.)\1{5,}` is six equal consecutive characters other than a newline.
  - The five injection patterns are matched ignoring case: the script tag, `javascript:`, `SELECT…FROM…WHERE` on one line, `DROP` and `TABLE` separated by white space, and `UNION` and `SELECT` separated by white space.
- Floating-point arithmetic is modelled as exact `real` arithmetic. The hallucination score is counted in hundredths, which matches the source's float sums at the 0.30 threshold.
- Guards.Fixed2: rounds the exact real value, ties to even. Python rounds the binary double, so a decimal tie that a double cannot hold exactly, such as 0.075, may print rounded the other way.
- Guards.TarotGuardrails.GetStats: returns the reason counts as a value. The source hands out its live `blocked_reasons` dict (app/tarot_agent/guardrails.py:320), so an earlier snapshot also shows later blocks. That aliasing is not modelled.
- `_read_file_content` catches only a missing file (app/tarot_agent/data_loader.py:36-40). A permission or decoding error propagates and aborts `load_all_cards`. The file system is a function from path to optional contents, so those failures are not modelled.
- Logging, the `allowed_topics` list and `export_blocked_requests` are left out, because they write to the log or to a file and decide nothing.
- The language model, the retrieval chain and the vector store are left out. They are the parameters described above, and the chain's own errors are an error value.
- Randomness is given as inputs. The unbounded `while True` retry loop becomes a finite stream of redraws. When the stream runs out, the reading is reported as never ending.
- The agent is stated for any image-path function. `Agent.ImagePaths` builds the one `_get_card_path` computes.
- The exception fallback of `_get_card_path` at app/tarot_agent/agent.py:184-187 is not modelled. Once the file tests are a predicate, nothing in the `try` block raises. `Deck.UnknownNameFallsBack` and `Deck.UnknownRankFallsBack` state the number 0 that unknown names and ranks get instead.
- The card type is either major or minor, the only two values the loader writes.
- The retrieval evaluator's card lists are kept as sets, because the source builds them from sets, which have no order.
- The `run_evaluation` driver, `explain_f1_score`'s printing, the numpy statistics and `save_results` are left out, because they are I/O.
- Rate limiting is modelled as the stub it is: the per-minute window is not implemented, so every request passes.
- Guards.ApplyGuardrails: takes the question as a parameter. The wrapper's lookup of it, `kwargs.get('question')` or else the second positional argument or else "", is not modelled. Its output screening only writes a warning to the log and changes neither the result nor the statistics, so it is left out.
- Integration.GetReadingSafe: takes the agent's outcome as a parameter rather than running the agent. The `get_reading_with_decorator` variant is `Guards.ApplyGuardrails`.
- The logger call in `TarotAgentWithGuardrails.__init__` fails, because the base agent defines no `logger` attribute. The model follows the intended check sequence instead.
- The demonstration's questions that are expected to succeed depend on the language model's answer and are not modelled.
- Integration.MedicalQuestionRefused: covers the demonstration's diagnosis question through its keyword, without evaluating every check on that literal question.
- The `if sentences else 0` branch of `evaluate_response_quality` is never taken, since `split` always returns at least one piece. The model has no such branch: `Text.Split` promises at least one piece.
- Observability.CostNonNegative: requires non-negative token counts. A usage record with a negative count would give a negative cost.
- The LangSmith client calls in `observability.py` are left out, because they only talk to a remote service. These are `create_trace`, `finalize_trace`, `log_llm_call`, `log_error`, the timers and `print_trace_summary`. Only their pure label and preview formatting is modelled.
- The source needs Python 3.12 or later: app/tarot_agent/agent.py:301 puts a backslash inside an f-string expression, which earlier versions reject.
- Following the code, `_draw_cards(79)` returns 78 cards rather than failing, since a Python slice clamps its bound. A negative count also counts from the end.
