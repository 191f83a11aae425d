/** The reading agent (`agent.py`): drawing cards, looking up what the
    vector store knows about them, assembling the context with redraws for
    cards it knows nothing about, and turning the model's answer into a
    reading.  The shuffle, the orientation coins, the image-file test, the
    vector-store search and the language-model chain are parameters. */
module Agent {
  import opened Text
  import opened Deck

  // ---------------------------------------------------------------------
  // Drawing (`_draw_cards`)
  // ---------------------------------------------------------------------

  /** One entry of `drawn_cards`: `name`, `is_reversed`, `image_path`. */
  datatype DrawnCard = DrawnCard(name: string, isReversed: bool, imagePath: string)

  /** `_get_card_path` over the image folder `assetExists` describes. The
      agent below is stated for any path function `pathOf`; a reading uses
      this one. */
  function ImagePaths(assetExists: string -> bool): (string, bool) -> string
  {
    (name, isReversed) => CardPath(name, isReversed, assetExists)
  }

  /** The entry for a card drawn with the given orientation; `pathOf`
      gives its `image_path`. */
  function Card(name: string, isReversed: bool, pathOf: (string, bool) -> string): DrawnCard
  {
    DrawnCard(name, isReversed, pathOf(name, isReversed))
  }

  /** A shuffle of the 78 positions of the deck. */
  predicate IsPermutation(perm: seq<nat>)
  {
    |perm| == DeckSize
    && (forall i :: 0 <= i < |perm| ==> perm[i] < DeckSize)
    && (forall i, j :: 0 <= i < j < |perm| ==> perm[i] != perm[j])
  }

  /** Length of `all_cards[:n]` for the 78-card list: Python clamps a
      large `n` to 78 and counts a negative `n` from the end. */
  function DrawCount(n: int): (k: nat)
    ensures k <= DeckSize
    ensures 0 <= n <= DeckSize ==> k == n
    ensures n > DeckSize ==> k == DeckSize
    ensures n < 0 ==> k == (if DeckSize + n < 0 then 0 else DeckSize + n)
  {
    if n >= DeckSize then DeckSize
    else if n >= 0 then n
    else if DeckSize + n < 0 then 0
    else DeckSize + n
  }

  /** The first `k` cards `_draw_cards` appends after `random.shuffle`
      produced `perm` and the i-th `random.choice` produced `coins(i)`. */
  function DrawPrefix(k: nat, perm: seq<nat>, coins: nat -> bool, pathOf: (string, bool) -> string): (d: seq<DrawnCard>)
    requires IsPermutation(perm) && k <= DeckSize
    ensures |d| == k
  {
    if k == 0 then []
    else
      MajorName(0);
      DrawPrefix(k - 1, perm, coins, pathOf) + [Card(AllCards[perm[k - 1]], coins(k - 1), pathOf)]
  }

  /** `_draw_cards(n)`: the cards of `all_cards[:n]` after the shuffle. */
  function Draw(n: int, perm: seq<nat>, coins: nat -> bool, pathOf: (string, bool) -> string): seq<DrawnCard>
    requires IsPermutation(perm)
  {
    DrawPrefix(DrawCount(n), perm, coins, pathOf)
  }

  lemma {:induction false} DrawPrefixAt(k: nat, perm: seq<nat>, coins: nat -> bool, pathOf: (string, bool) -> string, i: nat)
    requires IsPermutation(perm) && i < k <= DeckSize
    ensures |AllCards| == DeckSize
    ensures DrawPrefix(k, perm, coins, pathOf)[i] == Card(AllCards[perm[i]], coins(i), pathOf)
  {
    MajorName(0);
    if i < k - 1 {
      DrawPrefixAt(k - 1, perm, coins, pathOf, i);
    }
  }

  /** The draw is a prefix of the shuffled deck: `min(n, 78)` cards (or
      78 + n for negative n), pairwise different, each with its coin and
      the image path for its name and orientation. */
  lemma DrawProperties(n: int, perm: seq<nat>, coins: nat -> bool, pathOf: (string, bool) -> string)
    requires IsPermutation(perm)
    ensures var drawn := Draw(n, perm, coins, pathOf);
            |drawn| == DrawCount(n)
            && (forall i :: 0 <= i < |drawn| ==>
                  drawn[i].name == AllCards[perm[i]] && drawn[i].isReversed == coins(i)
                  && drawn[i].imagePath == pathOf(drawn[i].name, coins(i)))
            && (forall i, j :: 0 <= i < j < |drawn| ==> drawn[i].name != drawn[j].name)
  {
    var drawn := Draw(n, perm, coins, pathOf);
    forall i | 0 <= i < |drawn|
      ensures drawn[i].name == AllCards[perm[i]] && drawn[i].isReversed == coins(i)
      ensures drawn[i].imagePath == pathOf(drawn[i].name, coins(i))
    {
      DrawPrefixAt(DrawCount(n), perm, coins, pathOf, i);
    }
    forall i, j | 0 <= i < j < |drawn| ensures drawn[i].name != drawn[j].name {
      CardsDiffer(perm[i], perm[j]);
    }
  }

  /** `_draw_cards(n)`. */
  method DrawCards(n: int, perm: seq<nat>, coins: nat -> bool, pathOf: (string, bool) -> string)
    returns (drawn: seq<DrawnCard>)
    requires IsPermutation(perm)
    ensures drawn == Draw(n, perm, coins, pathOf)
  {
    MajorName(0);
    drawn := [];
    var count := DrawCount(n);
    for i := 0 to count
      invariant drawn == DrawPrefix(i, perm, coins, pathOf)
    {
      var name := AllCards[perm[i]];
      var isReversed := coins(i);
      drawn := drawn + [Card(name, isReversed, pathOf)];
    }
  }

  // ---------------------------------------------------------------------
  // Card information (`get_card_info`)
  // ---------------------------------------------------------------------

  /** A retrieved document: its text and its metadata. */
  datatype Doc = Doc(pageContent: string, metadata: map<string, string>)

  /** The dictionary `get_card_info` returns: only `content` and
      `metadata`. */
  datatype CardInfo = CardInfo(content: string, metadata: map<string, string>)

  /** The query sent to `similarity_search(..., k=1)`. */
  function InfoQuery(name: string): string
  {
    InfoQueryPrefix + name
  }

  const InfoQueryPrefix: string := "Детальна інформація про карту "

  /** `get_card_info(name)`: the first document found, or None. */
  function GetCardInfo(name: string, search: string -> seq<Doc>): (r: Option<CardInfo>)
    ensures r.None? <==> search(InfoQuery(name)) == []
    ensures r.Some? ==> r.value.content == search(InfoQuery(name))[0].pageContent
                        && r.value.metadata == search(InfoQuery(name))[0].metadata
  {
    var docs := search(InfoQuery(name));
    if docs == [] then None else Some(CardInfo(docs[0].pageContent, docs[0].metadata))
  }

  /** The search text carries the card's name whole after the fixed
      prefix, so cards with different names are looked up by different
      queries. */
  lemma InfoQueryNamesCard(name: string, other: string)
    ensures |InfoQuery(name)| == |InfoQueryPrefix| + |name|
    ensures InfoQuery(name)[|InfoQueryPrefix|..] == name
    ensures InfoQuery(name) == InfoQuery(other) ==> name == other
  {
    assert InfoQuery(name)[|InfoQueryPrefix|..] == name;
    assert InfoQuery(other)[|InfoQueryPrefix|..] == other;
  }

  /** `card_info.get(key, default)` for a text key: only `content` is
      present. */
  function InfoText(info: CardInfo, key: string, default: string): string
  {
    if key == "content" then info.content else default
  }

  function Position(isReversed: bool): string
  {
    if isReversed then ReversedLabel else UprightLabel
  }

  const ReversedLabel: string := "перевернутому положенні"
  const UprightLabel: string := "прямому положенні"
  const CardLabel: string := "Карта "

  /** One entry of `cards_context`: the position label from the
      orientation, and `rmean` or `umean` looked up with the content as
      fallback. */
  function Fragment(card: DrawnCard, info: CardInfo): (fragment: string)
  {
    var key := if card.isReversed then "rmean" else "umean";
    CardLabel + card.name + " в " + Position(card.isReversed) + ":\n" + InfoText(info, key, info.content)
  }

  /** Since the dictionary never has `rmean` or `umean`, every fragment
      quotes the document content whatever the orientation; the two
      orientations differ only in the position label. */
  lemma FragmentQuotesContent(card: DrawnCard, info: CardInfo)
    ensures EndsWith(Fragment(card, info), info.content)
    ensures Fragment(card, info)
            == CardLabel + card.name + " в " + Position(card.isReversed) + ":\n" + info.content
  {
    var f := Fragment(card, info);
    assert f == (CardLabel + card.name + " в " + Position(card.isReversed) + ":\n") + info.content;
  }

  // ---------------------------------------------------------------------
  // Context assembly with redraws (the loop of `get_reading`)
  // ---------------------------------------------------------------------

  /** One `_draw_cards(1)[0]` made inside the retry loop: the deck position
      its shuffle put first, and its coin. */
  datatype Redraw = Redraw(index: nat, isReversed: bool)

  predicate ValidStream(stream: seq<Redraw>)
  {
    forall k :: 0 <= k < |stream| ==> stream[k].index < DeckSize
  }

  function RedrawCard(r: Redraw, pathOf: (string, bool) -> string): DrawnCard
    requires r.index < DeckSize
  {
    MajorName(0);
    Card(AllCards[r.index], r.isReversed, pathOf)
  }

  /** A redraw the retry loop accepted, its information, and the position
      of the first redraw still unused. */
  datatype Accepted = Accepted(card: DrawnCard, info: CardInfo, next: nat)

  /** The `while True` loop for a card named `missing`, from redraw `pos`
      on: redraw until the new card has another name and has information.
      None when the given redraws run out first, i.e. the loop has not
      ended on them. */
  function Replacement(missing: string, stream: seq<Redraw>, pos: nat, search: string -> seq<Doc>,
                       pathOf: (string, bool) -> string): (r: Option<Accepted>)
    requires ValidStream(stream) && pos <= |stream|
    ensures r.Some? ==> r.value.card.name != missing
                        && r.value.card.name in AllCards
                        && GetCardInfo(r.value.card.name, search) == Some(r.value.info)
                        && pos < r.value.next <= |stream|
    decreases |stream| - pos
  {
    if pos == |stream| then None
    else
      var card := RedrawCard(stream[pos], pathOf);
      var info := GetCardInfo(card.name, search);
      if card.name != missing && info.Some? then Some(Accepted(card, info.value, pos + 1))
      else Replacement(missing, stream, pos + 1, search, pathOf)
  }

  /** The context built so far and the cards kept, with the position of the
      first redraw still unused. */
  datatype Assembly = Assembly(context: seq<string>, finals: seq<DrawnCard>, next: nat)

  /** Puts already built fragments and cards in front of an assembly. */
  function Prepend(context: seq<string>, finals: seq<DrawnCard>, later: Option<Assembly>): Option<Assembly>
  {
    match later
    case None => None
    case Some(a) => Some(Assembly(context + a.context, finals + a.finals, a.next))
  }

  /** The `for card in drawn_cards` loop from card `i` and redraw `pos` on:
      a card with information adds its fragment and itself; a card without
      adds the fragment and entry of its replacement. None when the redraws
      run out in a retry loop. */
  function Assemble(drawn: seq<DrawnCard>, i: nat, stream: seq<Redraw>, pos: nat,
                    search: string -> seq<Doc>, pathOf: (string, bool) -> string): (r: Option<Assembly>)
    requires i <= |drawn| && ValidStream(stream) && pos <= |stream|
    ensures r.Some? ==> |r.value.context| == |drawn| - i && |r.value.finals| == |drawn| - i
                        && pos <= r.value.next <= |stream|
    decreases |drawn| - i
  {
    if i == |drawn| then Some(Assembly([], [], pos))
    else
      var card := drawn[i];
      match GetCardInfo(card.name, search)
      case Some(info) =>
        Prepend([Fragment(card, info)], [card], Assemble(drawn, i + 1, stream, pos, search, pathOf))
      case None =>
        match Replacement(card.name, stream, pos, search, pathOf)
        case None => None
        case Some(acc) =>
          Prepend([Fragment(acc.card, acc.info)], [acc.card],
                  Assemble(drawn, i + 1, stream, acc.next, search, pathOf))
  }

  lemma PrependNothing(later: Option<Assembly>)
    ensures Prepend([], [], later) == later
  {
    if later.Some? {
      assert [] + later.value.context == later.value.context;
      assert [] + later.value.finals == later.value.finals;
    }
  }

  lemma PrependTwice(c1: seq<string>, f1: seq<DrawnCard>, c2: seq<string>, f2: seq<DrawnCard>,
                     later: Option<Assembly>)
    ensures Prepend(c1, f1, Prepend(c2, f2, later)) == Prepend(c1 + c2, f1 + f2, later)
  {
    if later.Some? {
      assert c1 + (c2 + later.value.context) == (c1 + c2) + later.value.context;
      assert f1 + (f2 + later.value.finals) == (f1 + f2) + later.value.finals;
    }
  }

  /** What the assembly keeps for one drawn card: the card itself when the
      store knows it; otherwise another-named card of the deck that the
      store knows. The fragment describes the card kept. */
  predicate KeptFor(original: DrawnCard, kept: DrawnCard, fragment: string, search: string -> seq<Doc>)
  {
    && (GetCardInfo(original.name, search).Some? ==> kept == original)
    && (GetCardInfo(original.name, search).None? ==> kept.name != original.name && kept.name in AllCards)
    && GetCardInfo(kept.name, search).Some?
    && fragment == Fragment(kept, GetCardInfo(kept.name, search).value)
  }

  /** Position by position, every card kept and every fragment is
      `KeptFor` the card drawn at that position. */
  lemma {:induction false} AssembleMeaning(drawn: seq<DrawnCard>, i: nat, stream: seq<Redraw>, pos: nat,
                                           search: string -> seq<Doc>, pathOf: (string, bool) -> string)
    requires i <= |drawn| && ValidStream(stream) && pos <= |stream|
    requires Assemble(drawn, i, stream, pos, search, pathOf).Some?
    ensures var a := Assemble(drawn, i, stream, pos, search, pathOf).value;
            forall k :: 0 <= k < |a.finals| ==> KeptFor(drawn[i + k], a.finals[k], a.context[k], search)
    decreases |drawn| - i
  {
    if i < |drawn| {
      var a := Assemble(drawn, i, stream, pos, search, pathOf).value;
      var next := AssembleFirst(drawn, i, stream, pos, search, pathOf);
      var later := Assemble(drawn, i + 1, stream, next, search, pathOf).value;
      AssembleMeaning(drawn, i + 1, stream, next, search, pathOf);
      forall k | 1 <= k < |a.finals|
        ensures KeptFor(drawn[i + k], a.finals[k], a.context[k], search)
      {
        assert a.finals[k] == later.finals[k - 1] && a.context[k] == later.context[k - 1];
        assert drawn[i + k] == drawn[(i + 1) + (k - 1)];
      }
    }
  }

  /** The first card kept is `KeptFor` card `i`; the rest is the assembly
      of the later cards from the position of the redraws left. */
  lemma {:induction false} AssembleFirst(drawn: seq<DrawnCard>, i: nat, stream: seq<Redraw>, pos: nat,
                                         search: string -> seq<Doc>, pathOf: (string, bool) -> string)
    returns (next: nat)
    requires i < |drawn| && ValidStream(stream) && pos <= |stream|
    requires Assemble(drawn, i, stream, pos, search, pathOf).Some?
    ensures next <= |stream| && Assemble(drawn, i + 1, stream, next, search, pathOf).Some?
    ensures var a := Assemble(drawn, i, stream, pos, search, pathOf).value;
            var later := Assemble(drawn, i + 1, stream, next, search, pathOf).value;
            && KeptFor(drawn[i], a.finals[0], a.context[0], search)
            && a.finals[1..] == later.finals && a.context[1..] == later.context
  {
    match GetCardInfo(drawn[i].name, search) {
      case Some(info) =>
        next := pos;
      case None =>
        next := Replacement(drawn[i].name, stream, pos, search, pathOf).value.next;
    }
  }

  /** When every drawn card has information the redraws are never used and
      the cards kept are exactly the cards drawn. */
  lemma {:induction false} AllFoundKeepsDraw(drawn: seq<DrawnCard>, i: nat, stream: seq<Redraw>, pos: nat,
                                             search: string -> seq<Doc>, pathOf: (string, bool) -> string)
    requires i <= |drawn| && ValidStream(stream) && pos <= |stream|
    requires forall k :: i <= k < |drawn| ==> GetCardInfo(drawn[k].name, search).Some?
    ensures Assemble(drawn, i, stream, pos, search, pathOf).Some?
    ensures Assemble(drawn, i, stream, pos, search, pathOf).value.finals == drawn[i..]
    ensures Assemble(drawn, i, stream, pos, search, pathOf).value.next == pos
    decreases |drawn| - i
  {
    if i < |drawn| {
      AllFoundKeepsDraw(drawn, i + 1, stream, pos, search, pathOf);
      assert [drawn[i]] + drawn[i + 1..] == drawn[i..];
    }
  }

  lemma {:induction false} NoInfoNoReplacement(missing: string, stream: seq<Redraw>, pos: nat,
                                               search: string -> seq<Doc>, pathOf: (string, bool) -> string)
    requires ValidStream(stream) && pos <= |stream|
    requires forall q :: search(q) == []
    ensures Replacement(missing, stream, pos, search, pathOf) == None
    decreases |stream| - pos
  {
    if pos < |stream| {
      NoInfoNoReplacement(missing, stream, pos + 1, search, pathOf);
    }
  }

  /** When the store finds nothing for any card, the retry loop for the
      first card never ends, however many redraws are made. */
  lemma {:induction false} NoInfoRetriesForever(drawn: seq<DrawnCard>, stream: seq<Redraw>,
                             search: string -> seq<Doc>, pathOf: (string, bool) -> string)
    requires ValidStream(stream)
    requires drawn != [] && forall q :: search(q) == []
    ensures Assemble(drawn, 0, stream, 0, search, pathOf) == None
  {
    NoInfoNoReplacement(drawn[0].name, stream, 0, search, pathOf);
  }

  /** A replacement is only compared with the card it replaces, so the same
      card can end up in the reading twice: when the first card drawn is
      unknown to the store and the first redraw is the second card drawn. */
  lemma {:induction false} ReplacementCanDuplicate(missing: DrawnCard, stream: seq<Redraw>,
                                search: string -> seq<Doc>, pathOf: (string, bool) -> string)
    requires ValidStream(stream) && stream != []
    requires GetCardInfo(missing.name, search).None?
    requires GetCardInfo(AllCards[stream[0].index], search).Some? && AllCards[stream[0].index] != missing.name
    ensures var second := RedrawCard(stream[0], pathOf);
            var a := Assemble([missing, second], 0, stream, 0, search, pathOf);
            a.Some? && a.value.finals == [second, second] && a.value.next == 1
  {
    var second := RedrawCard(stream[0], pathOf);
    var info := GetCardInfo(second.name, search).value;
    assert Replacement(missing.name, stream, 0, search, pathOf) == Some(Accepted(second, info, 1));
    var drawn := [missing, second];
    assert Assemble(drawn, 2, stream, 1, search, pathOf) == Some(Assembly([], [], 1));
    var f := Fragment(second, info);
    assert [f] + [] == [f] && [second] + [] == [second];
    assert Assemble(drawn, 1, stream, 1, search, pathOf) == Some(Assembly([f], [second], 1));
  }

  /** The context-assembly loop of `get_reading`; `stream` holds the
      results of the successive `_draw_cards(1)` calls. */
  method AssembleContext(drawn: seq<DrawnCard>, stream: seq<Redraw>, search: string -> seq<Doc>,
                         pathOf: (string, bool) -> string)
    returns (r: Option<Assembly>)
    requires ValidStream(stream)
    ensures r == Assemble(drawn, 0, stream, 0, search, pathOf)
  {
    var context: seq<string> := [];
    var finals: seq<DrawnCard> := [];
    var pos := 0;
    PrependNothing(Assemble(drawn, 0, stream, 0, search, pathOf));
    for i := 0 to |drawn|
      invariant 0 <= pos <= |stream|
      invariant Assemble(drawn, 0, stream, 0, search, pathOf)
                == Prepend(context, finals, Assemble(drawn, i, stream, pos, search, pathOf))
    {
      var card := drawn[i];
      var cardInfo := GetCardInfo(card.name, search);
      if cardInfo.Some? {
        PrependTwice(context, finals, [Fragment(card, cardInfo.value)], [card],
                     Assemble(drawn, i + 1, stream, pos, search, pathOf));
        context := context + [Fragment(card, cardInfo.value)];
        finals := finals + [card];
      } else {
        ghost var start := pos;
        while true
          invariant start <= pos <= |stream|
          invariant Replacement(card.name, stream, start, search, pathOf)
                    == Replacement(card.name, stream, pos, search, pathOf)
          decreases |stream| - pos
        {
          if pos == |stream| {
            return None;
          }
          var newCard := RedrawCard(stream[pos], pathOf);
          var newInfo := GetCardInfo(newCard.name, search);
          pos := pos + 1;
          if newCard.name != card.name && newInfo.Some? {
            PrependTwice(context, finals, [Fragment(newCard, newInfo.value)], [newCard],
                         Assemble(drawn, i + 1, stream, pos, search, pathOf));
            context := context + [Fragment(newCard, newInfo.value)];
            finals := finals + [newCard];
            break;
          }
        }
      }
    }
    assert context + [] == context && finals + [] == finals;
    r := Some(Assembly(context, finals, pos));
  }

  // ---------------------------------------------------------------------
  // The prompt and the answer (`get_reading`)
  // ---------------------------------------------------------------------

  /** The spread line: each drawn card's name, marked when reversed. */
  function SpreadLine(drawn: seq<DrawnCard>): string
  {
    Join(", ", seq(|drawn|, i requires 0 <= i < |drawn| =>
                     drawn[i].name + (if drawn[i].isReversed then " (перевернута)" else "")))
  }

  const Indent: string := "            "
  const QuestionLabel: string := "Питання: "
  const SpreadLabel: string := "Розклад карт:\n"
  const InfoLabel: string := "Інформація про карти:\n"
  const Instructions: string := "Надайте детальну інтерпретацію цього розкладу в контексті питання користувача.\n"
  const Explain: string := "Поясніть значення кожної карти окремо, а потім як вони взаємодіють між собою.\n"

  /** `formatted_question`, line by line as the triple-quoted f-string
      lays it out. */
  function Prompt(question: string, drawn: seq<DrawnCard>, context: seq<string>): (prompt: string)
  {
    "\n"
    + Indent + QuestionLabel + question + "\n"
    + Indent + "\n"
    + Indent + SpreadLabel
    + Indent + SpreadLine(drawn) + "\n"
    + Indent + "\n"
    + Indent + InfoLabel
    + Indent + Join("\n\n", context) + "\n"
    + Indent + "\n"
    + Indent + Instructions
    + Indent + Explain
    + Indent
  }

  /** How `get_reading` ends: a reading, an exception with its message, or
      a retry loop that has not ended on the given redraws. */
  datatype ReadingOutcome =
    | Delivered(cards: seq<DrawnCard>, reading: string)
    | Raised(message: string)
    | RetriesForever

  const ChainMissingMessage: string := "Retrieval chain is not initialized"
  const EmptyResponseMessage: string := "Empty response from LLM"
  const NoAnswerMessage: string := "No 'answer' in LLM response"

  /** The end of `get_reading` once the context is assembled: require an
      initialised chain, ask it, and demand a non-empty response with an
      `answer`. */
  function Conclude(finals: seq<DrawnCard>, prompt: string, chainReady: bool,
                    chain: string -> Result<map<string, string>, string>): (r: ReadingOutcome)
    ensures r.Delivered? <==> chainReady && chain(prompt).Ok? && "answer" in chain(prompt).value
    ensures r.Delivered? ==> r.cards == finals && r.reading == chain(prompt).value["answer"]
    ensures !chainReady ==> r == Raised(ChainMissingMessage)
    ensures r != RetriesForever
  {
    if !chainReady then Raised(ChainMissingMessage)
    else match chain(prompt)
      case Err(e) => Raised(e)
      case Ok(response) =>
        if response == map[] then Raised(EmptyResponseMessage)
        else if "answer" !in response then Raised(NoAnswerMessage)
        else Delivered(finals, response["answer"])
  }

  /** What `get_reading(question, n)` does: draw, assemble the context,
      and only then consult the chain. */
  function ReadingOf(question: string, n: int, perm: seq<nat>, coins: nat -> bool, stream: seq<Redraw>,
                     search: string -> seq<Doc>, pathOf: (string, bool) -> string,
                     chainReady: bool, chain: string -> Result<map<string, string>, string>): (outcome: ReadingOutcome)
    requires IsPermutation(perm) && ValidStream(stream)
  {
    var drawn := Draw(n, perm, coins, pathOf);
    match Assemble(drawn, 0, stream, 0, search, pathOf)
    case None => RetriesForever
    case Some(a) => Conclude(a.finals, Prompt(question, drawn, a.context), chainReady, chain)
  }

  /** `get_reading(question, num_cards)`. */
  method GetReading(question: string, n: int, perm: seq<nat>, coins: nat -> bool, stream: seq<Redraw>,
                    search: string -> seq<Doc>, pathOf: (string, bool) -> string,
                    chainReady: bool, chain: string -> Result<map<string, string>, string>)
    returns (outcome: ReadingOutcome)
    requires IsPermutation(perm) && ValidStream(stream)
    ensures outcome == ReadingOf(question, n, perm, coins, stream, search, pathOf, chainReady, chain)
  {
    var drawn := DrawCards(n, perm, coins, pathOf);
    var assembled := AssembleContext(drawn, stream, search, pathOf);
    if assembled.None? {
      return RetriesForever;
    }
    var prompt := Prompt(question, drawn, assembled.value.context);
    ghost var expected := Conclude(assembled.value.finals, prompt, chainReady, chain);
    if !chainReady {
      return Raised(ChainMissingMessage);
    }
    var response := chain(prompt);
    if response.Err? {
      return Raised(response.error);
    }
    if response.value == map[] {
      return Raised(EmptyResponseMessage);
    }
    if "answer" !in response.value {
      return Raised(NoAnswerMessage);
    }
    outcome := Delivered(assembled.value.finals, response.value["answer"]);
  }

  /** A reading is delivered exactly when the assembly ends, the chain is
      ready and answers with an `answer`; a missing chain is reported only
      after the assembly has ended. */
  lemma ReadingDeliveredIff(question: string, n: int, perm: seq<nat>, coins: nat -> bool, stream: seq<Redraw>,
                            search: string -> seq<Doc>, pathOf: (string, bool) -> string,
                            chainReady: bool, chain: string -> Result<map<string, string>, string>)
    requires IsPermutation(perm) && ValidStream(stream)
    ensures var drawn := Draw(n, perm, coins, pathOf);
            var a := Assemble(drawn, 0, stream, 0, search, pathOf);
            var outcome := ReadingOf(question, n, perm, coins, stream, search, pathOf, chainReady, chain);
            (outcome.Delivered? <==>
               a.Some? && chainReady && chain(Prompt(question, drawn, a.value.context)).Ok?
               && "answer" in chain(Prompt(question, drawn, a.value.context)).value)
            && (outcome == RetriesForever <==> a.None?)
            && (a.Some? && !chainReady ==> outcome == Raised(ChainMissingMessage))
  {
    var drawn := Draw(n, perm, coins, pathOf);
    var a := Assemble(drawn, 0, stream, 0, search, pathOf);
    if a.Some? {
      var prompt := Prompt(question, drawn, a.value.context);
      assert ReadingOf(question, n, perm, coins, stream, search, pathOf, chainReady, chain)
             == Conclude(a.value.finals, prompt, chainReady, chain);
    }
  }

  /** A delivered reading holds one card per card drawn, each one the store
      has information on, in draw order where the store knew the drawn
      card. */
  lemma ReadingCards(question: string, n: int, perm: seq<nat>, coins: nat -> bool, stream: seq<Redraw>,
                     search: string -> seq<Doc>, pathOf: (string, bool) -> string,
                     chainReady: bool, chain: string -> Result<map<string, string>, string>)
    requires IsPermutation(perm) && ValidStream(stream)
    requires ReadingOf(question, n, perm, coins, stream, search, pathOf, chainReady, chain).Delivered?
    ensures var drawn := Draw(n, perm, coins, pathOf);
            var cards := ReadingOf(question, n, perm, coins, stream, search, pathOf, chainReady, chain).cards;
            |cards| == DrawCount(n)
            && forall i :: 0 <= i < |cards| ==>
                 GetCardInfo(cards[i].name, search).Some?
                 && (GetCardInfo(drawn[i].name, search).Some? ==> cards[i] == drawn[i])
                 && (GetCardInfo(drawn[i].name, search).None? ==>
                       cards[i].name != drawn[i].name && cards[i].name in AllCards)
  {
    var drawn := Draw(n, perm, coins, pathOf);
    DrawProperties(n, perm, coins, pathOf);
    AssembleMeaning(drawn, 0, stream, 0, search, pathOf);
  }
}
