/** The card data loader (`data_loader.py`): reading the six text files of
    every card from the card folders, in deck order, and shaping three
    vector-store documents per card.  The file system is a parameter:
    `files(path)` is the text of the file at `path`, or None when there is
    no such file. */
module DataLoader {
  import opened Text
  import opened Deck

  /** The two values `card_type` takes. */
  datatype CardType = Major | Minor

  /** `card_type` as stored in the metadata. */
  function TypeName(t: CardType): string
  {
    if t == Major then "major" else "minor"
  }

  /** `card_type.title()`. */
  function TypeTitle(t: CardType): string
  {
    if t == Major then "Major" else "Minor"
  }

  /** `title()` upper-cases the first letter and keeps the rest. */
  lemma TypeTitleCapitalises(t: CardType)
    ensures var title := TypeTitle(t);
            |title| == |TypeName(t)| && title[1..] == TypeName(t)[1..]
            && title[0] == (TypeName(t)[0] as int - 32) as char
  {
  }

  /** The `TarotCard` dataclass. */
  datatype TarotCard = TarotCard(
    name: string,
    description: string,
    uprightMeaning: string,
    reversedMeaning: string,
    shortUpright: string,
    shortReversed: string,
    cardType: CardType,
    suit: Option<string>)

  // ---------------------------------------------------------------------
  // Paths and files
  // ---------------------------------------------------------------------

  /** `os.path.join(a, b)` on POSIX: an absolute `b` replaces `a`; a
      separator is inserted unless `a` is empty or already ends with one. */
  function PathJoin(a: string, b: string): string
  {
    if |b| > 0 && b[0] == '/' then b
    else if a == [] || a[|a| - 1] == '/' then a + b
    else a + "/" + b
  }

  /** The joined path ends with the name joined. */
  lemma PathJoinEndsWith(a: string, b: string)
    ensures EndsWith(PathJoin(a, b), b)
  {
    var p := PathJoin(a, b);
    if !(|b| > 0 && b[0] == '/') {
      var prefix := if a == [] || a[|a| - 1] == '/' then a else a + "/";
      assert p == prefix + b;
      assert p[|p| - |b|..] == b;
    }
  }

  /** Joining different relative names onto the same folder gives
      different paths. */
  lemma PathJoinInjective(a: string, b1: string, b2: string)
    requires |b1| > 0 && b1[0] != '/' && |b2| > 0 && b2[0] != '/'
    ensures PathJoin(a, b1) == PathJoin(a, b2) ==> b1 == b2
  {
    var p1, p2 := PathJoin(a, b1), PathJoin(a, b2);
    if p1 == p2 {
      var prefix := if a == [] || a[|a| - 1] == '/' then a else a + "/";
      assert p1 == prefix + b1 && p2 == prefix + b2;
      assert b1 == p1[|prefix|..] && b2 == p2[|prefix|..];
    }
  }

  /** `major_arcana_path`. */
  function MajorArcanaPath(basePath: string): string
  {
    PathJoin(basePath, "MajorArcana")
  }

  /** `minor_arcana_paths[suit]`; the dictionary lists the suits in
      `Suits` order. */
  function MinorArcanaPath(basePath: string, suit: string): string
  {
    PathJoin(basePath, "MinorArcana_" + suit)
  }

  /** `_read_file_content(path)`: the stripped text of the file, or "" when
      it does not exist. */
  function ReadFileContent(files: string -> Option<string>, path: string): string
  {
    match files(path)
    case None => ""
    case Some(text) => Strip(text)
  }

  /** A missing file reads as ""; so does a blank one; any other file reads
      as its text without white space at either end. */
  lemma ReadFileContentMeaning(files: string -> Option<string>, path: string)
    ensures var r := ReadFileContent(files, path);
            (files(path).None? ==> r == "")
            && (r == "" <==> files(path).None? || IsBlank(files(path).value))
            && (r == [] || (!IsSpace(r[0]) && !IsSpace(r[|r| - 1])))
  {
    if files(path).Some? {
      StripEmptyIffBlank(files(path).value);
      StripTrims(files(path).value);
    }
  }

  /** The six files of a card, in the order of the dataclass fields. */
  const FileSuffixes: seq<string> :=
    ["-name.txt", "-desc.txt", "-umean.txt", "-rmean.txt", "-short-u.txt", "-short-r.txt"]

  /** `os.path.join(card_path, f'{n}{suffix}')` for field `field`. */
  function CardFile(cardPath: string, n: nat, field: nat): string
    requires field < |FileSuffixes|
  {
    PathJoin(cardPath, DecimalString(n) + FileSuffixes[field])
  }

  /** The six files of a card are six different files. */
  lemma CardFilesDistinct(cardPath: string, n: nat, f: nat, g: nat)
    requires f < |FileSuffixes| && g < |FileSuffixes| && f != g
    ensures CardFile(cardPath, n, f) != CardFile(cardPath, n, g)
  {
    var d := DecimalString(n);
    assert IsDigit(d[0]);
    PathJoinInjective(cardPath, d + FileSuffixes[f], d + FileSuffixes[g]);
    assert FileSuffixes[f] == (d + FileSuffixes[f])[|d|..];
    assert FileSuffixes[g] == (d + FileSuffixes[g])[|d|..];
  }

  /** `_load_card_data(n, card_path, card_type, suit)`. */
  function LoadCardData(files: string -> Option<string>, n: nat, cardPath: string,
                        cardType: CardType, suit: Option<string>): TarotCard
  {
    TarotCard(
      ReadFileContent(files, CardFile(cardPath, n, 0)),
      ReadFileContent(files, CardFile(cardPath, n, 1)),
      ReadFileContent(files, CardFile(cardPath, n, 2)),
      ReadFileContent(files, CardFile(cardPath, n, 3)),
      ReadFileContent(files, CardFile(cardPath, n, 4)),
      ReadFileContent(files, CardFile(cardPath, n, 5)),
      cardType, suit)
  }

  /** A card's data depends on its six files and on nothing else of the
      file system. */
  lemma LoadCardDataReadsSixFiles(files1: string -> Option<string>, files2: string -> Option<string>,
                                  n: nat, cardPath: string, cardType: CardType, suit: Option<string>)
    requires forall f :: 0 <= f < |FileSuffixes| ==> files1(CardFile(cardPath, n, f)) == files2(CardFile(cardPath, n, f))
    ensures LoadCardData(files1, n, cardPath, cardType, suit) == LoadCardData(files2, n, cardPath, cardType, suit)
  {
    assert forall f :: 0 <= f < |FileSuffixes| ==>
      ReadFileContent(files1, CardFile(cardPath, n, f)) == ReadFileContent(files2, CardFile(cardPath, n, f));
  }

  /** Each field comes from its own file: a file system holding only the
      description file yields that text as the description and leaves every
      other text field empty. */
  lemma EachFieldItsOwnFile(n: nat, cardPath: string, text: string)
    requires text != [] && !IsSpace(text[0]) && !IsSpace(text[|text| - 1])
    ensures var only := (p: string) => if p == CardFile(cardPath, n, 1) then Some(text) else None;
            var card := LoadCardData(only, n, cardPath, Major, None);
            card.description == text
            && card.name == "" && card.uprightMeaning == "" && card.reversedMeaning == ""
            && card.shortUpright == "" && card.shortReversed == ""
  {
    var only := (p: string) => if p == CardFile(cardPath, n, 1) then Some(text) else None;
    forall f | 0 <= f < |FileSuffixes| && f != 1
      ensures only(CardFile(cardPath, n, f)) == None
    {
      CardFilesDistinct(cardPath, n, f, 1);
    }
    StripOfTrimmed(text);
  }

  /** Text that neither starts nor ends with white space is its own
      `strip()`. */
  lemma StripOfTrimmed(text: string)
    requires text != [] && !IsSpace(text[0]) && !IsSpace(text[|text| - 1])
    ensures Strip(text) == text
  {
  }

  // ---------------------------------------------------------------------
  // load_all_cards
  // ---------------------------------------------------------------------

  /** The `(number, folder, type, suit)` the two loops of `load_all_cards`
      pass for the `k`-th card: majors 0-21 first, then the 14 numbers of
      each suit in `Suits` order. */
  function CardData(basePath: string, files: string -> Option<string>, k: nat): TarotCard
    requires k < DeckSize
  {
    if k < 22 then LoadCardData(files, k, MajorArcanaPath(basePath), Major, None)
    else
      var s := SuitIndex(k);
      LoadCardData(files, k - 22 - 14 * s, MinorArcanaPath(basePath, Suits[s]), Minor, Some(Suits[s]))
  }

  /** The suit loop iteration that loads minor card `k`. */
  function SuitIndex(k: nat): (s: nat)
    requires 22 <= k < DeckSize
    ensures s < 4 && 22 + 14 * s <= k < 22 + 14 * (s + 1)
  {
    if k < 36 then 0 else if k < 50 then 1 else if k < 64 then 2 else 3
  }

  /** The card the inner loop loads at rank `r` of suit `s`. */
  lemma MinorCardData(basePath: string, files: string -> Option<string>, s: nat, r: nat)
    requires s < 4 && r < 14
    ensures 22 + 14 * s + r < DeckSize
    ensures CardData(basePath, files, 22 + 14 * s + r)
            == LoadCardData(files, r, MinorArcanaPath(basePath, Suits[s]), Minor, Some(Suits[s]))
  {
    assert SuitIndex(22 + 14 * s + r) == s;
  }

  /** `load_all_cards()`. */
  method LoadAllCards(basePath: string, files: string -> Option<string>) returns (cards: seq<TarotCard>)
    ensures |cards| == DeckSize
    ensures forall k :: 0 <= k < DeckSize ==> cards[k] == CardData(basePath, files, k)
  {
    cards := [];
    for i := 0 to 22
      invariant |cards| == i
      invariant forall k :: 0 <= k < i ==> cards[k] == CardData(basePath, files, k)
    {
      cards := cards + [LoadCardData(files, i, MajorArcanaPath(basePath), Major, None)];
    }
    for s := 0 to 4
      invariant |cards| == 22 + 14 * s
      invariant forall k :: 0 <= k < |cards| ==> cards[k] == CardData(basePath, files, k)
    {
      cards := LoadSuit(basePath, files, s, cards);
    }
  }

  /** One turn of the suit loop of `load_all_cards()`: the 14 cards of suit
      `s`, appended after the cards of the suits before it. */
  method LoadSuit(basePath: string, files: string -> Option<string>, s: nat, before: seq<TarotCard>)
    returns (cards: seq<TarotCard>)
    requires s < 4 && |before| == 22 + 14 * s
    requires forall k :: 0 <= k < |before| ==> before[k] == CardData(basePath, files, k)
    ensures |cards| == 22 + 14 * (s + 1) && cards[..|before|] == before
    ensures forall k :: 0 <= k < |cards| ==> cards[k] == CardData(basePath, files, k)
  {
    cards := before;
    var suit := Suits[s];
    var path := MinorArcanaPath(basePath, suit);
    for r := 0 to 14
      invariant |cards| == 22 + 14 * s + r && cards[..|before|] == before
      invariant forall k :: 0 <= k < |cards| ==> cards[k] == CardData(basePath, files, k)
    {
      MinorCardData(basePath, files, s, r);
      cards := cards + [LoadCardData(files, r, path, Minor, Some(suit))];
    }
  }

  /** The majors come first with no suit; then each suit's 14 minors. */
  lemma CardDataOrder(basePath: string, files: string -> Option<string>, k: nat)
    requires k < DeckSize
    ensures var card := CardData(basePath, files, k);
            (k < 22 <==> card.cardType == Major)
            && (card.suit == None <==> k < 22)
            && (k >= 22 ==> card.suit == Some(Suits[SuitIndex(k)]))
  {
  }

  /** The files of the `k`-th card live in the same folder, under the same
      number, as the image the agent shows for the `k`-th name of the deck. */
  lemma CardDataMatchesImages(basePath: string, files: string -> Option<string>, k: nat)
    requires k < DeckSize
    ensures |AllCards| == DeckSize
    ensures var loc := CardLocation(AllCards[k]);
            exists n: nat ::
              DecimalString(n) == loc.number
              && CardData(basePath, files, k) == LoadCardData(files, n, PathJoin(basePath, loc.directory),
                                                             if k < 22 then Major else Minor,
                                                             if k < 22 then None else Some(Suits[SuitIndex(k)]))
  {
    DeckLocations();
    var n: nat := if k < 22 then k else k - 22 - 14 * SuitIndex(k);
    if k >= 22 {
      assert (k - 22) / 14 == SuitIndex(k) && (k - 22) % 14 == n;
    }
    assert DecimalString(n) == ExpectedLocation(k).number;
  }

  // ---------------------------------------------------------------------
  // prepare_documents
  // ---------------------------------------------------------------------

  /** One entry of `documents`: `content` and `metadata`. */
  datatype Document = Document(content: string, metadata: map<string, string>)

  /** `card.suit if card.suit else 'NA'`. */
  function SuitLabel(suit: Option<string>): string
  {
    if suit.Some? && suit.value != "" then suit.value else "NA"
  }

  /** The suit line of the templates: empty for a card without a suit. */
  function SuitLine(suit: Option<string>): string
  {
    if suit.Some? && suit.value != "" then "Suit: " + suit.value else ""
  }

  /** The indentation of the template lines. */
  const Margin: string := "                "
  const AspectMargin: string := "                    "

  /** The metadata every document of a card carries. */
  function CardMetadata(card: TarotCard): map<string, string>
  {
    map["name" := card.name, "type" := TypeName(card.cardType), "suit" := SuitLabel(card.suit)]
  }

  const CardPrefix: string := "Card: "
  const TypePrefix: string := "Type: "
  const UprightKeys: string := "Key upright meanings: "
  const ReversedKeys: string := "Key reversed meanings: "
  const AspectKeys: string := "Key meanings: "

  /** The first line of a document: `Card: <name>` and, for an aspect
      document, the aspect in parentheses. */
  function HeadLine(card: TarotCard, aspect: Option<string>): string
  {
    CardPrefix + card.name + (if aspect.Some? then " (" + aspect.value + ")" else "")
  }

  /** The `Type:` line both templates share. */
  function TypeLine(card: TarotCard): string
  {
    TypePrefix + TypeTitle(card.cardType) + " Arcana"
  }

  /** The text of a triple-quoted template: each body line on a line of
      its own, after a line break and the margin. */
  function Template(margin: string, body: seq<string>): string
  {
    if body == [] then "" else "\n" + margin + body[0] + Template(margin, body[1..])
  }

  /** The body of the comprehensive template, before indentation: the
      last, empty line is the indentation before the closing quotes. */
  function FullBody(card: TarotCard): seq<string>
  {
    [HeadLine(card, None), TypeLine(card), SuitLine(card.suit), "",
     "Description:", card.description, "",
     "Upright Meaning:", card.uprightMeaning, UprightKeys + card.shortUpright, "",
     "Reversed Meaning:", card.reversedMeaning, ReversedKeys + card.shortReversed, ""]
  }

  /** The comprehensive document of a card: the template starts with a
      line break after the opening quotes. */
  function FullDocument(card: TarotCard): Document
  {
    Document(Strip(Template(Margin, FullBody(card))), CardMetadata(card))
  }

  /** The body of an aspect template. */
  function AspectBody(card: TarotCard, aspect: string, meaning: string, short: string): seq<string>
  {
    [HeadLine(card, Some(aspect)), TypeLine(card), SuitLine(card.suit), "",
     meaning, "", AspectKeys + short, ""]
  }

  /** The document for one `(aspect, meaning, short)` of a card. */
  function AspectDocument(card: TarotCard, aspect: string, meaning: string, short: string): Document
  {
    Document(Strip(Template(AspectMargin, AspectBody(card, aspect, meaning, short))),
             CardMetadata(card)["aspect" := aspect])
  }

  /** The `aspects` list of a card. */
  function Aspects(card: TarotCard): seq<(string, string, string)>
  {
    [("upright", card.uprightMeaning, card.shortUpright),
     ("reversed", card.reversedMeaning, card.shortReversed)]
  }

  /** The documents of one card, in the order they are appended. */
  function CardDocuments(card: TarotCard): (docs: seq<Document>)
    ensures |docs| == 3
  {
    var aspects := Aspects(card);
    [FullDocument(card)]
    + [AspectDocument(card, aspects[0].0, aspects[0].1, aspects[0].2)]
    + [AspectDocument(card, aspects[1].0, aspects[1].1, aspects[1].2)]
  }

  /** The documents of a list of cards: each card's three, in card order. */
  function DocumentsOf(cards: seq<TarotCard>): (docs: seq<Document>)
    ensures |docs| == 3 * |cards|
  {
    if cards == [] then []
    else DocumentsOf(cards[..|cards| - 1]) + CardDocuments(cards[|cards| - 1])
  }

  /** Document `3 * i + j` is document `j` of card `i`. */
  lemma {:induction false} DocumentsOfAt(cards: seq<TarotCard>, i: nat, j: nat)
    requires i < |cards| && j < 3
    ensures DocumentsOf(cards)[3 * i + j] == CardDocuments(cards[i])[j]
  {
    var init := cards[..|cards| - 1];
    if i < |cards| - 1 {
      DocumentsOfAt(init, i, j);
      assert init[i] == cards[i];
    }
  }

  /** The three documents of a card: the comprehensive one without an
      aspect, then the upright and the reversed aspect; all name the card,
      its type and its suit or 'NA'. */
  lemma CardDocumentsMetadata(card: TarotCard)
    ensures var docs := CardDocuments(card);
            && (forall j :: 0 <= j < 3 ==>
                  docs[j].metadata["name"] == card.name
                  && docs[j].metadata["type"] == TypeName(card.cardType)
                  && docs[j].metadata["suit"] == SuitLabel(card.suit))
            && "aspect" !in docs[0].metadata
            && docs[1].metadata["aspect"] == "upright"
            && docs[2].metadata["aspect"] == "reversed"
  {
  }

  /** Each content starts with its `Card:` line: the card's name, and for
      the aspect documents the aspect in parentheses. */
  lemma CardDocumentsContent(card: TarotCard)
    ensures var docs := CardDocuments(card);
            && HeadLine(card, None) + "\n" <= docs[0].content
            && HeadLine(card, Some("upright")) + "\n" <= docs[1].content
            && HeadLine(card, Some("reversed")) + "\n" <= docs[2].content
  {
    TemplateHead(Margin, FullBody(card));
    AspectContentHead(card, "upright", card.uprightMeaning, card.shortUpright);
    AspectContentHead(card, "reversed", card.reversedMeaning, card.shortReversed);
  }

  lemma AspectContentHead(card: TarotCard, aspect: string, meaning: string, short: string)
    ensures HeadLine(card, Some(aspect)) + "\n" <= AspectDocument(card, aspect, meaning, short).content
  {
    TemplateHead(AspectMargin, AspectBody(card, aspect, meaning, short));
  }

  /** A template whose first two body lines start with a letter strips to
      text starting with the first body line and its line break. */
  lemma TemplateHead(margin: string, body: seq<string>)
    requires IsBlank(margin) && |body| >= 2
    requires |body[0]| > 0 && !IsSpace(body[0][0]) && |body[1]| > 0 && !IsSpace(body[1][0])
    ensures body[0] + "\n" <= Strip(Template(margin, body))
  {
    var tail := Template(margin, body[1..]);
    assert body[1..][1..] == body[2..];
    assert tail == "\n" + margin + body[1] + Template(margin, body[2..]);
    assert tail[1..] == margin + body[1] + Template(margin, body[2..]);
    assert Template(margin, body) == ("\n" + margin) + (body[0] + "\n") + tail[1..];
    assert tail[1..][|margin|] == body[1][0];
    assert IsBlank("\n" + margin);
    StripKeepsHead("\n" + margin, body[0] + "\n", tail[1..], |margin|);
  }

  /** Only cards with a suit are labelled with one. */
  lemma SuitLabelNA(basePath: string, files: string -> Option<string>, k: nat)
    requires k < DeckSize
    ensures var card := CardData(basePath, files, k);
            (SuitLabel(card.suit) == "NA" <==> k < 22)
            && (k >= 22 ==> SuitLabel(card.suit) == Suits[SuitIndex(k)])
  {
  }

  /** `prepare_documents()`: load every card, then render its documents. */
  method PrepareDocuments(basePath: string, files: string -> Option<string>) returns (documents: seq<Document>)
    ensures |documents| == 3 * DeckSize
    ensures forall k, j :: 0 <= k < DeckSize && 0 <= j < 3 ==>
              documents[3 * k + j] == CardDocuments(CardData(basePath, files, k))[j]
  {
    var cards := LoadAllCards(basePath, files);
    documents := RenderDocuments(cards);
    forall k, j | 0 <= k < DeckSize && 0 <= j < 3
      ensures documents[3 * k + j] == CardDocuments(CardData(basePath, files, k))[j]
    {
      DocumentsOfAt(cards, k, j);
    }
  }

  /** The loop of `prepare_documents()` over the cards. */
  method RenderDocuments(cards: seq<TarotCard>) returns (documents: seq<Document>)
    ensures documents == DocumentsOf(cards)
  {
    documents := [];
    for c := 0 to |cards|
      invariant documents == DocumentsOf(cards[..c])
    {
      DocumentsOfSnoc(cards, c);
      documents := AppendCardDocuments(documents, cards[c]);
    }
    assert cards[..|cards|] == cards;
  }

  /** One card's turn of that loop: its comprehensive document, then one
      document per aspect. */
  method AppendCardDocuments(before: seq<Document>, card: TarotCard) returns (documents: seq<Document>)
    ensures documents == before + CardDocuments(card)
  {
    ghost var docs := CardDocuments(card);
    CardDocumentsAre(card);
    documents := before + [FullDocument(card)];
    var aspects := Aspects(card);
    for j := 0 to |aspects|
      invariant documents == before + docs[..j + 1]
    {
      var (aspect, meaning, short) := aspects[j];
      documents := documents + [AspectDocument(card, aspect, meaning, short)];
      assert docs[..j + 2] == docs[..j + 1] + [docs[j + 1]];
    }
    assert docs[..3] == docs;
  }

  /** The documents of one more card come after those of the cards
      before it. */
  lemma DocumentsOfSnoc(cards: seq<TarotCard>, c: nat)
    requires c < |cards|
    ensures DocumentsOf(cards[..c + 1]) == DocumentsOf(cards[..c]) + CardDocuments(cards[c])
  {
    assert cards[..c + 1][..c] == cards[..c];
  }

  /** A card's documents are its comprehensive one, then one for each of
      its aspects, in order. */
  lemma CardDocumentsAre(card: TarotCard)
    ensures forall j :: 0 <= j < 2 ==>
              CardDocuments(card)[j + 1] == AspectDocument(card, Aspects(card)[j].0, Aspects(card)[j].1, Aspects(card)[j].2)
    ensures CardDocuments(card)[0] == FullDocument(card)
  {
  }
}
