/** The fixed 78-card deck of the agent and the mapping from a card name
    to the image the reading shows (`_get_card_path`). */
module Deck {
  import opened Text

  // ---------------------------------------------------------------------
  // The deck literal, in its five commented groups
  // ---------------------------------------------------------------------

  /** The major arcana in canonical order 0-21. The hallucination detector
      lists the same 22 names in the same order. */
  const MajorArcana: seq<string> := [
    "The Fool", "The Magician", "The High Priestess", "The Empress", "The Emperor",
    "The Hierophant", "The Lovers", "The Chariot", "Strength", "The Hermit",
    "Wheel of Fortune", "Justice", "The Hanged Man", "Death", "Temperance",
    "The Devil", "The Tower", "The Star", "The Moon", "The Sun",
    "Judgement", "The World"
  ]

  /** The 56 minor arcana as the deck literal lists them: suit by suit in
      `Suits` order, "Ace of <suit>" to "King of <suit>" within a suit. */
  const MinorArcana: seq<string> := MinorCards()

  function MinorCards(): (cards: seq<string>)
    ensures |cards| == 56
    ensures forall i :: 0 <= i < 56 ==> cards[i] == Ranks[i % 14] + " of " + Suits[i / 14]
  {
    seq(56, i requires 0 <= i < 56 => Ranks[i % 14] + " of " + Suits[i / 14])
  }

  /** `all_cards` before it is shuffled. */
  const AllCards: seq<string> := MajorArcana + MinorArcana

  const DeckSize: nat := 78

  /** The suits in the order `_get_card_path` tries them. */
  const Suits: seq<string> := ["Cups", "Pentacles", "Swords", "Wands"]

  /** The ranks of a suit, Ace to King. */
  const Ranks: seq<string> := [
    "Ace", "Two", "Three", "Four", "Five", "Six", "Seven",
    "Eight", "Nine", "Ten", "Page", "Knight", "Queen", "King"
  ]

  /** `value_map`: the image number of a minor card, by its first word. */
  const RankNumbers: map<string, string> := map[
    "Ace" := "0", "Two" := "1", "Three" := "2", "Four" := "3", "Five" := "4",
    "Six" := "5", "Seven" := "6", "Eight" := "7", "Nine" := "8", "Ten" := "9",
    "Page" := "10", "Knight" := "11", "Queen" := "12", "King" := "13"
  ]

  /** `major_arcana_order`: the image number of a major card, by name. */
  const MajorNumbers: map<string, string> := map[
    "The Fool" := "0", "The Magician" := "1", "The High Priestess" := "2",
    "The Empress" := "3", "The Emperor" := "4", "The Hierophant" := "5",
    "The Lovers" := "6", "The Chariot" := "7", "Strength" := "8",
    "The Hermit" := "9", "Wheel of Fortune" := "10", "Justice" := "11",
    "The Hanged Man" := "12", "Death" := "13", "Temperance" := "14",
    "The Devil" := "15", "The Tower" := "16", "The Star" := "17",
    "The Moon" := "18", "The Sun" := "19", "Judgement" := "20",
    "The World" := "21"
  ]

  const ImagesRoot: string := "/static/images/cards/"

  // ---------------------------------------------------------------------
  // Name -> image
  // ---------------------------------------------------------------------

  /** An image file under the cards folder: its directory and number. */
  datatype Location = Location(directory: string, number: string)

  /** The directory and number `_get_card_path` derives from a name: the
      first suit (in `Suits` order) the name contains selects a minor
      directory and the name's first word its number; any other name is a
      major card numbered by `MajorNumbers`. Unknown words or names get
      number "0". */
  function CardLocation(name: string): Location
  {
    match FirstContained(Suits, name)
    case Some(suit) =>
      var value := Split(name, " ")[0];
      Location("MinorArcana_" + suit, if value in RankNumbers then RankNumbers[value] else "0")
    case None =>
      Location("MajorArcana", if name in MajorNumbers then MajorNumbers[name] else "0")
  }

  /** The file, relative to the cards folder, of the upright image. */
  function RegularAsset(loc: Location): string
  {
    loc.directory + "/" + loc.number + ".jpg"
  }

  /** The file, relative to the cards folder, of the reversed image. */
  function ReversedAsset(loc: Location): string
  {
    loc.directory + "/" + loc.number + "-r.jpg"
  }

  /** `_get_card_path(name, is_reversed)`; `assetExists` stands for the
      `os.path.exists` test on a file under the cards folder. The reversed
      image is used only when it is asked for and exists. */
  function CardPath(name: string, isReversed: bool, assetExists: string -> bool): string
  {
    var loc := CardLocation(name);
    var base := ImagesRoot + loc.directory + "/" + loc.number;
    if isReversed && assetExists(ReversedAsset(loc)) then base + "-r.jpg" else base + ".jpg"
  }

  // ---------------------------------------------------------------------
  // Facts about the deck
  // ---------------------------------------------------------------------

  /** Where the card at position `i` of the unshuffled deck should live:
      major `i` is `MajorArcana/i`; the rank-`r` card of suit `s` is
      `MinorArcana_<s>/r`. */
  function ExpectedLocation(i: nat): Location
    requires i < DeckSize
  {
    if i < 22 then Location("MajorArcana", DecimalString(i))
    else Location("MinorArcana_" + Suits[(i - 22) / 14], DecimalString((i - 22) % 14))
  }

  /** The deck is the 22 majors followed by the 14 ranks of each suit, the
      suits in `Suits` order. */
  lemma MinorName(s: nat, r: nat)
    requires s < 4 && r < 14
    ensures |AllCards| == DeckSize
    ensures AllCards[22 + 14 * s + r] == Ranks[r] + " of " + Suits[s]
  {
    var k := 14 * s + r;
    assert k % 14 == r && k / 14 == s;
    assert AllCards[22 + k] == MinorArcana[k];
  }

  lemma MajorName(i: nat)
    requires i < 22
    ensures |AllCards| == DeckSize
    ensures AllCards[i] == MajorArcana[i]
  {
  }

  /** Every character of a contained pattern occurs in the text. */
  lemma ContainedCharsOccur(s: string, p: string, j: nat)
    ensures Contains(s, p) && j < |p| ==> p[j] in s
  {
    if Contains(s, p) && j < |p| {
      var k := ContainsWitness(s, p);
      assert s[k..k + |p|][j] == p[j];
      assert s[k + j] == p[j];
    }
  }

  lemma NoCupsInLowMajors()
    ensures forall i :: 0 <= i < 11 ==> 'C' !in MajorArcana[i] || 'u' !in MajorArcana[i]
  {
  }

  lemma NoCupsInHighMajors()
    ensures forall i :: 11 <= i < 22 ==> 'C' !in MajorArcana[i] || 'u' !in MajorArcana[i]
  {
  }

  lemma NoPentaclesInLowMajors()
    ensures forall i :: 0 <= i < 11 ==> 'P' !in MajorArcana[i] || 'n' !in MajorArcana[i]
  {
  }

  lemma NoPentaclesInHighMajors()
    ensures forall i :: 11 <= i < 22 ==> 'P' !in MajorArcana[i] || 'n' !in MajorArcana[i]
  {
  }

  lemma NoSwordsInLowMajors()
    ensures forall i :: 0 <= i < 11 ==> 'S' !in MajorArcana[i] || 'w' !in MajorArcana[i]
  {
  }

  lemma NoSwordsInHighMajors()
    ensures forall i :: 11 <= i < 22 ==> 'S' !in MajorArcana[i] || 'w' !in MajorArcana[i]
  {
  }

  lemma NoWandsInLowMajors()
    ensures forall i :: 0 <= i < 11 ==> 'W' !in MajorArcana[i] || 'a' !in MajorArcana[i]
  {
  }

  lemma NoWandsInHighMajors()
    ensures forall i :: 11 <= i < 22 ==> 'W' !in MajorArcana[i] || 'a' !in MajorArcana[i]
  {
  }

  /** No major arcana name contains a suit name. */
  lemma NoSuitInMajor(i: nat)
    requires i < 22
    ensures FirstContained(Suits, MajorArcana[i]) == None
  {
    var name := MajorArcana[i];
    if i < 11 {
      NoCupsInLowMajors();
      NoPentaclesInLowMajors();
      NoSwordsInLowMajors();
      NoWandsInLowMajors();
    } else {
      NoCupsInHighMajors();
      NoPentaclesInHighMajors();
      NoSwordsInHighMajors();
      NoWandsInHighMajors();
    }
    if 'C' !in name { ContainedCharsOccur(name, "Cups", 0); } else { ContainedCharsOccur(name, "Cups", 1); }
    if 'P' !in name { ContainedCharsOccur(name, "Pentacles", 0); } else { ContainedCharsOccur(name, "Pentacles", 2); }
    if 'S' !in name { ContainedCharsOccur(name, "Swords", 0); } else { ContainedCharsOccur(name, "Swords", 1); }
    if 'W' !in name { ContainedCharsOccur(name, "Wands", 0); } else { ContainedCharsOccur(name, "Wands", 1); }
    FirstContainedIsFirst(Suits, name);
  }

  /** `major_arcana_order` numbers the majors 0-21 in deck order. */
  lemma MajorNumbersInOrder(i: nat)
    requires i < 22
    ensures MajorArcana[i] in MajorNumbers && MajorNumbers[MajorArcana[i]] == DecimalString(i)
  {
    if i < 11 {
      LowMajorNumbers();
    } else {
      HighMajorNumbers();
    }
  }

  lemma LowMajorNumbers()
    ensures forall i :: 0 <= i < 11 ==>
              MajorArcana[i] in MajorNumbers && MajorNumbers[MajorArcana[i]] == DecimalString(i)
  {
  }

  lemma HighMajorNumbers()
    ensures forall i :: 11 <= i < 22 ==>
              MajorArcana[i] in MajorNumbers && MajorNumbers[MajorArcana[i]] == DecimalString(i)
  {
  }

  /** Major card `i` of the deck maps to `MajorArcana/i`. */
  lemma MajorLocation(i: nat)
    requires i < 22
    ensures CardLocation(AllCards[i]) == ExpectedLocation(i)
  {
    MajorName(i);
    NoSuitInMajor(i);
    MajorNumbersInOrder(i);
  }

  /** No rank contains a space or the letters that tell the suits apart. */
  lemma RankFacts()
    ensures forall r :: 0 <= r < 14 ==>
              ' ' !in Ranks[r] && 'C' !in Ranks[r] && 'l' !in Ranks[r]
              && ('S' !in Ranks[r] || 'w' !in Ranks[r])
  {
  }

  /** `value_map` numbers the ranks 0-13 in order. */
  lemma RankNumbersInOrder()
    ensures forall r :: 0 <= r < 14 ==>
              Ranks[r] in RankNumbers && RankNumbers[Ranks[r]] == DecimalString(r)
  {
  }

  /** A name "<rank> of <suit>" contains its suit and no suit listed
      before it, when the rank lacks the letters that tell the suits
      apart. */
  lemma SuitFound(rank: string, s: nat)
    requires s < 4
    requires 'C' !in rank && 'l' !in rank && ('S' !in rank || 'w' !in rank)
    ensures FirstContained(Suits, rank + " of " + Suits[s]) == Some(Suits[s])
  {
    var suit := Suits[s];
    var name := rank + " of " + suit;
    var k := |rank| + 4;
    assert name[k..k + |suit|] == suit;
    ContainsAt(name, suit, k);
    forall j | 0 <= j < s ensures !Contains(name, Suits[j]) {
      SuitAbsent(rank, s, j);
    }
    FirstContainedAt(Suits, name, s);
  }

  lemma SuitAbsent(rank: string, s: nat, j: nat)
    requires j < s < 4
    requires 'C' !in rank && 'l' !in rank && ('S' !in rank || 'w' !in rank)
    ensures !Contains(rank + " of " + Suits[s], Suits[j])
  {
    var name := rank + " of " + Suits[s];
    if j == 0 {
      assert 'C' !in name;
      ContainedCharsOccur(name, "Cups", 0);
    } else if j == 1 {
      assert 'l' !in name;
      ContainedCharsOccur(name, "Pentacles", 6);
    } else if 'S' !in rank {
      assert 'S' !in name;
      ContainedCharsOccur(name, "Swords", 0);
    } else {
      assert 'w' !in name;
      ContainedCharsOccur(name, "Swords", 1);
    }
  }

  lemma MinorSuitFound(s: nat, r: nat)
    requires s < 4 && r < 14
    ensures FirstContained(Suits, Ranks[r] + " of " + Suits[s]) == Some(Suits[s])
  {
    RankFacts();
    SuitFound(Ranks[r], s);
  }

  /** The first word of a minor card's name is its rank. */
  lemma MinorRankWord(s: nat, r: nat)
    requires s < 4 && r < 14
    ensures Split(Ranks[r] + " of " + Suits[s], " ")[0] == Ranks[r]
  {
    RankFacts();
    assert Ranks[r] + " of " + Suits[s] == Ranks[r] + " " + ("of " + Suits[s]);
    SplitLeadingPiece(Ranks[r], " ", "of " + Suits[s]);
  }

  /** Minor card `r` of suit `s` maps to `MinorArcana_<s>/r`. */
  lemma MinorLocation(s: nat, r: nat)
    requires s < 4 && r < 14
    ensures 22 + 14 * s + r < DeckSize
    ensures CardLocation(AllCards[22 + 14 * s + r]) == ExpectedLocation(22 + 14 * s + r)
  {
    MinorName(s, r);
    MinorSuitFound(s, r);
    MinorRankWord(s, r);
    RankNumbersInOrder();
    var i := 22 + 14 * s + r;
    assert (i - 22) / 14 == s && (i - 22) % 14 == r;
  }

  /** Every card of the deck maps to the image its position calls for. */
  lemma DeckLocations()
    ensures |AllCards| == DeckSize
    ensures forall i :: 0 <= i < DeckSize ==> CardLocation(AllCards[i]) == ExpectedLocation(i)
  {
    MajorName(0);
    forall i | 0 <= i < DeckSize
      ensures CardLocation(AllCards[i]) == ExpectedLocation(i)
    {
      if i < 22 {
        MajorLocation(i);
      } else {
        MinorLocation((i - 22) / 14, (i - 22) % 14);
      }
    }
  }

  /** Different positions call for different images. */
  lemma ExpectedLocationInjective(i: nat, j: nat)
    requires i < DeckSize && j < DeckSize
    ensures ExpectedLocation(i) == ExpectedLocation(j) ==> i == j
  {
    var li, lj := ExpectedLocation(i), ExpectedLocation(j);
    if li == lj {
      if i >= 22 && j >= 22 {
        var si, sj := (i - 22) / 14, (j - 22) / 14;
        var pre := "MinorArcana_";
        assert li.directory[|pre|..] == Suits[si];
        assert lj.directory[|pre|..] == Suits[sj];
        assert Suits[si][0] == Suits[sj][0];
        DecimalStringInjective((i - 22) % 14, (j - 22) % 14);
      } else if i < 22 && j < 22 {
        DecimalStringInjective(i, j);
      }
    }
  }

  /** The 78 names are pairwise different. */
  lemma DeckDistinct()
    ensures |AllCards| == DeckSize
    ensures forall i, j :: 0 <= i < j < DeckSize ==> AllCards[i] != AllCards[j]
  {
    DeckLocations();
    forall i, j | 0 <= i < j < DeckSize ensures AllCards[i] != AllCards[j] {
      ExpectedLocationInjective(i, j);
    }
  }

  lemma RankNumbersAreNumerals()
    ensures forall k :: k in RankNumbers ==> IsNumeral(RankNumbers[k])
  {
  }

  lemma MajorNumbersAreNumerals()
    ensures forall k :: k in MajorNumbers ==> IsNumeral(MajorNumbers[k])
  {
  }

  /** Every image number is a numeral; unknown words and names get "0". */
  lemma CardLocationNumeral(name: string)
    ensures IsNumeral(CardLocation(name).number)
  {
    RankNumbersAreNumerals();
    MajorNumbersAreNumerals();
  }

  /** Every path lies under the cards folder and is a `.jpg`; it is the
      reversed `-r.jpg` image exactly when the reversed image was asked for
      and exists. */
  lemma CardPathReversedIff(name: string, isReversed: bool, assetExists: string -> bool)
    ensures var p := CardPath(name, isReversed, assetExists);
            ImagesRoot <= p && EndsWith(p, ".jpg")
            && (EndsWith(p, "-r.jpg") <==> isReversed && assetExists(ReversedAsset(CardLocation(name))))
  {
    var loc := CardLocation(name);
    var base := ImagesRoot + loc.directory + "/" + loc.number;
    CardLocationNumeral(name);
    ImageBase(loc);
    if isReversed && assetExists(ReversedAsset(loc)) {
      ReversedImageName(base);
    } else {
      UprightImageName(base);
    }
  }

  /** The image path without its suffix lies under the cards folder and
      ends in the last digit of the image number. */
  lemma ImageBase(loc: Location)
    requires IsNumeral(loc.number)
    ensures var base := ImagesRoot + loc.directory + "/" + loc.number;
            ImagesRoot <= base && IsDigit(base[|base| - 1])
  {
    var base := ImagesRoot + loc.directory + "/" + loc.number;
    assert base[|base| - 1] == loc.number[|loc.number| - 1];
  }

  lemma ReversedImageName(base: string)
    requires ImagesRoot <= base
    ensures var p := base + "-r.jpg";
            ImagesRoot <= p && EndsWith(p, ".jpg") && EndsWith(p, "-r.jpg")
  {
    var p := base + "-r.jpg";
    assert p[|p| - 4..] == ".jpg";
    assert p[|p| - 6..] == "-r.jpg";
  }

  lemma UprightImageName(base: string)
    requires ImagesRoot <= base && IsDigit(base[|base| - 1])
    ensures var p := base + ".jpg";
            ImagesRoot <= p && EndsWith(p, ".jpg") && !EndsWith(p, "-r.jpg")
  {
    var p := base + ".jpg";
    assert p[|p| - 4..] == ".jpg";
    assert p[|p| - 5] == base[|base| - 1];
  }

  /** A name that contains no suit and is not a major arcana falls back to
      the Fool's image, upright or, when asked for and present, reversed. */
  lemma UnknownNameFallsBack(name: string, isReversed: bool, assetExists: string -> bool)
    requires FirstContained(Suits, name) == None && name !in MajorNumbers
    ensures CardLocation(name) == Location("MajorArcana", "0")
    ensures var fool := Location("MajorArcana", "0");
            CardPath(name, isReversed, assetExists)
            == ImagesRoot + (if isReversed && assetExists(ReversedAsset(fool)) then ReversedAsset(fool)
                             else RegularAsset(fool))
  {
  }

  /** A name that contains a suit but whose first word is no rank gets
      image number 0 of that suit, upright or, when asked for and
      present, reversed. */
  lemma UnknownRankFallsBack(name: string, suit: string, isReversed: bool, assetExists: string -> bool)
    requires FirstContained(Suits, name) == Some(suit) && Split(name, " ")[0] !in RankNumbers
    ensures CardLocation(name) == Location("MinorArcana_" + suit, "0")
    ensures var ace := Location("MinorArcana_" + suit, "0");
            CardPath(name, isReversed, assetExists)
            == ImagesRoot + (if isReversed && assetExists(ReversedAsset(ace)) then ReversedAsset(ace)
                             else RegularAsset(ace))
  {
  }

  /** "Unknown" is such a name: it gets the Fool's image. */
  lemma UnknownIsTheFool()
    ensures CardLocation("Unknown") == Location("MajorArcana", "0")
  {
    UnknownHasNoSuit();
    UnknownNotMajor();
  }

  /** "Bogus of Cups" names the Cups suit but no rank: it gets the Ace of
      Cups' image number. */
  lemma BogusOfCupsIsNumberZero()
    ensures CardLocation("Bogus of Cups") == Location("MinorArcana_" + "Cups", "0")
  {
    BogusOfCupsSuit();
    BogusOfCupsWord();
    BogusNotRank();
  }

  lemma BogusOfCupsSuit()
    ensures FirstContained(Suits, "Bogus of Cups") == Some("Cups")
  {
    assert "Bogus of Cups" == "Bogus" + " of " + Suits[0];
    SuitFound("Bogus", 0);
  }

  lemma BogusOfCupsWord()
    ensures Split("Bogus of Cups", " ")[0] == "Bogus"
  {
    assert "Bogus of Cups" == "Bogus" + " " + "of Cups";
    SplitLeadingPiece("Bogus", " ", "of Cups");
  }

  lemma BogusNotRank()
    ensures "Bogus" !in RankNumbers
  {
    forall k | k in RankNumbers ensures k[0] != 'B' {
    }
    assert "Bogus"[0] == 'B';
  }

  lemma UnknownNotMajor()
    ensures "Unknown" !in MajorNumbers
  {
    forall k | k in MajorNumbers ensures k[0] != 'U' {
    }
    assert "Unknown"[0] == 'U';
  }

  lemma UnknownHasNoSuit()
    ensures FirstContained(Suits, "Unknown") == None
  {
    var name := "Unknown";
    assert 'C' !in name && 'P' !in name && 'S' !in name && 'W' !in name;
    ContainedCharsOccur(name, "Cups", 0);
    ContainedCharsOccur(name, "Pentacles", 0);
    ContainedCharsOccur(name, "Swords", 0);
    ContainedCharsOccur(name, "Wands", 0);
    FirstContainedNone(Suits, name);
  }

  /** Cards at different positions of the deck have different names. */
  lemma CardsDiffer(a: nat, b: nat)
    requires a < DeckSize && b < DeckSize && a != b
    ensures |AllCards| == DeckSize
    ensures AllCards[a] != AllCards[b]
  {
    DeckLocations();
    ExpectedLocationInjective(a, b);
  }
}
