/** Concrete hands from the crate's own test suites, run through the
    model of the code as written. Some agree with the tests; the others
    show where the code and its tests part ways. */
module HandExamples {
  import opened Prelude
  import opened Cards
  import opened PokerHands
  import opened HandBuilder

  // ---------------------------------------------------------------------
  // Hands the classifier makes as the tests expect

  lemma QueenHighStraightMade()
    ensures var cards := [Card(Clubs, Queen), Card(Diamonds, Jack), Card(Clubs, Ten), Card(Diamonds, Nine), Card(Spades, Eight)];
      SortedDesc(cards) && !FiveOfAKind(cards) &&
      GetHand(cards) == Straight(StraightStr(Queen))
  {
    var cards := [Card(Clubs, Queen), Card(Diamonds, Jack), Card(Clubs, Ten), Card(Diamonds, Nine), Card(Spades, Eight)];
    SortedFromSteps(cards);
    assert !FiveOfAKind(cards) by { assert cards[1].rank != cards[0].rank; }
    assert FlushSuitOf(cards).None? by { assert cards[1].suit != cards[0].suit; }
    assert StraightStep(cards, 1) && StraightStep(cards, 2) && StraightStep(cards, 3) && StraightStep(cards, 4);
  }

  lemma AcesQuadsMade()
    ensures var cards := [Card(Clubs, Ace), Card(Diamonds, Ace), Card(Spades, Ace), Card(Hearts, Ace), Card(Diamonds, Three)];
      SortedDesc(cards) && !FiveOfAKind(cards) &&
      GetHand(cards) == Quads(QuadsStr(Ace, Three))
  {
    var cards := [Card(Clubs, Ace), Card(Diamonds, Ace), Card(Spades, Ace), Card(Hearts, Ace), Card(Diamonds, Three)];
    SortedFromSteps(cards);
    assert !FiveOfAKind(cards) by { assert cards[4].rank != cards[0].rank; }
    assert FlushSuitOf(cards).None? by { assert cards[1].suit != cards[0].suit; }
    assert SameRank(cards, 0, 4);
  }

  lemma QueenHighTwoPairMade()
    ensures var cards := [Card(Spades, Queen), Card(Hearts, Jack), Card(Diamonds, Jack), Card(Clubs, Six), Card(Spades, Six)];
      SortedDesc(cards) && !FiveOfAKind(cards) &&
      GetHand(cards) == TwoPair(TwoPairStr(Jack, Six, Queen))
  {
    var cards := [Card(Spades, Queen), Card(Hearts, Jack), Card(Diamonds, Jack), Card(Clubs, Six), Card(Spades, Six)];
    SortedFromSteps(cards);
    assert !FiveOfAKind(cards) by { assert cards[1].rank != cards[0].rank; }
    assert FlushSuitOf(cards).None? by { assert cards[1].suit != cards[0].suit; }
    assert !StraightStep(cards, 2);
    assert QuadsOf(cards).None? by { assert !SameRank(cards, 0, 4) && !SameRank(cards, 1, 5) by { assert cards[1].rank != cards[4].rank; } }
    var rs := Ranks(cards);
    assert rs == [Queen, Jack, Jack, Six, Six];
    assert GreedyPairs(rs, 6) == [] && GreedyPairs(rs, 4) == [Six];
    assert GreedyPairs(rs, 2) == [Jack, Six];
    assert GreedyPairs(rs, 1) == [Jack, Six];
    assert KickerFrom(rs, Jack, Six, 1) == Queen;
  }

  /** Any Q-J-J-6-2 that is not all one suit is a pair of jacks with
      kickers Q, 6, 2. */
  lemma JacksPairMade(cards: seq<Card>)
    requires |cards| == 5 && Ranks(cards) == [Queen, Jack, Jack, Six, Two] && FlushSuitOf(cards).None?
    ensures SortedDesc(cards) && !FiveOfAKind(cards)
    ensures GetHand(cards) == Pair(PairStr(Jack, [Queen, Six, Two]))
  {
    JacksPairRankFacts(cards);
    assert !FiveOfAKind(cards) by { assert cards[1].rank != cards[0].rank; }
    SortedFromSteps(cards);
  }

  /** What the rank-only builders make of Q-J-J-6-2, whatever the suits. */
  lemma JacksPairRankFacts(cards: seq<Card>)
    requires |cards| == 5 && Ranks(cards) == [Queen, Jack, Jack, Six, Two]
    ensures StraightOf(cards).None? && QuadsOf(cards).None? && GetTrips(cards).None? && TwoPairOf(cards).None?
    ensures PairRankTwice(cards) && PairOf(cards) == Some(PairStr(Jack, [Queen, Six, Two]))
  {
    assert cards[1].rank == Jack && cards[2].rank == Jack;
    assert !StraightStep(cards, 2);
    assert !SameRank(cards, 0, 4) && !SameRank(cards, 1, 5) by { assert cards[1].rank != cards[4].rank; }
    JacksPairRanks();
    assert FirstPairFrom(cards, 0) == Some(1);
  }

  /** The test's own hand, Q♠ J♥ J♠ 6♠ 2♠. */
  lemma JacksPairOfTest()
    ensures var cards := [Card(Spades, Queen), Card(Hearts, Jack), Card(Spades, Jack), Card(Spades, Six), Card(Spades, Two)];
      SortedDesc(cards) && !FiveOfAKind(cards) &&
      GetHand(cards) == Pair(PairStr(Jack, [Queen, Six, Two]))
  {
    var cards := [Card(Spades, Queen), Card(Hearts, Jack), Card(Spades, Jack), Card(Spades, Six), Card(Spades, Two)];
    assert Ranks(cards) == [Queen, Jack, Jack, Six, Two];
    assert FlushSuitOf(cards).None? by { assert cards[1].suit != cards[0].suit; }
    JacksPairMade(cards);
  }

  /** The scan and the kicker filter on the ranks of `JacksPairMade`. */
  lemma JacksPairRanks()
    ensures var rs := [Queen, Jack, Jack, Six, Two];
      GreedyPairs(rs, 1) == [Jack] && multiset(rs)[Jack] == 2 &&
      OtherRanks(rs, Jack) == [Queen, Six, Two]
  {
    var rs := [Queen, Jack, Jack, Six, Two];
    assert GreedyPairs(rs, 5) == [] && GreedyPairs(rs, 4) == [];
    assert GreedyPairs(rs, 2) == [Jack];
    assert rs[4..][1..] == [] && OtherRanks(rs[4..], Jack) == [Two];
    assert rs[3..][1..] == rs[4..] && OtherRanks(rs[3..], Jack) == [Six, Two];
    assert rs[2..][1..] == rs[3..] && OtherRanks(rs[2..], Jack) == [Six, Two];
    assert rs[1..][1..] == rs[2..] && OtherRanks(rs[1..], Jack) == [Six, Two];
    assert OtherRanks(rs, Jack) == [Queen, Six, Two];
    OtherRanksMultiset(rs, Jack);
  }

  // ---------------------------------------------------------------------
  // Hands the classifier makes differently from the tests

  /** A full house of jacks over sixes: the full-house builder compares
      the last card where it meant the fourth, so the hand is reported
      as trips with the pair as kickers. */
  lemma BoatMadeAsTrips()
    ensures var cards := [Card(Spades, Jack), Card(Hearts, Jack), Card(Diamonds, Jack), Card(Clubs, Six), Card(Spades, Six)];
      SortedDesc(cards) && !FiveOfAKind(cards) &&
      GetHand(cards) == Trips(TripsStr(Jack, [Six, Six]))
  {
    var cards := [Card(Spades, Jack), Card(Hearts, Jack), Card(Diamonds, Jack), Card(Clubs, Six), Card(Spades, Six)];
    SortedFromSteps(cards);
    assert !FiveOfAKind(cards) by { assert cards[4].rank != cards[0].rank; }
    assert FlushSuitOf(cards).None? by { assert cards[1].suit != cards[0].suit; }
    assert !StraightStep(cards, 1);
    assert QuadsOf(cards).None? by { assert !SameRank(cards, 0, 4) by { assert cards[3].rank != cards[0].rank; } assert !SameRank(cards, 1, 5) by { assert cards[1].rank != cards[4].rank; } }
  }

  /** The Ace-high straight is reported with high rank Four. */
  lemma BroadwayMadeAsFourHigh()
    ensures var cards := [Card(Spades, Ace), Card(Spades, King), Card(Clubs, Queen), Card(Spades, Jack), Card(Spades, Ten)];
      SortedDesc(cards) && !FiveOfAKind(cards) &&
      GetHand(cards) == Straight(StraightStr(Four))
  {
    var cards := [Card(Spades, Ace), Card(Spades, King), Card(Clubs, Queen), Card(Spades, Jack), Card(Spades, Ten)];
    SortedFromSteps(cards);
    assert !FiveOfAKind(cards) by { assert cards[1].rank != cards[0].rank; }
    assert FlushSuitOf(cards).None? by { assert cards[2].suit != cards[0].suit; }
    assert StraightStep(cards, 1) && StraightStep(cards, 2) && StraightStep(cards, 3) && StraightStep(cards, 4);
    assert QuadsOf(cards).None? by { assert !SameRank(cards, 0, 4) && !SameRank(cards, 1, 5) by { assert cards[1].rank != cards[2].rank; } }
  }

  /** A-5-4-3-2 is not seen as a straight at all. */
  lemma WheelMadeAsHighCard()
    ensures var cards := [Card(Spades, Ace), Card(Hearts, Five), Card(Clubs, Four), Card(Spades, Three), Card(Spades, Two)];
      SortedDesc(cards) && !FiveOfAKind(cards) &&
      GetHand(cards) == HiCard(HiCardStr([Ace, Five, Four, Three, Two]))
  {
    var cards := [Card(Spades, Ace), Card(Hearts, Five), Card(Clubs, Four), Card(Spades, Three), Card(Spades, Two)];
    SortedFromSteps(cards);
    assert !FiveOfAKind(cards) by { assert cards[1].rank != cards[0].rank; }
    assert FlushSuitOf(cards).None? by { assert cards[1].suit != cards[0].suit; }
    assert !StraightStep(cards, 1);
    assert QuadsOf(cards).None? by { assert !SameRank(cards, 0, 4) && !SameRank(cards, 1, 5) by { assert cards[1].rank != cards[2].rank; } }
    var rs := Ranks(cards);
    assert rs == [Ace, Five, Four, Three, Two];
    assert GreedyPairs(rs, 5) == [] && GreedyPairs(rs, 4) == [] && GreedyPairs(rs, 3) == [];
    assert GreedyPairs(rs, 2) == [] && GreedyPairs(rs, 1) == [];
    assert FirstPairFrom(cards, 0) == None;
  }

  /** The royal flush is reported as a Four-high straight flush. */
  lemma RoyalMadeAsFourHigh()
    ensures var cards := [Card(Spades, Ace), Card(Spades, King), Card(Spades, Queen), Card(Spades, Jack), Card(Spades, Ten)];
      SortedDesc(cards) && !FiveOfAKind(cards) &&
      GetHand(cards) == StraightFlush(StraightFlushStr(Four))
  {
    var cards := [Card(Spades, Ace), Card(Spades, King), Card(Spades, Queen), Card(Spades, Jack), Card(Spades, Ten)];
    SortedFromSteps(cards);
    assert !FiveOfAKind(cards) by { assert cards[1].rank != cards[0].rank; }
    assert FlushSuitOf(cards) == Some(Spades);
    assert StraightStep(cards, 1) && StraightStep(cards, 2) && StraightStep(cards, 3) && StraightStep(cards, 4);
  }

  /** The suited wheel is only a flush. */
  lemma SteelWheelMadeAsFlush()
    ensures var cards := [Card(Diamonds, Ace), Card(Diamonds, Five), Card(Diamonds, Four), Card(Diamonds, Three), Card(Diamonds, Two)];
      SortedDesc(cards) && !FiveOfAKind(cards) &&
      GetHand(cards) == Flush(FlushStr([Ace, Five, Four, Three, Two]))
  {
    var cards := [Card(Diamonds, Ace), Card(Diamonds, Five), Card(Diamonds, Four), Card(Diamonds, Three), Card(Diamonds, Two)];
    SortedFromSteps(cards);
    assert !FiveOfAKind(cards) by { assert cards[1].rank != cards[0].rank; }
    assert FlushSuitOf(cards) == Some(Diamonds);
    assert !StraightStep(cards, 1);
    assert QuadsOf(cards).None? by { assert !SameRank(cards, 0, 4) && !SameRank(cards, 1, 5) by { assert cards[1].rank != cards[2].rank; } }
    assert Ranks(cards) == [Ace, Five, Four, Three, Two];
  }

  // ---------------------------------------------------------------------
  // The comparator on the tests' hands

  /** One hand of each category, weakest first, as `cmp_basic_hands` lists them. */
  const BasicHands: seq<Hand> := [
    HiCard(HiCardStr([King, Jack, Seven, Four, Two])),
    Pair(PairStr(Ten, [Ace, Five, Two])),
    TwoPair(TwoPairStr(Ace, Ten, Jack)),
    Trips(TripsStr(Three, [King, Ten])),
    Straight(StraightStr(Eight)),
    Flush(FlushStr([King, Jack, Ten, Six, Two])),
    FullHouse(FullHouseStr(Queen, Ace)),
    Quads(QuadsStr(Ace, Five)),
    StraightFlush(StraightFlushStr(Jack))
  ]

  /** Hands of different categories are ordered as the test expects. */
  lemma BasicHandsAscending(i: int, j: int)
    requires 0 <= i < 9 && 0 <= j < 9
    ensures HandCmp(BasicHands[i], BasicHands[j]) == CmpInt(i, j)
  {
    assert HandToIndex(BasicHands[i]) == i;
    assert HandToIndex(BasicHands[j]) == j;
    if i == j {
      HandEqIsIdentity(BasicHands[i], BasicHands[j]);
    } else {
      CategoryDecides(BasicHands[i], BasicHands[j]);
    }
  }

  /** Within one category the derived rank order makes the higher hand
      compare Less: a queen-high straight flush sits below a jack-high
      one, against the order the tests expect. */
  lemma HigherStraightFlushComparesLess()
    ensures HandCmp(StraightFlush(StraightFlushStr(Queen)), StraightFlush(StraightFlushStr(Jack))) == Less
  {
  }

  /** A pair of aces sits below a pair of twos with the same kickers. */
  lemma HigherPairComparesLess()
    ensures HandCmp(Pair(PairStr(Ace, [King, Queen, Jack])), Pair(PairStr(Two, [King, Queen, Jack]))) == Less
  {
  }
}
