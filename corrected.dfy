/** The behaviour the crate's tests expect where the code as written
    departs from it: a full-house builder that compares the fourth card,
    a straight builder that sees the wheel A-5-4-3-2 and names the top of
    the run, and a tie-break order that compares ranks ace-high. Each
    corrected member is proved against an independent description of
    the hand it recognises or the order it implements. */
module Corrected {
  import opened Prelude
  import opened Cards
  import opened PokerHands
  import opened HandBuilder

  // ---------------------------------------------------------------------
  // Full house

  /** `get_full_house` with its second test on the fourth card: the first
      two and the last two cards pair up, and the middle card joins one
      of the pairs. */
  function GetFullHouseIntended(cards: seq<Card>): (r: Option<FullHouseStr>)
    requires |cards| == 5 && SortedDesc(cards) && !FiveOfAKind(cards)
  {
    var r0, r1, r2, r3, r4 := cards[0].rank, cards[1].rank, cards[2].rank, cards[3].rank, cards[4].rank;
    if r0 != r1 then None
    else if r4 != r3 then None
    else
      var highPairRank, lowPairRank := r0, r4;
      var threeOfHigh := highPairRank == r2;
      var threeOfLow := lowPairRank == r2;
      if !threeOfHigh && !threeOfLow then None
      else if threeOfHigh then Some(FullHouseStr(highPairRank, lowPairRank))
      else Some(FullHouseStr(lowPairRank, highPairRank))
  }

  /** What the corrected builder reports is a full house: three cards of
      one rank and two of another. */
  lemma FullHouseIntendedSound(cards: seq<Card>)
    requires |cards| == 5 && SortedDesc(cards) && !FiveOfAKind(cards)
    ensures var r := GetFullHouseIntended(cards);
      r.Some? ==>
        && r.value.threeOf != r.value.twoOf
        && multiset(Ranks(cards)) == multiset{r.value.threeOf, r.value.threeOf, r.value.threeOf, r.value.twoOf, r.value.twoOf}
  {
    var r := GetFullHouseIntended(cards);
    if r.Some? {
      if cards[0].rank == cards[4].rank {
        SortedRun(cards, 0, 4);
        assert false;
      }
      var t, w := r.value.threeOf, r.value.twoOf;
      if cards[2].rank == cards[0].rank {
        assert Ranks(cards) == [t, t, t, w, w];
      } else {
        assert Ranks(cards) == [w, w, t, t, t];
      }
      BoatMultiset(Ranks(cards), t, w);
    }
  }

  /** The two sorted layouts of a full house hold the same ranks. */
  lemma BoatMultiset(rs: seq<Rank>, t: Rank, w: Rank)
    requires rs == [t, t, t, w, w] || rs == [w, w, t, t, t]
    ensures multiset(rs) == multiset{t, t, t, w, w}
  {
  }

  /** Every full house is recognised, whatever its two ranks. */
  lemma FullHouseIntendedComplete(cards: seq<Card>, a: Rank, b: Rank)
    requires |cards| == 5 && SortedDesc(cards) && !FiveOfAKind(cards)
    requires a != b && multiset(Ranks(cards)) == multiset{a, a, a, b, b}
    ensures GetFullHouseIntended(cards) == Some(FullHouseStr(a, b))
  {
    SortedIsDescending(cards);
    var e := BoatLayout(a, b);
    DescendingUnique(Ranks(cards), e);
  }

  /** The sorted ranks of a full house of a over b. */
  function BoatLayout(a: Rank, b: Rank): (e: seq<Rank>)
    requires a != b
    ensures |e| == 5 && Descending(e) && multiset(e) == multiset{a, a, a, b, b}
  {
    RankIndexInjective(a, b);
    if RankIndex(a) > RankIndex(b) then [a, a, a, b, b] else [b, b, a, a, a]
  }

  // ---------------------------------------------------------------------
  // Straight

  /** The corrected scan step: an Ace followed by a Five is the wheel's
      skipped front; otherwise one more declaration position. */
  predicate StraightStepIntended(cards: seq<Card>, i: int)
    requires |cards| == 5 && 1 <= i < 5
  {
    || (i == 1 && cards[0].rank == Ace && cards[1].rank == Five)
    || Discr(cards[i].rank) == Discr(cards[i - 1].rank) + 1
  }

  /** `get_straight` as its tests expect it: the wheel is a straight to
      the Five, and any other straight is named by its first card. */
  function StraightOfIntended(cards: seq<Card>): (r: Option<StraightStr>)
    requires |cards| == 5
  {
    if forall i | 1 <= i < 5 :: StraightStepIntended(cards, i) then
      Some(StraightStr(if cards[0].rank == Ace && cards[1].rank == Five then Five else cards[0].rank))
    else
      None
  }

  /** The corrected builder succeeds exactly on five ranks stepping down
      by one ace-high, or on A-5-4-3-2; it names the Five for the wheel and
      otherwise the top card, four above the bottom one. */
  lemma StraightOfIntendedIff(cards: seq<Card>)
    requires |cards| == 5
    ensures StraightOfIntended(cards).Some? <==>
      || (forall i | 1 <= i < 5 :: RankIndex(cards[i].rank) + 1 == RankIndex(cards[i - 1].rank))
      || Ranks(cards) == [Ace, Five, Four, Three, Two]
    ensures StraightOfIntended(cards).Some? && Ranks(cards) == [Ace, Five, Four, Three, Two] ==>
      StraightOfIntended(cards).value.hiRank == Five
    ensures StraightOfIntended(cards).Some? && Ranks(cards) != [Ace, Five, Four, Three, Two] ==>
      && StraightOfIntended(cards).value.hiRank == cards[0].rank
      && RankIndex(cards[0].rank) == RankIndex(cards[4].rank) + 4
  {
    var r := Ranks(cards);
    forall i | 1 <= i < 5
      ensures Discr(r[i]) == Discr(r[i - 1]) + 1 <==> RankIndex(r[i]) + 1 == RankIndex(r[i - 1])
    {
      DiscrStepIsIndexStep(r[i - 1], r[i]);
    }
    if r[0] == Ace && r[1] == Five {
      assert RankIndex(r[1]) + 1 != RankIndex(r[0]);
      if forall i | 1 <= i < 5 :: StraightStepIntended(cards, i) {
        assert StraightStepIntended(cards, 2) && StraightStepIntended(cards, 3) && StraightStepIntended(cards, 4);
        assert RankIndex(r[2]) == 4 && RankIndex(r[3]) == 3 && RankIndex(r[4]) == 2;
        RankIndexRoundTrip(r[2]);
        RankIndexRoundTrip(r[3]);
        RankIndexRoundTrip(r[4]);
      }
    } else {
      assert forall i | 1 <= i < 5 ::
        StraightStepIntended(cards, i) <==> Discr(r[i]) == Discr(r[i - 1]) + 1;
    }
  }

  /** `get_straight_flush` over the corrected straight builder. */
  function GetStraightFlushIntended(cards: seq<Card>): (r: Option<StraightFlushStr>)
    requires |cards| == 5
    ensures r.Some? <==> FlushSuitOf(cards).Some? && StraightOfIntended(cards).Some?
    ensures r.Some? ==> r.value.hiRank == StraightOfIntended(cards).value.hiRank
  {
    if FlushSuitOf(cards).None? then None
    else
      match StraightOfIntended(cards)
      case Some(s) => Some(StraightFlushStr(s.hiRank))
      case None => None
  }

  // ---------------------------------------------------------------------
  // The tie-break order

  /** `Vec<Rank>::cmp` with elements compared ace-high, as the hand order
      tests expect. */
  function LexCmpAceHigh(a: seq<Rank>, b: seq<Rank>): Ordering
    decreases |a|
  {
    if |a| == 0 && |b| == 0 then Equal
    else if |a| == 0 then Less
    else if |b| == 0 then Greater
    else if RankIndex(a[0]) != RankIndex(b[0]) then CmpInt(RankIndex(a[0]), RankIndex(b[0]))
    else LexCmpAceHigh(a[1..], b[1..])
  }

  /** On buffers of one length, the order as written is the exact reverse
      of the ace-high order. */
  lemma {:induction false} LexCmpIsReversedAceHigh(a: seq<Rank>, b: seq<Rank>)
    requires |a| == |b|
    ensures LexCmp(a, b) == LexCmpAceHigh(a, b).Reverse()
    decreases |a|
  {
    if |a| > 0 {
      DerivedCmpIsReversed(a[0], b[0]);
      LexCmpIsReversedAceHigh(a[1..], b[1..]);
    }
  }

  /** The ace-high order is decided by the first position where the
      buffers differ, and there by the higher rank. */
  lemma {:induction false} LexCmpAceHighFirstDifference(a: seq<Rank>, b: seq<Rank>, k: int)
    requires 0 <= k < |a| && k < |b| && a[..k] == b[..k] && a[k] != b[k]
    ensures LexCmpAceHigh(a, b) == CmpInt(RankIndex(a[k]), RankIndex(b[k]))
    ensures LexCmpAceHigh(a, b) != Equal
    decreases k
  {
    if k == 0 {
      RankIndexInjective(a[0], b[0]);
    } else {
      assert a[0] == a[..k][0] == b[..k][0] == b[0];
      assert a[1..][..k - 1] == a[..k][1..] == b[..k][1..] == b[1..][..k - 1];
      LexCmpAceHighFirstDifference(a[1..], b[1..], k - 1);
    }
  }

  /** The hand order with ace-high tie-breaks. */
  function HandCmpIntended(a: Hand, b: Hand): Ordering
  {
    var initial := CmpInt(HandToIndex(a), HandToIndex(b));
    if initial != Equal then initial else LexCmpAceHigh(Comparables(a), Comparables(b))
  }

  /** The order as written agrees with the intended one across
      categories and is its reverse within a category. */
  lemma HandCmpAgainstIntended(a: Hand, b: Hand)
    ensures HandToIndex(a) != HandToIndex(b) ==> HandCmp(a, b) == HandCmpIntended(a, b)
    ensures HandToIndex(a) == HandToIndex(b) ==> HandCmp(a, b) == HandCmpIntended(a, b).Reverse()
  {
    if HandToIndex(a) == HandToIndex(b) {
      LexCmpIsReversedAceHigh(Comparables(a), Comparables(b));
    }
  }

  /** Swapping the operands reverses the intended order too. */
  lemma HandCmpIntendedReverse(a: Hand, b: Hand)
    ensures HandCmpIntended(b, a) == HandCmpIntended(a, b).Reverse()
  {
    HandCmpAgainstIntended(a, b);
    HandCmpAgainstIntended(b, a);
    HandCmpReverse(a, b);
  }

  // ---------------------------------------------------------------------
  // The classifier over the corrected builders

  /** `get_hand` with the corrected straight and full-house builders. */
  function GetHandIntended(cards: seq<Card>): Hand
    requires |cards| == 5 && SortedDesc(cards) && !FiveOfAKind(cards)
  {
    match GetStraightFlushIntended(cards)
    case Some(s) => StraightFlush(s)
    case None =>
    match QuadsOf(cards)
    case Some(s) => Quads(s)
    case None =>
    match GetFullHouseIntended(cards)
    case Some(s) => FullHouse(s)
    case None =>
    match GetFlush(cards)
    case Some(s) => Flush(s)
    case None =>
    match StraightOfIntended(cards)
    case Some(s) => Straight(s)
    case None =>
    match GetTrips(cards)
    case Some(s) => Trips(s)
    case None =>
    match TwoPairOf(cards)
    case Some(s) => TwoPair(s)
    case None =>
    PairRankTwiceWithoutTrips(cards);
    match PairOf(cards)
    case Some(s) => Pair(s)
    case None => HiCard(GetHiCard(cards))
  }

  /** Where neither corrected builder changes its answer, the corrected
      classifier makes the same hand as the code as written. */
  lemma GetHandIntendedAgrees(cards: seq<Card>)
    requires |cards| == 5 && SortedDesc(cards) && !FiveOfAKind(cards)
    requires GetFullHouseIntended(cards).None? && StraightOfIntended(cards) == StraightOf(cards)
    ensures GetHandIntended(cards) == GetHand(cards)
  {
    assert GetFullHouse(cards).None?;
  }

  /** Every sorted full house, of any two ranks, is classified as that
      full house: no straight or quads comes first. */
  lemma GetHandIntendedFullHouse(cards: seq<Card>, a: Rank, b: Rank)
    requires |cards| == 5 && SortedDesc(cards)
    requires a != b && multiset(Ranks(cards)) == multiset{a, a, a, b, b}
    ensures !FiveOfAKind(cards)
    ensures GetHandIntended(cards) == FullHouse(FullHouseStr(a, b))
  {
    SortedIsDescending(cards);
    DescendingUnique(Ranks(cards), BoatLayout(a, b));
    BoatIsNothingHigher(cards, a, b);
    FullHouseIntendedComplete(cards, a, b);
  }

  /** Neither layout of a full house is five of a kind, a straight or
      quads. */
  lemma BoatIsNothingHigher(cards: seq<Card>, a: Rank, b: Rank)
    requires |cards| == 5 && a != b
    requires Ranks(cards) == [a, a, a, b, b] || Ranks(cards) == [b, b, a, a, a]
    ensures !FiveOfAKind(cards) && StraightOfIntended(cards).None? && QuadsOf(cards).None?
  {
    assert forall i | 0 <= i < 5 :: cards[i].rank == Ranks(cards)[i];
    assert !StraightStepIntended(cards, 1);
    assert !SameRank(cards, 0, 4) && !SameRank(cards, 1, 5) by {
      assert cards[2].rank != cards[0].rank || cards[3].rank != cards[0].rank;
      assert cards[2].rank != cards[4].rank || cards[1].rank != cards[4].rank;
    }
  }

  /** Every straight the corrected builder finds is classified as that
      straight, or as that straight flush when the suits agree: a run
      holds no pair, so quads and full house cannot come first. */
  lemma GetHandIntendedStraight(cards: seq<Card>)
    requires |cards| == 5 && SortedDesc(cards)
    requires StraightOfIntended(cards).Some?
    ensures !FiveOfAKind(cards)
    ensures var h := StraightOfIntended(cards).value.hiRank;
      GetHandIntended(cards) ==
        if FlushSuitOf(cards).Some? then StraightFlush(StraightFlushStr(h)) else Straight(StraightStr(h))
  {
    assert StraightStepIntended(cards, 1) && StraightStepIntended(cards, 4);
    assert cards[0].rank != cards[1].rank && cards[3].rank != cards[4].rank;
    assert !FiveOfAKind(cards);
    assert QuadsOf(cards).None?;
    assert GetFullHouseIntended(cards).None?;
  }

  /** Every wheel A-5-4-3-2 is a straight to the Five, or a straight flush
      to the Five when the suits agree. */
  lemma GetHandIntendedWheel(cards: seq<Card>)
    requires |cards| == 5 && Ranks(cards) == [Ace, Five, Four, Three, Two]
    ensures SortedDesc(cards) && !FiveOfAKind(cards)
    ensures GetHandIntended(cards) ==
      if FlushSuitOf(cards).Some? then StraightFlush(StraightFlushStr(Five)) else Straight(StraightStr(Five))
  {
    assert forall i | 0 <= i < 5 :: cards[i].rank == Ranks(cards)[i];
    SortedFromSteps(cards);
    StraightOfIntendedIff(cards);
    GetHandIntendedStraight(cards);
  }

  /** Jacks over sixes is a full house. */
  lemma BoatMadeIntended()
    ensures var cards := [Card(Spades, Jack), Card(Hearts, Jack), Card(Diamonds, Jack), Card(Clubs, Six), Card(Spades, Six)];
      SortedDesc(cards) && !FiveOfAKind(cards) &&
      GetHandIntended(cards) == FullHouse(FullHouseStr(Jack, Six))
  {
    var cards := [Card(Spades, Jack), Card(Hearts, Jack), Card(Diamonds, Jack), Card(Clubs, Six), Card(Spades, Six)];
    SortedFromSteps(cards);
    assert !FiveOfAKind(cards) by { assert cards[4].rank != cards[0].rank; }
    assert FlushSuitOf(cards).None? by { assert cards[1].suit != cards[0].suit; }
    assert QuadsOf(cards).None? by { assert !SameRank(cards, 0, 4) by { assert cards[3].rank != cards[0].rank; } assert !SameRank(cards, 1, 5) by { assert cards[1].rank != cards[4].rank; } }
  }

  /** Aces over nines sorts the trips last and is still a full house of
      nines over aces. */
  lemma NinesOverAcesMadeIntended()
    ensures var cards := [Card(Clubs, Ace), Card(Diamonds, Ace), Card(Spades, Nine), Card(Hearts, Nine), Card(Diamonds, Nine)];
      SortedDesc(cards) && !FiveOfAKind(cards) &&
      GetHandIntended(cards) == FullHouse(FullHouseStr(Nine, Ace))
  {
    var cards := [Card(Clubs, Ace), Card(Diamonds, Ace), Card(Spades, Nine), Card(Hearts, Nine), Card(Diamonds, Nine)];
    SortedFromSteps(cards);
    assert !FiveOfAKind(cards) by { assert cards[4].rank != cards[0].rank; }
    assert FlushSuitOf(cards).None? by { assert cards[1].suit != cards[0].suit; }
    assert QuadsOf(cards).None? by { assert !SameRank(cards, 0, 4) by { assert cards[3].rank != cards[0].rank; } assert !SameRank(cards, 1, 5) by { assert cards[1].rank != cards[4].rank; } }
  }

  /** The wheel is a straight to the Five. */
  lemma WheelMadeIntended()
    ensures var cards := [Card(Spades, Ace), Card(Hearts, Five), Card(Clubs, Four), Card(Spades, Three), Card(Spades, Two)];
      SortedDesc(cards) && !FiveOfAKind(cards) &&
      GetHandIntended(cards) == Straight(StraightStr(Five))
  {
    var cards := [Card(Spades, Ace), Card(Hearts, Five), Card(Clubs, Four), Card(Spades, Three), Card(Spades, Two)];
    SortedFromSteps(cards);
    assert !FiveOfAKind(cards) by { assert cards[1].rank != cards[0].rank; }
    assert FlushSuitOf(cards).None? by { assert cards[1].suit != cards[0].suit; }
    assert StraightStepIntended(cards, 1) && StraightStepIntended(cards, 2) && StraightStepIntended(cards, 3) && StraightStepIntended(cards, 4);
    assert QuadsOf(cards).None? by { assert !SameRank(cards, 0, 4) && !SameRank(cards, 1, 5) by { assert cards[1].rank != cards[2].rank; } }
  }

  /** Broadway is a straight to the Ace. */
  lemma BroadwayMadeIntended()
    ensures var cards := [Card(Spades, Ace), Card(Spades, King), Card(Clubs, Queen), Card(Spades, Jack), Card(Spades, Ten)];
      SortedDesc(cards) && !FiveOfAKind(cards) &&
      GetHandIntended(cards) == Straight(StraightStr(Ace))
  {
    var cards := [Card(Spades, Ace), Card(Spades, King), Card(Clubs, Queen), Card(Spades, Jack), Card(Spades, Ten)];
    SortedFromSteps(cards);
    assert !FiveOfAKind(cards) by { assert cards[1].rank != cards[0].rank; }
    assert FlushSuitOf(cards).None? by { assert cards[2].suit != cards[0].suit; }
    assert StraightStepIntended(cards, 1) && StraightStepIntended(cards, 2) && StraightStepIntended(cards, 3) && StraightStepIntended(cards, 4);
    assert QuadsOf(cards).None? by { assert !SameRank(cards, 0, 4) && !SameRank(cards, 1, 5) by { assert cards[1].rank != cards[2].rank; } }
  }

  /** The royal flush is a straight flush to the Ace. */
  lemma RoyalMadeIntended()
    ensures var cards := [Card(Spades, Ace), Card(Spades, King), Card(Spades, Queen), Card(Spades, Jack), Card(Spades, Ten)];
      SortedDesc(cards) && !FiveOfAKind(cards) &&
      GetHandIntended(cards) == StraightFlush(StraightFlushStr(Ace))
  {
    var cards := [Card(Spades, Ace), Card(Spades, King), Card(Spades, Queen), Card(Spades, Jack), Card(Spades, Ten)];
    SortedFromSteps(cards);
    assert !FiveOfAKind(cards) by { assert cards[1].rank != cards[0].rank; }
    assert FlushSuitOf(cards) == Some(Spades);
    assert StraightStepIntended(cards, 1) && StraightStepIntended(cards, 2) && StraightStepIntended(cards, 3) && StraightStepIntended(cards, 4);
  }

  /** The suited wheel is a straight flush to the Five. */
  lemma SteelWheelMadeIntended()
    ensures var cards := [Card(Diamonds, Ace), Card(Diamonds, Five), Card(Diamonds, Four), Card(Diamonds, Three), Card(Diamonds, Two)];
      SortedDesc(cards) && !FiveOfAKind(cards) &&
      GetHandIntended(cards) == StraightFlush(StraightFlushStr(Five))
  {
    var cards := [Card(Diamonds, Ace), Card(Diamonds, Five), Card(Diamonds, Four), Card(Diamonds, Three), Card(Diamonds, Two)];
    SortedFromSteps(cards);
    assert !FiveOfAKind(cards) by { assert cards[1].rank != cards[0].rank; }
    assert FlushSuitOf(cards) == Some(Diamonds);
    assert StraightStepIntended(cards, 1) && StraightStepIntended(cards, 2) && StraightStepIntended(cards, 3) && StraightStepIntended(cards, 4);
  }

  /** Under the intended order the higher straight flush wins. */
  lemma HigherStraightFlushWinsIntended()
    ensures HandCmpIntended(StraightFlush(StraightFlushStr(Queen)), StraightFlush(StraightFlushStr(Jack))) == Greater
  {
  }
}
