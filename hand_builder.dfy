/** The `hand_builder` functions and `Hand::get_hand`.

    Each builder looks at five cards and either makes the payload of one
    category or answers None. Builders whose source runs a loop
    (`get_flush_suit`, `get_straight`, `get_quads`, `get_two_pair`,
    `get_pair`) appear twice: a method with the source's loop, proved
    equal to a function that states what the loop computes; `GetHand`,
    being a function, calls the functions. Rank equality is written as
    Dafny's `==` throughout: `Cards.RankEqIsIdentity` shows the source's
    hand-written `eq` is exactly that. */
module HandBuilder {
  import opened Prelude
  import opened Cards
  import opened PokerHands

  // ---------------------------------------------------------------------
  // Vocabulary

  /** The ranks of the cards, position by position. */
  function Ranks(cards: seq<Card>): (rs: seq<Rank>)
    requires |cards| == 5
    ensures |rs| == 5
    ensures forall i | 0 <= i < 5 :: rs[i] == cards[i].rank
  {
    [cards[0].rank, cards[1].rank, cards[2].rank, cards[3].rank, cards[4].rank]
  }

  /** The order `get_hand` asserts: each rank is `>=` the next, ace-high. */
  predicate SortedDesc(cards: seq<Card>)
  {
    forall i, j | 0 <= i < |cards| && 0 <= j < |cards| && j == i + 1 :: RankGe(cards[i].rank, cards[j].rank)
  }

  /** Sortedness from the four neighbouring comparisons `get_hand` makes. */
  lemma SortedFromSteps(cards: seq<Card>)
    requires |cards| == 5
    requires RankGe(cards[0].rank, cards[1].rank) && RankGe(cards[1].rank, cards[2].rank)
    requires RankGe(cards[2].rank, cards[3].rank) && RankGe(cards[3].rank, cards[4].rank)
    ensures SortedDesc(cards)
  {
  }

  /** The cards at i and i+1 share a rank. */
  predicate PairAt(cards: seq<Card>, i: int)
    requires 0 <= i < |cards| - 1
  {
    cards[i].rank == cards[i + 1].rank
  }

  /** Positions lo .. hi-1 all hold the rank at lo. */
  predicate SameRank(cards: seq<Card>, lo: int, hi: int)
    requires 0 <= lo < hi <= |cards|
  {
    forall i | lo <= i < hi :: cards[i].rank == cards[lo].rank
  }

  predicate FiveOfAKind(cards: seq<Card>)
    requires |cards| == 5
  {
    SameRank(cards, 0, 5)
  }

  /** Ranks never increase along the sequence, in the ace-high order. */
  ghost predicate Descending(rs: seq<Rank>)
  {
    forall i, j | 0 <= i < j < |rs| :: RankIndex(rs[i]) >= RankIndex(rs[j])
  }

  lemma SortedIsDescending(cards: seq<Card>)
    requires |cards| == 5 && SortedDesc(cards)
    ensures Descending(Ranks(cards))
  {
    var r := Ranks(cards);
    forall i | 0 <= i < 4
      ensures RankIndex(r[i]) >= RankIndex(r[i + 1])
    {
      RankGeIsIndexGe(cards[i].rank, cards[i + 1].rank);
    }
    forall i, j | 0 <= i < j < 5
      ensures RankIndex(r[i]) >= RankIndex(r[j])
    {
      var k := i;
      while k < j
        invariant i <= k <= j
        invariant RankIndex(r[i]) >= RankIndex(r[k])
      {
        k := k + 1;
      }
    }
  }

  /** A descending sequence of ranks is fixed by its multiset: sorting
      a hand makes its rank sequence independent of the input order. */
  lemma {:induction false} DescendingUnique(a: seq<Rank>, b: seq<Rank>)
    requires Descending(a) && Descending(b)
    requires multiset(a) == multiset(b)
    ensures a == b
    decreases |a|
  {
    assert |a| == |multiset(a)| == |multiset(b)| == |b|;
    if |a| > 0 {
      HeadIsHighest(a, b[0]);
      HeadIsHighest(b, a[0]);
      RankIndexInjective(a[0], b[0]);
      var ta, tb := a[1..], b[1..];
      assert a == [a[0]] + ta;
      assert b == [b[0]] + tb;
      assert multiset(a) == multiset{a[0]} + multiset(ta);
      assert multiset(b) == multiset{b[0]} + multiset(tb);
      forall y
        ensures multiset(ta)[y] == multiset(tb)[y]
      {
        assert multiset(a)[y] == multiset{a[0]}[y] + multiset(ta)[y];
        assert multiset(b)[y] == multiset{b[0]}[y] + multiset(tb)[y];
      }
      assert multiset(ta) == multiset(tb);
      DescendingTail(a);
      DescendingTail(b);
      DescendingUnique(ta, tb);
    }
  }

  lemma HeadIsHighest(a: seq<Rank>, y: Rank)
    requires Descending(a) && y in multiset(a)
    ensures RankIndex(a[0]) >= RankIndex(y)
  {
    var k :| 0 <= k < |a| && a[k] == y;
    if k > 0 {
      assert RankIndex(a[0]) >= RankIndex(a[k]);
    }
  }

  lemma DescendingTail(a: seq<Rank>)
    requires Descending(a) && |a| > 0
    ensures Descending(a[1..])
  {
    forall i, j | 0 <= i < j < |a| - 1
      ensures RankIndex(a[1..][i]) >= RankIndex(a[1..][j])
    {
      assert RankIndex(a[i + 1]) >= RankIndex(a[j + 1]);
    }
  }

  // ---------------------------------------------------------------------
  // High card and flush suit

  /** `get_hi_card`: the five ranks in the order given. */
  function GetHiCard(cards: seq<Card>): (h: HiCardStr)
    requires |cards| == 5
    ensures forall i | 0 <= i < 5 :: h.ranks[i] == cards[i].rank
  {
    HiCardStr([cards[0].rank, cards[1].rank, cards[2].rank, cards[3].rank, cards[4].rank])
  }

  /** What `get_flush_suit` computes: the first card's suit when every
      card shares it. */
  function FlushSuitOf(cards: seq<Card>): (s: Option<Suit>)
    requires |cards| == 5
  {
    if forall i | 0 <= i < |cards| :: cards[i].suit == cards[0].suit then Some(cards[0].suit) else None
  }

  /** `get_flush_suit`: scans every card against the first card's suit. */
  method GetFlushSuit(cards: seq<Card>) returns (s: Option<Suit>)
    requires |cards| == 5
    ensures s == FlushSuitOf(cards)
  {
    var flushSuit := cards[0].suit;
    for i := 0 to |cards|
      invariant forall j | 0 <= j < i :: cards[j].suit == flushSuit
    {
      if cards[i].suit != flushSuit {
        return None;
      }
    }
    return Some(flushSuit);
  }

  /** A flush suit exists exactly when all five suits are pairwise equal,
      and it is then the suit of every card. */
  lemma FlushSuitIffAllEqual(cards: seq<Card>)
    requires |cards| == 5
    ensures FlushSuitOf(cards).Some? <==>
      forall i, j | 0 <= i < 5 && 0 <= j < 5 :: cards[i].suit == cards[j].suit
    ensures FlushSuitOf(cards).Some? ==>
      forall i | 0 <= i < 5 :: cards[i].suit == FlushSuitOf(cards).value
  {
  }

  // ---------------------------------------------------------------------
  // Straight

  /** One step of the scan in `get_straight`: the skipped Ace-then-Two
      front, or one more declaration position than the previous card. */
  predicate StraightStep(cards: seq<Card>, i: int)
    requires |cards| == 5 && 1 <= i < 5
  {
    || (i == 1 && cards[0].rank == Ace && cards[1].rank == Two)
    || Discr(cards[i].rank) == Discr(cards[i - 1].rank) + 1
  }

  /** What `get_straight` computes: a run passing every step, reported
      with the first card's rank, or Four when that card is an Ace. */
  function StraightOf(cards: seq<Card>): (r: Option<StraightStr>)
    requires |cards| == 5
  {
    if forall i | 1 <= i < 5 :: StraightStep(cards, i) then
      Some(StraightStr(if cards[0].rank == Ace then Four else cards[0].rank))
    else
      None
  }

  /** `get_straight`. */
  method GetStraight(cards: seq<Card>) returns (r: Option<StraightStr>)
    requires |cards| == 5
    ensures r == StraightOf(cards)
  {
    for i := 1 to 5
      invariant forall j | 1 <= j < i :: StraightStep(cards, j)
    {
      var thisCard := cards[i];
      var prevCard := cards[i - 1];
      // the wheel detection of the source
      if i == 1 && prevCard.rank == Ace && thisCard.rank == Two {
        continue;
      }
      var thisRankIndex := Discr(cards[i].rank);
      var prevRankIndex := Discr(cards[i - 1].rank);
      if thisRankIndex != prevRankIndex + 1 {
        assert !StraightStep(cards, i);
        return None;
      }
    }
    if cards[0].rank == Ace {
      return Some(StraightStr(Four));
    } else {
      return Some(StraightStr(cards[0].rank));
    }
  }

  /** On sorted cards, `get_straight` succeeds exactly on five ranks that
      step down by one in the ace-high order (so never on A-5-4-3-2),
      and names the top card, except that an Ace on top (which can only
      be A-K-Q-J-T) is reported as Four. */
  lemma StraightOfSorted(cards: seq<Card>)
    requires |cards| == 5 && SortedDesc(cards)
    ensures StraightOf(cards).Some? <==>
      forall i | 1 <= i < 5 :: RankIndex(cards[i].rank) + 1 == RankIndex(cards[i - 1].rank)
    ensures StraightOf(cards).Some? && cards[0].rank != Ace ==>
      StraightOf(cards).value.hiRank == cards[0].rank
    ensures StraightOf(cards).Some? && cards[0].rank == Ace ==>
      Ranks(cards) == [Ace, King, Queen, Jack, Ten] && StraightOf(cards).value.hiRank == Four
  {
    SortedIsDescending(cards);
    var r := Ranks(cards);
    forall i | 1 <= i < 5
      ensures Discr(r[i]) == Discr(r[i - 1]) + 1 <==> RankIndex(r[i]) + 1 == RankIndex(r[i - 1])
    {
      DiscrStepIsIndexStep(r[i - 1], r[i]);
    }
    if r[0] == Ace && r[1] == Two {
      // the skipped front forces the third card to be a Two as well
      assert RankIndex(r[2]) <= RankIndex(r[1]) == 2;
      assert !StraightStep(cards, 2);
      assert RankIndex(r[1]) + 1 != RankIndex(r[0]);
    } else {
      assert forall i | 1 <= i < 5 ::
        StraightStep(cards, i) <==> Discr(r[i]) == Discr(r[i - 1]) + 1;
    }
    if StraightOf(cards).Some? && r[0] == Ace {
      assert RankIndex(r[1]) == 13 && RankIndex(r[2]) == 12;
      assert RankIndex(r[3]) == 11 && RankIndex(r[4]) == 10;
      RankIndexRoundTrip(r[1]);
      RankIndexRoundTrip(r[2]);
      RankIndexRoundTrip(r[3]);
      RankIndexRoundTrip(r[4]);
    }
  }

  // ---------------------------------------------------------------------
  // Straight flush and flush

  /** `get_straight_flush`: a flush that is also a straight, reported
      with the straight's high rank. */
  function GetStraightFlush(cards: seq<Card>): (r: Option<StraightFlushStr>)
    requires |cards| == 5
    ensures r.Some? <==> FlushSuitOf(cards).Some? && StraightOf(cards).Some?
    ensures r.Some? ==> r.value.hiRank == StraightOf(cards).value.hiRank
  {
    if FlushSuitOf(cards).None? then None
    else
      match StraightOf(cards)
      case Some(s) => Some(StraightFlushStr(s.hiRank))
      case None => None
  }

  /** `get_flush`: any five cards of one suit, with their ranks in order. */
  function GetFlush(cards: seq<Card>): (r: Option<FlushStr>)
    requires |cards| == 5
    ensures r.Some? <==> FlushSuitOf(cards).Some?
    ensures r.Some? ==> r.value.ranks == Ranks(cards)
  {
    if FlushSuitOf(cards).None? then None
    else Some(FlushStr(GetHiCard(cards).ranks))
  }

  // ---------------------------------------------------------------------
  // Quads

  /** What `get_quads` computes: the first four or the last four cards
      share a rank while the remaining card differs from its neighbour. */
  function QuadsOf(cards: seq<Card>): (r: Option<QuadsStr>)
    requires |cards| == 5
  {
    if SameRank(cards, 0, 4) && cards[3].rank != cards[4].rank then
      Some(QuadsStr(cards[0].rank, cards[4].rank))
    else if SameRank(cards, 1, 5) && cards[0].rank != cards[1].rank then
      Some(QuadsStr(cards[1].rank, cards[0].rank))
    else
      None
  }

  /** `get_quads`: decides which end holds the kicker, then checks the
      other four cards against the assumed quad rank. */
  method GetQuads(cards: seq<Card>) returns (r: Option<QuadsStr>)
    requires |cards| == 5
    ensures r == QuadsOf(cards)
  {
    var highKicker := cards[0].rank != cards[1].rank;
    var lowKicker := cards[3].rank != cards[4].rank;
    if !lowKicker && !highKicker {
      return None;
    }
    var kicker, quadRank, quadStart;
    if lowKicker {
      kicker, quadRank, quadStart := cards[4].rank, cards[0].rank, 0;
    } else {
      kicker, quadRank, quadStart := cards[0].rank, cards[1].rank, 1;
    }
    for i := quadStart to quadStart + 4
      invariant forall j | quadStart <= j < i :: cards[j].rank == quadRank
    {
      if cards[i].rank != quadRank {
        return None;
      }
    }
    return Some(QuadsStr(quadRank, kicker));
  }

  /** Quads are found exactly when positions 0..3 or 1..4 share a rank
      and the hand is not five of a kind (both end pairs matching is
      rejected up front); four cards then hold the quad rank and the
      kicker is the fifth, different rank. */
  lemma QuadsOfIff(cards: seq<Card>)
    requires |cards| == 5
    ensures QuadsOf(cards).Some? <==>
      (SameRank(cards, 0, 4) || SameRank(cards, 1, 5)) && !SameRank(cards, 0, 5)
    ensures QuadsOf(cards).Some? ==>
      var q := QuadsOf(cards).value;
      q.kicker != q.rank && multiset(Ranks(cards)) == multiset{q.rank, q.rank, q.rank, q.rank, q.kicker}
  {
    var r := Ranks(cards);
    if QuadsOf(cards).Some? {
      var q := QuadsOf(cards).value;
      if SameRank(cards, 0, 4) && cards[3].rank != cards[4].rank {
        assert r == [q.rank, q.rank, q.rank, q.rank, q.kicker];
      } else {
        assert r == [q.kicker, q.rank, q.rank, q.rank, q.rank];
      }
    }
  }

  // ---------------------------------------------------------------------
  // Full house

  /** `get_full_house` as written: it asks that the first two cards and
      the LAST card and the second card share ranks (line 152 reads
      `cards[4]` where `cards[3]` was meant). On sorted cards that
      already makes all five equal, which the sanity check excludes, so
      the builder never makes a full house. */
  function GetFullHouse(cards: seq<Card>): (r: Option<FullHouseStr>)
    requires |cards| == 5 && SortedDesc(cards) && !FiveOfAKind(cards)
    ensures r == None
  {
    var r0, r1, r2, r4 := cards[0].rank, cards[1].rank, cards[2].rank, cards[4].rank;
    if r0 != r1 then None
    else if r4 != r1 then None
    else
      // the sanity check (high pair rank differs from low pair rank) is
      // the precondition's "not five of a kind"
      var highPairRank, lowPairRank := r0, r4;
      var threeOfHigh := highPairRank == r2;
      var threeOfLow := lowPairRank == r2;
      if !threeOfHigh && !threeOfLow then None
      else if threeOfHigh then Some(FullHouseStr(highPairRank, lowPairRank))
      else Some(FullHouseStr(lowPairRank, highPairRank))
  }

  // ---------------------------------------------------------------------
  // Trips

  /** Between two equal ranks of sorted cards every rank is the same. */
  lemma SortedRun(cards: seq<Card>, lo: int, hi: int)
    requires |cards| == 5 && SortedDesc(cards)
    requires 0 <= lo < hi < 5 && cards[lo].rank == cards[hi].rank
    ensures SameRank(cards, lo, hi + 1)
  {
    SortedIsDescending(cards);
    forall i | lo <= i <= hi
      ensures cards[i].rank == cards[lo].rank
    {
      assert RankIndex(Ranks(cards)[lo]) >= RankIndex(Ranks(cards)[i]) >= RankIndex(Ranks(cards)[hi]);
      RankIndexInjective(cards[i].rank, cards[lo].rank);
    }
  }

  /** `get_trips`: compares the ends of the runs at positions 0-2, 1-3
      and 2-4 (which suffices on sorted cards); the other two ranks, in
      their order, are the kickers. */
  function GetTrips(cards: seq<Card>): (r: Option<TripsStr>)
    requires |cards| == 5
    ensures r.Some? ==>
      exists lo | 0 <= lo < 3 :: cards[lo].rank == r.value.rank && cards[lo + 2].rank == r.value.rank
  {
    if cards[0].rank == cards[2].rank then
      Some(TripsStr(cards[0].rank, [cards[3].rank, cards[4].rank]))
    else if cards[1].rank == cards[3].rank then
      Some(TripsStr(cards[1].rank, [cards[0].rank, cards[4].rank]))
    else if cards[2].rank == cards[4].rank then
      Some(TripsStr(cards[2].rank, [cards[0].rank, cards[1].rank]))
    else
      None
  }

  /** On sorted cards `get_trips` succeeds exactly on three equal ranks
      in a row, which then hold the trips rank. */
  lemma TripsOfSorted(cards: seq<Card>)
    requires |cards| == 5 && SortedDesc(cards)
    ensures GetTrips(cards).Some? <==>
      SameRank(cards, 0, 3) || SameRank(cards, 1, 4) || SameRank(cards, 2, 5)
    ensures GetTrips(cards).Some? ==>
      exists lo | 0 <= lo < 3 :: SameRank(cards, lo, lo + 3) && cards[lo].rank == GetTrips(cards).value.rank
  {
    if cards[0].rank == cards[2].rank {
      SortedRun(cards, 0, 2);
    } else if cards[1].rank == cards[3].rank {
      SortedRun(cards, 1, 3);
    } else if cards[2].rank == cards[4].rank {
      SortedRun(cards, 2, 4);
    }
  }

  /** On sorted cards the trips rank and the two kickers make up the
      hand, and the kickers come higher first. */
  lemma TripsKickersAreTheRest(cards: seq<Card>)
    requires |cards| == 5 && SortedDesc(cards)
    ensures GetTrips(cards).Some? ==>
      var t := GetTrips(cards).value;
      && multiset(Ranks(cards)) == multiset{t.rank, t.rank, t.rank} + multiset(t.kickers)
      && RankGe(t.kickers[0], t.kickers[1])
  {
    var r := Ranks(cards);
    if GetTrips(cards).Some? {
      var t := GetTrips(cards).value;
      if r[0] == r[2] {
        SortedRun(cards, 0, 2);
      } else if r[1] == r[3] {
        SortedRun(cards, 1, 3);
      } else {
        SortedRun(cards, 2, 4);
      }
      TripsSplit(r, t);
      SortedIsDescending(cards);
      RankGeIsIndexGe(t.kickers[0], t.kickers[1]);
    }
  }

  lemma TripsSplit(r: seq<Rank>, t: TripsStr)
    requires |r| == 5
    requires || r == [t.rank, t.rank, t.rank, t.kickers[0], t.kickers[1]]
             || r == [t.kickers[0], t.rank, t.rank, t.rank, t.kickers[1]]
             || r == [t.kickers[0], t.kickers[1], t.rank, t.rank, t.rank]
    ensures multiset(r) == multiset{t.rank, t.rank, t.rank} + multiset(t.kickers)
  {
    assert t.kickers == [t.kickers[0], t.kickers[1]];
  }

  // ---------------------------------------------------------------------
  // Two pair

  /** The ranks of the disjoint adjacent pairs a left-to-right scan
      claims from position i on: a pair at i-1, i is taken and the scan
      resumes two places later. */
  function GreedyPairs(rs: seq<Rank>, i: nat): seq<Rank>
    requires 1 <= i
    decreases |rs| - i
  {
    if i >= |rs| then []
    else if rs[i] == rs[i - 1] then [rs[i]] + GreedyPairs(rs, i + 2)
    else GreedyPairs(rs, i + 1)
  }

  /** The scan claims at most one pair per two positions. */
  lemma {:induction false} GreedyPairsBound(rs: seq<Rank>, i: nat)
    requires 1 <= i <= |rs| + 1
    ensures 2 * |GreedyPairs(rs, i)| <= |rs| - i + 1
    decreases |rs| - i
  {
    if i < |rs| {
      if rs[i] == rs[i - 1] {
        GreedyPairsBound(rs, i + 2);
      } else {
        GreedyPairsBound(rs, i + 1);
      }
    }
  }

  /** The kicker search of `get_two_pair`: the first card from position i
      on whose rank is neither pair rank; the first card's rank if none. */
  function KickerFrom(rs: seq<Rank>, hi: Rank, lo: Rank, i: nat): Rank
    requires |rs| == 5 && 1 <= i <= 5
    decreases 5 - i
  {
    if i == 5 then rs[0]
    else if rs[i] != hi && rs[i] != lo then rs[i]
    else KickerFrom(rs, hi, lo, i + 1)
  }

  /** What `get_two_pair` computes: the first two pairs the scan claims,
      and the kicker. */
  function TwoPairOf(cards: seq<Card>): (r: Option<TwoPairStr>)
    requires |cards| == 5
  {
    var rs := Ranks(cards);
    var ps := GreedyPairs(rs, 1);
    if |ps| < 2 then None
    else Some(TwoPairStr(ps[0], ps[1], KickerFrom(rs, ps[0], ps[1], 1)))
  }

  /** The pairs found so far, in the order found. */
  function Found(high: Option<Rank>, low: Option<Rank>): seq<Rank>
  {
    (if high.Some? then [high.value] else []) + (if low.Some? then [low.value] else [])
  }

  /** `get_two_pair`. */
  method GetTwoPair(cards: seq<Card>) returns (r: Option<TwoPairStr>)
    requires |cards| == 5
    ensures r == TwoPairOf(cards)
  {
    ghost var rs := Ranks(cards);
    var highPairRank: Option<Rank> := None;
    var lowPairRank: Option<Rank> := None;
    var i := 1;
    while i < 5
      invariant 1 <= i <= 6
      invariant lowPairRank.Some? ==> highPairRank.Some? && i >= 5
      invariant highPairRank.Some? ==> i >= 3
      invariant Found(highPairRank, lowPairRank) + GreedyPairs(rs, i) == GreedyPairs(rs, 1)
    {
      var thisRank := cards[i].rank;
      var prevRank := cards[i - 1].rank;
      if thisRank == prevRank {
        if !highPairRank.Some? {
          highPairRank := Some(thisRank);
        } else if !lowPairRank.Some? {
          lowPairRank := Some(thisRank);
        } else {
          // the third pair of the source's panic cannot be found
          assert false;
        }
        i := i + 2;
      } else {
        i := i + 1;
      }
    }

    if !(highPairRank.Some? && lowPairRank.Some?) {
      return None;
    }

    var hiRank := highPairRank.value;
    var loRank := lowPairRank.value;

    var kicker := cards[0].rank;
    for j := 1 to 5
      invariant KickerFrom(rs, hiRank, loRank, j) == KickerFrom(rs, hiRank, loRank, 1)
      invariant kicker == cards[0].rank
    {
      var rank := cards[j].rank;
      if rank != hiRank && rank != loRank {
        kicker := rank;
        break;
      }
    }

    return Some(TwoPairStr(hiRank, loRank, kicker));
  }

  /** On five cards the scan finds at most two pairs, so the panic for a
      third pair is unreachable; two pairs are found exactly when the
      claimed positions are (0,1) with (2,3) or (3,4), or (1,2) with (3,4). */
  lemma TwoPairOfPositions(cards: seq<Card>)
    requires |cards| == 5
    ensures |GreedyPairs(Ranks(cards), 1)| <= 2
    ensures TwoPairOf(cards).Some? <==>
      var r := Ranks(cards);
      || (r[0] == r[1] && (r[2] == r[3] || r[3] == r[4]))
      || (r[0] != r[1] && r[1] == r[2] && r[3] == r[4])
  {
    var r := Ranks(cards);
    GreedyPairsBound(r, 1);
    UnfoldGreedyPairs(r);
  }

  lemma UnfoldGreedyPairs(r: seq<Rank>)
    requires |r| == 5
    ensures GreedyPairs(r, 1) ==
      if r[0] == r[1] then
        [r[1]] + (if r[2] == r[3] then [r[3]] else if r[3] == r[4] then [r[4]] else [])
      else if r[1] == r[2] then
        [r[2]] + (if r[3] == r[4] then [r[4]] else [])
      else if r[2] == r[3] then [r[3]]
      else if r[3] == r[4] then [r[4]]
      else []
  {
    assert GreedyPairs(r, 5) == [] && GreedyPairs(r, 6) == [];
    assert GreedyPairs(r, 4) == if r[3] == r[4] then [r[4]] else [];
    assert GreedyPairs(r, 3) == if r[2] == r[3] then [r[3]] else GreedyPairs(r, 4);
  }

  /** On sorted cards the first pair found is at least as high as the
      second. */
  lemma TwoPairHighOverLow(cards: seq<Card>)
    requires |cards| == 5 && SortedDesc(cards)
    ensures TwoPairOf(cards).Some? ==> RankGe(TwoPairOf(cards).value.hiRank, TwoPairOf(cards).value.loRank)
  {
    SortedIsDescending(cards);
    UnfoldGreedyPairs(Ranks(cards));
  }

  /** Two pairs of distinct ranks plus a fifth card of a third rank, in
      sorted order, make the two pair with that fifth card as kicker,
      wherever the kicker sits. */
  lemma TwoPairKickerIsOddCard(cards: seq<Card>, h: Rank, l: Rank, k: Rank)
    requires |cards| == 5 && SortedDesc(cards)
    requires RankIndex(h) > RankIndex(l) && k != h && k != l
    requires multiset(Ranks(cards)) == multiset{h, h, l, l, k}
    ensures TwoPairOf(cards) == Some(TwoPairStr(h, l, k))
  {
    SortedIsDescending(cards);
    var r := Ranks(cards);
    var e := TwoPairLayout(h, l, k);
    DescendingUnique(r, e);
    TwoPairOfLayout(h, l, k);
  }

  /** The one descending arrangement of two pairs and a kicker. */
  function TwoPairLayout(h: Rank, l: Rank, k: Rank): (e: seq<Rank>)
    requires RankIndex(h) > RankIndex(l) && k != h && k != l
    ensures Descending(e) && multiset(e) == multiset{h, h, l, l, k}
  {
    RankIndexInjective(k, h);
    RankIndexInjective(k, l);
    if RankIndex(k) > RankIndex(h) then [k, h, h, l, l]
    else if RankIndex(k) > RankIndex(l) then [h, h, k, l, l]
    else [h, h, l, l, k]
  }

  lemma TwoPairOfLayout(h: Rank, l: Rank, k: Rank)
    requires RankIndex(h) > RankIndex(l) && k != h && k != l
    ensures var e := TwoPairLayout(h, l, k);
      GreedyPairs(e, 1) == [h, l] && KickerFrom(e, h, l, 1) == k
  {
    var e := TwoPairLayout(h, l, k);
    UnfoldGreedyPairs(e);
    assert KickerFrom(e, h, l, 5) == e[0];
  }

  // ---------------------------------------------------------------------
  // Pair

  /** The first position i' >= i where a card and the next share a rank. */
  function FirstPairFrom(cards: seq<Card>, i: nat): (p: Option<nat>)
    requires |cards| == 5 && i <= 4
    ensures p.Some? ==> i <= p.value < 4 && PairAt(cards, p.value)
    ensures p.Some? ==> forall j | i <= j < p.value :: !PairAt(cards, j)
    ensures p.None? ==> forall j | i <= j < 4 :: !PairAt(cards, j)
    decreases 4 - i
  {
    if i == 4 then None
    else if cards[i].rank == cards[i + 1].rank then Some(i)
    else FirstPairFrom(cards, i + 1)
  }

  /** The ranks other than x, in their order. */
  function OtherRanks(rs: seq<Rank>, x: Rank): seq<Rank>
  {
    if rs == [] then []
    else (if rs[0] == x then [] else [rs[0]]) + OtherRanks(rs[1..], x)
  }

  /** Filtering out x removes every copy of x and keeps the rest. */
  lemma {:induction false} OtherRanksMultiset(rs: seq<Rank>, x: Rank)
    ensures |OtherRanks(rs, x)| == |rs| - multiset(rs)[x]
    ensures multiset(OtherRanks(rs, x)) == multiset(rs)[x := 0]
  {
    if rs != [] {
      assert rs == [rs[0]] + rs[1..];
      OtherRanksMultiset(rs[1..], x);
    }
  }

  /** Filtering distributes over concatenation. */
  lemma {:induction false} OtherRanksConcat(a: seq<Rank>, b: seq<Rank>, x: Rank)
    ensures OtherRanks(a + b, x) == OtherRanks(a, x) + OtherRanks(b, x)
  {
    if a != [] {
      assert (a + b)[1..] == a[1..] + b;
      OtherRanksConcat(a[1..], b, x);
    } else {
      assert a + b == b;
    }
  }

  /** Filtering one more element of a prefix appends it unless it is x;
      the filtered prefix never outgrows the filtered whole. */
  lemma OtherRanksPrefixStep(rs: seq<Rank>, i: int, x: Rank)
    requires 0 <= i < |rs|
    ensures OtherRanks(rs[..i + 1], x) ==
      OtherRanks(rs[..i], x) + (if rs[i] == x then [] else [rs[i]])
    ensures |OtherRanks(rs[..i + 1], x)| <= |OtherRanks(rs, x)|
  {
    assert rs[..i + 1] == rs[..i] + [rs[i]];
    OtherRanksConcat(rs[..i], [rs[i]], x);
    assert rs == rs[..i + 1] + rs[i + 1..];
    OtherRanksConcat(rs[..i + 1], rs[i + 1..], x);
  }

  /** What `get_pair` demands for its final assertion: the first pair's
      rank is held by exactly two cards, so exactly three kickers are
      written. */
  predicate PairRankTwice(cards: seq<Card>)
    requires |cards| == 5
  {
    var p := FirstPairFrom(cards, 0);
    p.Some? ==> multiset(Ranks(cards))[cards[p.value].rank] == 2
  }

  /** What `get_pair` computes: the rank of the first adjacent pair, and
      every other rank, in order, as kickers. */
  function PairOf(cards: seq<Card>): (r: Option<PairStr>)
    requires |cards| == 5 && PairRankTwice(cards)
  {
    match FirstPairFrom(cards, 0)
    case None => None
    case Some(p) =>
      OtherRanksMultiset(Ranks(cards), cards[p].rank);
      Some(PairStr(cards[p].rank, OtherRanks(Ranks(cards), cards[p].rank)))
  }

  /** `get_pair`: finds the first adjacent pair, then fills a three-slot
      kicker array (initialised with dummy Aces) with the other ranks. */
  method GetPair(cards: seq<Card>) returns (r: Option<PairStr>)
    requires |cards| == 5 && PairRankTwice(cards)
    ensures r == PairOf(cards)
  {
    var pairStart: Option<nat> := None;
    for i := 0 to 4
      invariant pairStart == None && FirstPairFrom(cards, 0) == FirstPairFrom(cards, i)
    {
      if cards[i].rank == cards[i + 1].rank {
        pairStart := Some(i);
        break;
      }
    }
    if !pairStart.Some? {
      return None;
    }
    assert pairStart == FirstPairFrom(cards, 0);

    var pairRank := cards[pairStart.value].rank;
    assert |OtherRanks(Ranks(cards), pairRank)| == 3 by {
      OtherRanksMultiset(Ranks(cards), pairRank);
    }
    ghost var rs := Ranks(cards);
    var kickers := new Rank[3](_ => Ace);
    var kickerIndex := 0;
    for i := 0 to 5
      invariant 0 <= kickerIndex <= 3
      invariant kickers[..kickerIndex] == OtherRanks(rs[..i], pairRank)
    {
      OtherRanksPrefixStep(rs, i, pairRank);
      var thisRank := cards[i].rank;
      if thisRank == pairRank {
        continue;
      }
      kickers[kickerIndex] := thisRank;
      kickerIndex := kickerIndex + 1;
    }
    assert rs[..5] == rs;
    assert kickerIndex == 3;
    assert kickers[..] == kickers[..kickerIndex];
    return Some(PairStr(pairRank, kickers[..]));
  }

  /** With the cards sorted and no three of a kind in a row, every
      rank is held by at most two cards, so `get_pair`'s assertion holds. */
  lemma PairRankTwiceWithoutTrips(cards: seq<Card>)
    requires |cards| == 5 && SortedDesc(cards) && GetTrips(cards).None?
    ensures PairRankTwice(cards)
  {
    var p := FirstPairFrom(cards, 0);
    if p.Some? {
      var q := p.value;
      var r := Ranks(cards);
      var x := r[q];
      SortedIsDescending(cards);
      forall j | 0 <= j < 5 && j != q && j != q + 1
        ensures r[j] != x
      {
        if j < q {
          assert RankIndex(r[j]) >= RankIndex(r[q - 1]) >= RankIndex(r[q]);
          RankIndexInjective(r[q - 1], x);
        } else {
          assert RankIndex(r[q]) >= RankIndex(r[q + 2]) >= RankIndex(r[j]);
          RankIndexInjective(r[q + 2], x);
        }
      }
      CountTwo(r, q);
    }
  }

  /** A rank at positions q and q+1 only occurs twice. */
  lemma CountTwo(r: seq<Rank>, q: int)
    requires |r| == 5 && 0 <= q < 4 && r[q] == r[q + 1]
    requires forall j | 0 <= j < 5 && j != q && j != q + 1 :: r[j] != r[q]
    ensures multiset(r)[r[q]] == 2
  {
    var x := r[q];
    assert r == [r[0], r[1], r[2], r[3], r[4]];
    if q == 0 {
      assert r[2] != x && r[3] != x && r[4] != x;
    } else if q == 1 {
      assert r[0] != x && r[3] != x && r[4] != x;
    } else if q == 2 {
      assert r[0] != x && r[1] != x && r[4] != x;
    } else {
      assert r[0] != x && r[1] != x && r[2] != x;
    }
  }

  /** On sorted cards without three of a kind, `get_pair` reports the
      first pair with three kickers that differ from it and keep the
      descending order. */
  lemma PairOfSorted(cards: seq<Card>)
    requires |cards| == 5 && SortedDesc(cards) && GetTrips(cards).None?
    ensures PairRankTwice(cards)
    ensures PairOf(cards).Some? <==> exists i | 0 <= i < 4 :: PairAt(cards, i)
    ensures PairOf(cards).Some? ==>
      var s := PairOf(cards).value;
      && s.rank !in s.kickers
      && multiset(Ranks(cards)) == multiset{s.rank, s.rank} + multiset(s.kickers)
      && Descending(s.kickers)
  {
    PairRankTwiceWithoutTrips(cards);
    if PairOf(cards).Some? {
      var s := PairOf(cards).value;
      var r := Ranks(cards);
      PairSplit(r, s);
      SortedIsDescending(cards);
      OtherRanksDescending(r, s.rank);
    }
  }

  lemma PairSplit(r: seq<Rank>, s: PairStr)
    requires multiset(r)[s.rank] == 2 && s.kickers == OtherRanks(r, s.rank)
    ensures s.rank !in s.kickers
    ensures multiset(r) == multiset{s.rank, s.rank} + multiset(s.kickers)
  {
    OtherRanksMultiset(r, s.rank);
    assert multiset(s.kickers)[s.rank] == 0;
  }

  /** Dropping one rank from a descending sequence keeps it descending. */
  lemma {:induction false} OtherRanksDescending(rs: seq<Rank>, x: Rank)
    requires Descending(rs)
    ensures Descending(OtherRanks(rs, x))
    decreases |rs|
  {
    if rs != [] {
      DescendingTail(rs);
      OtherRanksDescending(rs[1..], x);
      if rs[0] != x {
        var tail := OtherRanks(rs[1..], x);
        HeadAboveOthers(rs, x);
        ConsDescending(rs[0], tail);
      }
    }
  }

  lemma HeadAboveOthers(rs: seq<Rank>, x: Rank)
    requires Descending(rs) && rs != []
    ensures forall y | y in OtherRanks(rs[1..], x) :: RankIndex(rs[0]) >= RankIndex(y)
  {
    assert rs == [rs[0]] + rs[1..];
    OtherRanksMultiset(rs[1..], x);
    forall y | y in OtherRanks(rs[1..], x)
      ensures RankIndex(rs[0]) >= RankIndex(y)
    {
      assert multiset(OtherRanks(rs[1..], x))[y] > 0;
      assert y in multiset(rs);
      HeadIsHighest(rs, y);
    }
  }

  lemma ConsDescending(h: Rank, tail: seq<Rank>)
    requires Descending(tail)
    requires forall y | y in tail :: RankIndex(h) >= RankIndex(y)
    ensures Descending([h] + tail)
  {
    var k := [h] + tail;
    forall i, j | 0 <= i < j < |k|
      ensures RankIndex(k[i]) >= RankIndex(k[j])
    {
      assert k[j] == tail[j - 1];
      if i > 0 {
        assert k[i] == tail[i - 1];
      }
    }
  }

  // ---------------------------------------------------------------------
  // The classifier

  /** `Hand::get_hand`: five cards in non-increasing ace-high order (the
      source asserts both), tried from the strongest category down; high
      card when nothing else matches. Five of a kind is excluded, as the
      full-house builder's sanity check demands. As written it never
      reports a full house, nor a straight or straight flush to the Ace. */
  function GetHand(cards: seq<Card>): (h: Hand)
    requires |cards| == 5 && SortedDesc(cards) && !FiveOfAKind(cards)
    ensures !h.FullHouse?
    ensures h.Straight? ==> h.straight.hiRank != Ace
    ensures h.StraightFlush? ==> h.straightFlush.hiRank != Ace
  {
    match GetStraightFlush(cards)
    case Some(s) => StraightFlush(s)
    case None =>
    match QuadsOf(cards)
    case Some(s) => Quads(s)
    case None =>
    match GetFullHouse(cards)
    case Some(s) => FullHouse(s)
    case None =>
    match GetFlush(cards)
    case Some(s) => Flush(s)
    case None =>
    match StraightOf(cards)
    case Some(s) => Straight(s)
    case None =>
    match GetTrips(cards)
    case Some(s) => Trips(s)
    case None =>
    match TwoPairOf(cards)
    case Some(s) => TwoPair(s)
    case None =>
    PairRankTwiceWithoutTrips(cards);
    match PairOf(cards)
    case Some(s) => Pair(s)
    case None => HiCard(GetHiCard(cards))
  }

  /** `get_hand` falls back to high card exactly when no two neighbours
      share a rank and there is neither a flush nor a straight; the high
      card then holds the five ranks in the order given. */
  lemma GetHandHiCard(cards: seq<Card>)
    requires |cards| == 5 && SortedDesc(cards) && !FiveOfAKind(cards)
    ensures GetHand(cards).HiCard? <==>
      && (forall i | 0 <= i < 4 :: !PairAt(cards, i))
      && FlushSuitOf(cards).None?
      && StraightOf(cards).None?
    ensures GetHand(cards).HiCard? ==> GetHand(cards).hiCard.ranks == Ranks(cards)
  {
    var r := Ranks(cards);
    if forall i | 0 <= i < 4 :: !PairAt(cards, i) {
      assert !PairAt(cards, 0) && !PairAt(cards, 1) && !PairAt(cards, 2) && !PairAt(cards, 3);
      assert QuadsOf(cards).None?;
      if cards[0].rank == cards[2].rank {
        SortedRun(cards, 0, 2);
      }
      if cards[1].rank == cards[3].rank {
        SortedRun(cards, 1, 3);
      }
      if cards[2].rank == cards[4].rank {
        SortedRun(cards, 2, 4);
      }
      assert GetTrips(cards).None?;
      UnfoldGreedyPairs(r);
      assert TwoPairOf(cards).None?;
    }
    if GetHand(cards).HiCard? {
      assert GetHand(cards).hiCard.ranks == r;
    }
  }
  // ---------------------------------------------------------------------
  // The classifier does not depend on how equal-ranked cards are ordered

  /** The ranks of any number of cards, in order. */
  function RanksOf(cs: seq<Card>): (rs: seq<Rank>)
    ensures |rs| == |cs|
    ensures forall i | 0 <= i < |cs| :: rs[i] == cs[i].rank
  {
    if cs == [] then [] else [cs[0].rank] + RanksOf(cs[1..])
  }

  /** How many cards of rank x a multiset of cards holds, over all four
      suits. */
  function CardsOfRank(m: multiset<Card>, x: Rank): nat
  {
    m[Card(Spades, x)] + m[Card(Hearts, x)] + m[Card(Clubs, x)] + m[Card(Diamonds, x)]
  }

  /** A rank occurs among the cards as often as its four cards, one per
      suit, occur together. */
  lemma {:induction false} RankCount(cs: seq<Card>, x: Rank)
    ensures multiset(RanksOf(cs))[x] == CardsOfRank(multiset(cs), x)
  {
    if cs != [] {
      var c, rest := cs[0], cs[1..];
      RankCount(rest, x);
      assert cs == [c] + rest;
      assert RanksOf(cs) == [c.rank] + RanksOf(rest);
      CardsOfRankStep(c, multiset(rest), x);
    }
  }

  lemma CardsOfRankStep(c: Card, m: multiset<Card>, x: Rank)
    ensures CardsOfRank(multiset{c} + m, x) == (if c.rank == x then 1 else 0) + CardsOfRank(m, x)
  {
    assert CardsOfRank(multiset{c} + m, x) == CardsOfRank(multiset{c}, x) + CardsOfRank(m, x);
    match c.suit
    case Spades =>
    case Hearts =>
    case Clubs =>
    case Diamonds =>
  }

  /** The same five cards, however arranged, hold the same ranks. */
  lemma SameCardsSameRanks(a: seq<Card>, b: seq<Card>)
    requires |a| == 5 && |b| == 5 && multiset(a) == multiset(b)
    ensures multiset(Ranks(a)) == multiset(Ranks(b))
  {
    assert Ranks(a) == RanksOf(a);
    assert Ranks(b) == RanksOf(b);
    forall x: Rank
      ensures multiset(RanksOf(a))[x] == multiset(RanksOf(b))[x]
    {
      RankCount(a, x);
      RankCount(b, x);
    }
  }

  /** If five cards share a suit, so does any arrangement of them. */
  lemma SameCardsFlush(a: seq<Card>, b: seq<Card>)
    requires |a| == 5 && |b| == 5 && multiset(a) == multiset(b)
    requires FlushSuitOf(a).Some?
    ensures FlushSuitOf(b).Some?
  {
    FlushSuitIffAllEqual(a);
    forall i | 0 <= i < 5
      ensures b[i].suit == a[0].suit
    {
      assert b[i] in multiset(a);
      var j :| 0 <= j < 5 && a[j] == b[i];
    }
  }

  /** Two sorted arrangements of the same five cards make the same hand:
      the category and every tie-break rank are fixed by the cards, not
      by the order `get_hand` is given equal ranks in. */
  lemma GetHandOrderIndependent(a: seq<Card>, b: seq<Card>)
    requires |a| == 5 && |b| == 5 && SortedDesc(a) && SortedDesc(b) && !FiveOfAKind(a)
    requires multiset(a) == multiset(b)
    ensures !FiveOfAKind(b) && GetHand(a) == GetHand(b)
  {
    SameCardsSameRanks(a, b);
    SortedIsDescending(a);
    SortedIsDescending(b);
    DescendingUnique(Ranks(a), Ranks(b));
    if FlushSuitOf(a).Some? {
      SameCardsFlush(a, b);
    }
    if FlushSuitOf(b).Some? {
      SameCardsFlush(b, a);
    }
    SameRanksSameHand(a, b);
  }

  /** The classifier reads only the ranks, position by position, and
      whether there is a flush. */
  lemma SameRanksSameHand(a: seq<Card>, b: seq<Card>)
    requires |a| == 5 && |b| == 5 && SortedDesc(a) && SortedDesc(b) && !FiveOfAKind(a)
    requires Ranks(a) == Ranks(b)
    requires FlushSuitOf(a).Some? == FlushSuitOf(b).Some?
    ensures !FiveOfAKind(b) && GetHand(a) == GetHand(b)
  {
    BuildersReadRanks(a, b);
    if GetTrips(a).None? {
      PairRankTwiceWithoutTrips(a);
      PairRankTwiceWithoutTrips(b);
      FirstPairReadsRanks(a, b, 0);
    }
  }

  /** Every builder but the flush test reads only the ranks. */
  lemma BuildersReadRanks(a: seq<Card>, b: seq<Card>)
    requires |a| == 5 && |b| == 5 && Ranks(a) == Ranks(b)
    ensures FiveOfAKind(a) == FiveOfAKind(b)
    ensures StraightOf(a) == StraightOf(b)
    ensures QuadsOf(a) == QuadsOf(b)
    ensures GetTrips(a) == GetTrips(b)
    ensures TwoPairOf(a) == TwoPairOf(b)
    ensures GetHiCard(a) == GetHiCard(b)
  {
    assert forall i | 0 <= i < 5 :: a[i].rank == b[i].rank by {
      assert forall i | 0 <= i < 5 :: Ranks(a)[i] == Ranks(b)[i];
    }
    assert forall i | 1 <= i < 5 :: StraightStep(a, i) == StraightStep(b, i);
  }

  lemma {:induction false} FirstPairReadsRanks(a: seq<Card>, b: seq<Card>, i: nat)
    requires |a| == 5 && |b| == 5 && Ranks(a) == Ranks(b) && i <= 4
    ensures FirstPairFrom(a, i) == FirstPairFrom(b, i)
    decreases 4 - i
  {
    assert forall k | 0 <= k < 5 :: a[k].rank == b[k].rank by {
      assert forall k | 0 <= k < 5 :: Ranks(a)[k] == Ranks(b)[k];
    }
    if i < 4 {
      FirstPairReadsRanks(a, b, i + 1);
    }
  }
}
