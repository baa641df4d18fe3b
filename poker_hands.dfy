/** The hand values of the `poker_hands` crate and their total order.

    A `Hand` is one of nine categories, each carrying only the ranks that
    break ties inside it; fixed-size Rust arrays become the subset types
    `Ranks5`, `Ranks3` and `Ranks2`. Hands compare by category first and,
    inside one category, by the lexicographic order of their tie-break
    buffers, whose elements compare by the DERIVED order on `Rank`. */
module PokerHands {
  import opened Prelude
  import opened Cards

  type Ranks5 = s: seq<Rank> | |s| == 5 witness [Ace, Ace, Ace, Ace, Ace]
  type Ranks3 = s: seq<Rank> | |s| == 3 witness [Ace, Ace, Ace]
  type Ranks2 = s: seq<Rank> | |s| == 2 witness [Ace, Ace]

  datatype HiCardStr = HiCardStr(ranks: Ranks5)
  datatype PairStr = PairStr(rank: Rank, kickers: Ranks3)
  datatype TwoPairStr = TwoPairStr(hiRank: Rank, loRank: Rank, kicker: Rank)
  datatype TripsStr = TripsStr(rank: Rank, kickers: Ranks2)
  datatype StraightStr = StraightStr(hiRank: Rank)
  datatype FlushStr = FlushStr(ranks: Ranks5)
  datatype FullHouseStr = FullHouseStr(threeOf: Rank, twoOf: Rank)
  datatype QuadsStr = QuadsStr(rank: Rank, kicker: Rank)
  datatype StraightFlushStr = StraightFlushStr(hiRank: Rank)

  datatype Hand =
    | HiCard(hiCard: HiCardStr)
    | Pair(pair: PairStr)
    | TwoPair(twoPair: TwoPairStr)
    | Trips(trips: TripsStr)
    | Straight(straight: StraightStr)
    | Flush(flush: FlushStr)
    | FullHouse(fullHouse: FullHouseStr)
    | Quads(quads: QuadsStr)
    | StraightFlush(straightFlush: StraightFlushStr)

  /** `hand_to_index`: the category's strength, HiCard 0 up to StraightFlush 8. */
  function HandToIndex(h: Hand): (i: nat)
    ensures i <= 8
    ensures i == 0 <==> h.HiCard?
    ensures i == 8 <==> h.StraightFlush?
  {
    match h
    case HiCard(_) => 0
    case Pair(_) => 1
    case TwoPair(_) => 2
    case Trips(_) => 3
    case Straight(_) => 4
    case Flush(_) => 5
    case FullHouse(_) => 6
    case Quads(_) => 7
    case StraightFlush(_) => 8
  }

  /** Number of tie-break ranks each category carries, by category index. */
  const ComparableCount: seq<nat> := [5, 4, 3, 3, 1, 5, 2, 2, 1]

  /** The tie-break buffer `cmp_same_type_hand` fills for one hand. */
  function Comparables(h: Hand): (c: seq<Rank>)
    ensures |c| == ComparableCount[HandToIndex(h)]
  {
    match h
    case HiCard(s) => s.ranks
    case Pair(s) => [s.rank] + s.kickers
    case TwoPair(s) => [s.hiRank, s.loRank, s.kicker]
    case Trips(s) => [s.rank] + s.kickers
    case Straight(s) => [s.hiRank]
    case Flush(s) => s.ranks
    case FullHouse(s) => [s.threeOf, s.twoOf]
    case Quads(s) => [s.rank, s.kicker]
    case StraightFlush(s) => [s.hiRank]
  }

  /** `Vec<Rank>::cmp`: lexicographic, elements by the derived `Ord`,
      a proper prefix before the longer sequence. */
  function LexCmp(a: seq<Rank>, b: seq<Rank>): (o: Ordering)
    ensures o == Equal ==> |a| == |b|
    ensures |a| < |b| && a == b[..|a|] ==> o == Less
    decreases |a|
  {
    if |a| == 0 && |b| == 0 then Equal
    else if |a| == 0 then Less
    else if |b| == 0 then Greater
    else if DerivedCmp(a[0], b[0]) != Equal then DerivedCmp(a[0], b[0])
    else LexCmp(a[1..], b[1..])
  }

  /** `cmp_same_type_hand`, as a value: only defined for hands of one
      category (the source panics otherwise). The two buffers have one
      length, and the answer is Equal exactly for the same hand. */
  function CmpSameType(a: Hand, b: Hand): (o: Ordering)
    requires HandToIndex(a) == HandToIndex(b)
    ensures |Comparables(a)| == |Comparables(b)|
    ensures o == Equal <==> a == b
  {
    LexCmpEqual(Comparables(a), Comparables(b));
    ComparablesInjective(a, b);
    LexCmp(Comparables(a), Comparables(b))
  }

  /** `Ord for Hand`: the category index decides; a tie goes to the
      tie-break buffers. */
  function HandCmp(a: Hand, b: Hand): (o: Ordering)
    ensures o == Equal ==> HandToIndex(a) == HandToIndex(b) && Comparables(a) == Comparables(b)
  {
    var initial := CmpInt(HandToIndex(a), HandToIndex(b));
    if initial != Equal then initial else CmpSameType(a, b)
  }

  /** `PartialEq for Hand`: `cmp` answers Equal. It is symmetric. */
  predicate HandEq(a: Hand, b: Hand)
    ensures HandEq(a, b) <==> HandCmp(b, a) == Equal
  {
    HandCmpReverse(a, b);
    HandCmp(a, b) == Equal
  }

  /** `copy_all`: push every element of `src` onto the buffer `dest`. */
  method CopyAll(dest: seq<Rank>, src: seq<Rank>) returns (out: seq<Rank>)
    ensures out == dest + src
  {
    out := dest;
    for i := 0 to |src|
      invariant out == dest + src[..i]
    {
      out := out + [src[i]];
    }
  }

  /** `cmp_same_type_hand`: fills one buffer per hand, then compares
      the buffers as `Vec<Rank>`. */
  method CmpSameTypeHand(mine: Hand, other: Hand) returns (o: Ordering)
    requires HandToIndex(mine) == HandToIndex(other)
    ensures |Comparables(mine)| == |Comparables(other)|
    ensures o == LexCmp(Comparables(mine), Comparables(other))
  {
    var mineBuffer: seq<Rank> := [];
    var otherBuffer: seq<Rank> := [];
    match (mine, other) {
      case (HiCard(a), HiCard(b)) =>
        mineBuffer := CopyAll(mineBuffer, a.ranks);
        otherBuffer := CopyAll(otherBuffer, b.ranks);
      case (Pair(a), Pair(b)) =>
        mineBuffer := mineBuffer + [a.rank];
        otherBuffer := otherBuffer + [b.rank];
        mineBuffer := CopyAll(mineBuffer, a.kickers);
        otherBuffer := CopyAll(otherBuffer, b.kickers);
      case (TwoPair(a), TwoPair(b)) =>
        mineBuffer := mineBuffer + [a.hiRank];
        otherBuffer := otherBuffer + [b.hiRank];
        mineBuffer := mineBuffer + [a.loRank];
        otherBuffer := otherBuffer + [b.loRank];
        mineBuffer := mineBuffer + [a.kicker];
        otherBuffer := otherBuffer + [b.kicker];
      case (Trips(a), Trips(b)) =>
        mineBuffer := mineBuffer + [a.rank];
        otherBuffer := otherBuffer + [b.rank];
        mineBuffer := CopyAll(mineBuffer, a.kickers);
        otherBuffer := CopyAll(otherBuffer, b.kickers);
      case (Straight(a), Straight(b)) =>
        mineBuffer := mineBuffer + [a.hiRank];
        otherBuffer := otherBuffer + [b.hiRank];
      case (Flush(a), Flush(b)) =>
        mineBuffer := CopyAll(mineBuffer, a.ranks);
        otherBuffer := CopyAll(otherBuffer, b.ranks);
      case (FullHouse(a), FullHouse(b)) =>
        mineBuffer := mineBuffer + [a.threeOf];
        otherBuffer := otherBuffer + [b.threeOf];
        mineBuffer := mineBuffer + [a.twoOf];
        otherBuffer := otherBuffer + [b.twoOf];
      case (Quads(a), Quads(b)) =>
        mineBuffer := mineBuffer + [a.rank];
        otherBuffer := otherBuffer + [b.rank];
        mineBuffer := mineBuffer + [a.kicker];
        otherBuffer := otherBuffer + [b.kicker];
      case (StraightFlush(a), StraightFlush(b)) =>
        mineBuffer := mineBuffer + [a.hiRank];
        otherBuffer := otherBuffer + [b.hiRank];
    }
    assert mineBuffer == Comparables(mine) && otherBuffer == Comparables(other);
    assert |mineBuffer| == |otherBuffer|;
    o := LexCmp(mineBuffer, otherBuffer);
  }

  // ---------------------------------------------------------------------
  // The order on tie-break buffers

  lemma {:induction false} LexCmpReverse(a: seq<Rank>, b: seq<Rank>)
    ensures LexCmp(b, a) == LexCmp(a, b).Reverse()
    decreases |a|
  {
    if |a| > 0 && |b| > 0 && DerivedCmp(a[0], b[0]) == Equal {
      LexCmpReverse(a[1..], b[1..]);
    }
  }

  lemma {:induction false} LexCmpEqual(a: seq<Rank>, b: seq<Rank>)
    ensures LexCmp(a, b) == Equal <==> a == b
    decreases |a|
  {
    if |a| > 0 && |b| > 0 {
      RankIndexRoundTrip(a[0]);
      RankIndexRoundTrip(b[0]);
      LexCmpEqual(a[1..], b[1..]);
      assert a == [a[0]] + a[1..];
      assert b == [b[0]] + b[1..];
    }
  }

  lemma {:induction false} LexCmpTransitive(a: seq<Rank>, b: seq<Rank>, c: seq<Rank>)
    requires LexCmp(a, b) == Less && LexCmp(b, c) == Less
    ensures LexCmp(a, c) == Less
    decreases |a|
  {
    if |a| > 0 && |b| > 0 && |c| > 0 {
      if DerivedCmp(a[0], b[0]) == Equal && DerivedCmp(b[0], c[0]) == Equal {
        LexCmpTransitive(a[1..], b[1..], c[1..]);
      }
    }
  }

  // ---------------------------------------------------------------------
  // The order on hands

  /** Hands of different categories compare by category index alone,
      whatever ranks they carry. */
  lemma CategoryDecides(a: Hand, b: Hand)
    requires HandToIndex(a) != HandToIndex(b)
    ensures HandCmp(a, b) == (if HandToIndex(a) < HandToIndex(b) then Less else Greater)
  {
  }

  /** Hands of one category compare their equal-length tie-break buffers
      lexicographically under the derived rank order. */
  lemma SameCategoryIsLexicographic(a: Hand, b: Hand)
    requires HandToIndex(a) == HandToIndex(b)
    ensures |Comparables(a)| == |Comparables(b)|
    ensures HandCmp(a, b) == LexCmp(Comparables(a), Comparables(b))
  {
  }

  /** Swapping the operands reverses the answer. */
  lemma HandCmpReverse(a: Hand, b: Hand)
    ensures HandCmp(b, a) == HandCmp(a, b).Reverse()
  {
    if HandToIndex(a) == HandToIndex(b) {
      LexCmpReverse(Comparables(a), Comparables(b));
    }
  }

  /** Equal tie-break buffers within one category mean the same hand. */
  lemma ComparablesInjective(a: Hand, b: Hand)
    requires HandToIndex(a) == HandToIndex(b)
    ensures Comparables(a) == Comparables(b) ==> a == b
  {
    if Comparables(a) == Comparables(b) {
      match a
      case Pair(s) =>
        assert s.kickers == Comparables(a)[1..];
        assert b.pair.kickers == Comparables(b)[1..];
      case Trips(s) =>
        assert s.kickers == Comparables(a)[1..];
        assert b.trips.kickers == Comparables(b)[1..];
      case _ =>
    }
  }

  /** `==` on hands holds exactly when they are the same value. */
  lemma HandEqIsIdentity(a: Hand, b: Hand)
    ensures HandEq(a, b) <==> a == b
  {
    if HandToIndex(a) == HandToIndex(b) {
      LexCmpEqual(Comparables(a), Comparables(b));
      if LexCmp(Comparables(a), Comparables(b)) == Equal {
        ComparablesInjective(a, b);
      }
    }
  }

  /** The order on hands is transitive. */
  lemma HandCmpTransitive(a: Hand, b: Hand, c: Hand)
    requires HandCmp(a, b) == Less && HandCmp(b, c) == Less
    ensures HandCmp(a, c) == Less
  {
    if HandToIndex(a) == HandToIndex(b) == HandToIndex(c) {
      LexCmpTransitive(Comparables(a), Comparables(b), Comparables(c));
    }
  }
}
