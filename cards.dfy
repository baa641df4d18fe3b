/** The card value types: suits, ranks and cards.

    `Rank` carries two different orders. Its hand-written `PartialOrd`
    (and therefore `<`, `>=`, ...) is ace-high through `rank_to_index`;
    its derived `Ord` (used by `cmp`, and by `Vec<Rank>::cmp`) follows the
    declaration order, which lists Ace first and Two last. */
module Cards {
  import opened Prelude

  /** Suits carry no order; the model gives them equality, which the
      flush test compares. */
  datatype Suit = Spades | Hearts | Clubs | Diamonds

  /** The thirteen ranks in declaration order. */
  datatype Rank = Ace | King | Queen | Jack | Ten | Nine | Eight | Seven | Six | Five | Four | Three | Two

  datatype Card = Card(suit: Suit, rank: Rank)

  /** The ranks in declaration order, Ace first. */
  const DeclaredRanks: seq<Rank> :=
    [Ace, King, Queen, Jack, Ten, Nine, Eight, Seven, Six, Five, Four, Three, Two]

  /** The ranks from lowest to highest in poker, Ace last. */
  const AscendingRanks: seq<Rank> :=
    [Two, Three, Four, Five, Six, Seven, Eight, Nine, Ten, Jack, Queen, King, Ace]

  /** The discriminant `rank as i32` reads: the declaration position. */
  function Discr(r: Rank): (d: int)
    ensures 0 <= d <= 12
  {
    match r
    case Ace => 0
    case King => 1
    case Queen => 2
    case Jack => 3
    case Ten => 4
    case Nine => 5
    case Eight => 6
    case Seven => 7
    case Six => 8
    case Five => 9
    case Four => 10
    case Three => 11
    case Two => 12
  }

  /** `rank_to_index`: the ace-high index, Two = 2 up to Ace = 14. */
  function RankIndex(r: Rank): (i: int)
    ensures 2 <= i <= 14
    ensures i + Discr(r) == 14
  {
    match r
    case Ace => 14
    case King => 13
    case Queen => 12
    case Jack => 11
    case Ten => 10
    case Nine => 9
    case Eight => 8
    case Seven => 7
    case Six => 6
    case Five => 5
    case Four => 4
    case Three => 3
    case Two => 2
  }

  /** The hand-written `partial_cmp`: compares the ace-high indices. It
      always answers, and answers Equal only for the same rank. */
  function PartialCmp(a: Rank, b: Rank): (o: Option<Ordering>)
    ensures o.Some?
    ensures o.value == Equal <==> a == b
  {
    RankIndexInjective(a, b);
    Some(CmpInt(RankIndex(a), RankIndex(b)))
  }

  /** The hand-written `eq`: equal ace-high indices, which is where
      `partial_cmp` answers Equal. */
  predicate RankEq(a: Rank, b: Rank)
    ensures RankEq(a, b) <==> PartialCmp(a, b) == Some(Equal)
  {
    RankIndex(a) == RankIndex(b)
  }

  /** Rust's `a < b` on ranks, which goes through `partial_cmp`: a lower
      ace-high index. */
  predicate RankLt(a: Rank, b: Rank)
    ensures RankLt(a, b) <==> RankIndex(a) < RankIndex(b)
  {
    PartialCmp(a, b) == Some(Less)
  }

  /** Rust's `a >= b` on ranks, which goes through `partial_cmp`; since
      that always answers, `>=` is exactly not `<`. */
  predicate RankGe(a: Rank, b: Rank)
    ensures RankGe(a, b) <==> !RankLt(a, b)
  {
    PartialCmp(a, b) == Some(Greater) || PartialCmp(a, b) == Some(Equal)
  }

  /** The derived `Ord::cmp`: compares declaration positions. It is
      Equal only for the same rank, and Less exactly when the first rank
      is the higher one ace-high. */
  function DerivedCmp(a: Rank, b: Rank): (o: Ordering)
    ensures o == Equal <==> a == b
    ensures o == Less <==> RankIndex(a) > RankIndex(b)
  {
    RankIndexInjective(a, b);
    CmpInt(Discr(a), Discr(b))
  }

  /** `rank_to_index` is onto 2..14 with this inverse. */
  function RankOfIndex(i: int): (r: Rank)
    requires 2 <= i <= 14
    ensures RankIndex(r) == i
  {
    if i == 14 then Ace
    else if i == 13 then King
    else if i == 12 then Queen
    else if i == 11 then Jack
    else if i == 10 then Ten
    else if i == 9 then Nine
    else if i == 8 then Eight
    else if i == 7 then Seven
    else if i == 6 then Six
    else if i == 5 then Five
    else if i == 4 then Four
    else if i == 3 then Three
    else Two
  }

  lemma RankIndexRoundTrip(r: Rank)
    ensures RankOfIndex(RankIndex(r)) == r
    ensures RankIndex(r) == 14 <==> r == Ace
    ensures RankIndex(r) == 2 <==> r == Two
  {
  }

  /** `rank_to_index` is one-to-one. */
  lemma RankIndexInjective(a: Rank, b: Rank)
    ensures RankIndex(a) == RankIndex(b) ==> a == b
  {
    RankIndexRoundTrip(a);
    RankIndexRoundTrip(b);
  }

  /** So the hand-written `eq` is exactly variant identity. */
  lemma RankEqIsIdentity(a: Rank, b: Rank)
    ensures RankEq(a, b) <==> a == b
  {
    RankIndexInjective(a, b);
  }

  /** Rust's `>=` on ranks compares the ace-high indices. */
  lemma RankGeIsIndexGe(a: Rank, b: Rank)
    ensures RankGe(a, b) <==> RankIndex(a) >= RankIndex(b)
  {
  }

  /** `partial_cmp` never answers None, and it puts the ranks in the
      order Two < Three < ... < King < Ace. */
  lemma PartialCmpAscending(i: int, j: int)
    requires 0 <= i < 13 && 0 <= j < 13
    ensures PartialCmp(AscendingRanks[i], AscendingRanks[j]) == Some(CmpInt(i, j))
  {
    RankIndexOfAscending(i);
    RankIndexOfAscending(j);
  }

  lemma RankIndexOfAscending(i: int)
    requires 0 <= i < 13
    ensures RankIndex(AscendingRanks[i]) == i + 2
  {
    assert AscendingRanks[i] == RankOfIndex(i + 2);
  }

  /** The derived order follows the declaration: Ace < King < ... < Two. */
  lemma DerivedCmpDeclared(i: int, j: int)
    requires 0 <= i < 13 && 0 <= j < 13
    ensures DerivedCmp(DeclaredRanks[i], DeclaredRanks[j]) == CmpInt(i, j)
  {
    RankIndexOfAscending(12 - i);
    RankIndexOfAscending(12 - j);
    assert DeclaredRanks[i] == AscendingRanks[12 - i];
    assert DeclaredRanks[j] == AscendingRanks[12 - j];
  }

  /** The derived order is the exact reverse of `partial_cmp`. */
  lemma DerivedCmpIsReversed(a: Rank, b: Rank)
    ensures DerivedCmp(a, b) == PartialCmp(a, b).value.Reverse()
  {
  }

  /** One step up in declaration position is one step down in the
      ace-high order: the `as i32` test of the straight builder reads
      ace-high adjacency. */
  lemma DiscrStepIsIndexStep(a: Rank, b: Rank)
    ensures Discr(b) == Discr(a) + 1 <==> RankIndex(b) + 1 == RankIndex(a)
  {
  }
}
