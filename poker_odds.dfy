/** The parts of the `poker_odds` binary that use hands: choosing the
    winners of one simulated deal, and the per-category event counter. */
module PokerOdds {
  import opened Prelude
  import opened PokerHands

  // ---------------------------------------------------------------------
  // Winner selection

  /** Rust's order on `Option<&Hand>`: None below every Some, two Somes
      by the hand order. */
  function OptionHandCmp(a: Option<Hand>, b: Option<Hand>): (o: Ordering)
    ensures a.Some? && b.Some? ==> o == HandCmp(a.value, b.value)
    ensures a.None? && b.Some? ==> o == Less
  {
    match (a, b)
    case (None, None) => Equal
    case (None, Some(_)) => Less
    case (Some(_), None) => Greater
    case (Some(x), Some(y)) => HandCmp(x, y)
  }

  /** Strictly ascending indices. */
  predicate Ascending(s: seq<nat>)
  {
    forall k, l | 0 <= k < l < |s| :: s[k] < s[l]
  }

  /** What the winner loop knows after looking at the first n hands:
      the incumbent is the first winner's hand and no hand beats it,
      and the winners, in ascending order, are exactly the hands equal
      to it. */
  ghost predicate Leaders(hands: seq<Hand>, n: int, winners: seq<nat>, best: Option<Hand>)
    requires 0 < n <= |hands|
  {
    && best.Some? && |winners| >= 1 && Ascending(winners)
    && winners[0] < n && best.value == hands[winners[0]]
    && (forall j | 0 <= j < n :: HandCmp(hands[j], best.value) != Greater)
    && (forall k | 0 <= k < |winners| :: winners[k] < n && HandEq(hands[winners[k]], best.value))
    && (forall j | 0 <= j < n && HandEq(hands[j], best.value) :: j in winners)
  }

  /** The winner loop of one simulated deal: `winners` starts as [0] with
      the first hand (if any) as incumbent; a later hand equal to the
      incumbent joins the winners, a better one replaces them and becomes
      the incumbent. */
  method SelectWinners(hands: seq<Hand>) returns (winners: seq<nat>, best: Option<Hand>)
    ensures |winners| >= 1
    ensures |hands| == 0 ==> winners == [0] && best == None
    ensures |hands| > 0 ==> Leaders(hands, |hands|, winners, best)
    ensures Ascending(winners)
  {
    winners := [];
    winners := winners + [0];
    best := if |hands| > 0 then Some(hands[0]) else None;
    if |hands| == 0 {
      return;
    }
    LeadersStart(hands);
    var index := 1;
    while index < |hands|
      invariant 1 <= index <= |hands|
      invariant Leaders(hands, index, winners, best)
    {
      var hand := Some(hands[index]);
      if OptionHandCmp(hand, best) == Equal {
        LeadersJoin(hands, index, winners, best);
        winners := winners + [index];
      } else if OptionHandCmp(hand, best) == Greater {
        LeadersReplace(hands, index, winners, best);
        winners := [];
        winners := winners + [index];
        best := hand;
      } else {
        LeadersKeep(hands, index, winners, best);
      }
      index := index + 1;
    }
  }

  lemma LeadersStart(hands: seq<Hand>)
    requires |hands| > 0
    ensures Leaders(hands, 1, [0], Some(hands[0]))
  {
    HandEqIsIdentity(hands[0], hands[0]);
  }

  /** A hand equal to the incumbent joins the winners. */
  lemma LeadersJoin(hands: seq<Hand>, n: int, winners: seq<nat>, best: Option<Hand>)
    requires 0 < n < |hands| && Leaders(hands, n, winners, best)
    requires HandCmp(hands[n], best.value) == Equal
    ensures Leaders(hands, n + 1, winners + [n], best)
  {
    HandCmpReverse(hands[n], best.value);
  }

  /** A hand below the incumbent changes nothing. */
  lemma LeadersKeep(hands: seq<Hand>, n: int, winners: seq<nat>, best: Option<Hand>)
    requires 0 < n < |hands| && Leaders(hands, n, winners, best)
    requires HandCmp(hands[n], best.value) == Less
    ensures Leaders(hands, n + 1, winners, best)
  {
  }

  /** A hand above the incumbent beats every earlier hand and becomes the
      only winner. */
  lemma LeadersReplace(hands: seq<Hand>, n: int, winners: seq<nat>, best: Option<Hand>)
    requires 0 < n < |hands| && Leaders(hands, n, winners, best)
    requires HandCmp(hands[n], best.value) == Greater
    ensures Leaders(hands, n + 1, [n], Some(hands[n]))
  {
    var oldBest := best.value;
    HandCmpReverse(hands[n], oldBest);
    forall j | 0 <= j < n
      ensures HandCmp(hands[j], hands[n]) == Less
    {
      HandEqIsIdentity(hands[j], oldBest);
      if HandCmp(hands[j], oldBest) == Less {
        HandCmpTransitive(hands[j], oldBest, hands[n]);
      }
    }
    HandEqIsIdentity(hands[n], hands[n]);
  }

  // ---------------------------------------------------------------------
  // Event counts

  /** The sum of the counters, as `total_events` folds them. */
  function Sum(s: seq<int>): int
  {
    if s == [] then 0 else s[0] + Sum(s[1..])
  }

  /** Counters that are all zero sum to zero. */
  lemma {:induction false} SumOfZeros(s: seq<int>)
    requires forall i | 0 <= i < |s| :: s[i] == 0
    ensures Sum(s) == 0
  {
    if s != [] {
      SumOfZeros(s[1..]);
    }
  }

  /** Counters that are never negative sum to at least any one of them. */
  lemma {:induction false} SumBounds(s: seq<int>)
    ensures (forall i | 0 <= i < |s| :: 0 <= s[i]) ==>
      0 <= Sum(s) && forall i | 0 <= i < |s| :: s[i] <= Sum(s)
  {
    if s != [] {
      SumBounds(s[1..]);
      assert forall i | 1 <= i < |s| :: s[i] == s[1..][i - 1];
    }
  }

  /** Bumping one counter by one bumps the sum by one. */
  lemma {:induction false} SumIncrement(s: seq<int>, i: int)
    requires 0 <= i < |s|
    ensures Sum(s[i := s[i] + 1]) == Sum(s) + 1
  {
    if i > 0 {
      assert s[i := s[i] + 1][1..] == s[1..][i - 1 := s[i] + 1];
      SumIncrement(s[1..], i - 1);
    }
  }

  /** `HandStats`: one counter per hand category. */
  class HandStats {
    var events: array<int>

    ghost predicate Valid()
      reads this
    {
      events.Length == 9
    }

    /** `create`: nine counters at zero. */
    constructor Create()
      ensures Valid() && fresh(events)
      ensures events[..] == [0, 0, 0, 0, 0, 0, 0, 0, 0]
      ensures TotalEvents() == 0
    {
      events := new int[9](_ => 0);
      new;
      assert events[..] == [0, 0, 0, 0, 0, 0, 0, 0, 0];
      SumOfZeros(events[..]);
    }

    /** `add_event`: the counter of the hand's category goes up by one,
        the other eight stay as they were. */
    method AddEvent(hand: Hand)
      requires Valid()
      modifies events
      ensures Valid()
      ensures events[..] == old(events[..])[HandToIndex(hand) := old(events[HandToIndex(hand)]) + 1]
      ensures TotalEvents() == old(TotalEvents()) + 1
    {
      var eventIndex := HandToIndex(hand);
      SumIncrement(events[..], eventIndex);
      events[eventIndex] := events[eventIndex] + 1;
    }

    /** `total_events`: the sum of the counters, which bounds each
        counter when none is negative. */
    function TotalEvents(): (total: int)
      reads this, events
      ensures (forall i | 0 <= i < events.Length :: 0 <= events[i]) ==>
        0 <= total && forall i | 0 <= i < events.Length :: events[i] <= total
    {
      SumBounds(events[..]);
      Sum(events[..])
    }
  }

  /** The counters as a value: one more in a hand's category for each
      hand. `RecordEvents` proves that this is what `create` followed by
      one `add_event` per hand leaves in `events`. */
  function Tally(hands: seq<Hand>): (t: seq<int>)
    ensures |t| == 9
  {
    if hands == [] then [0, 0, 0, 0, 0, 0, 0, 0, 0]
    else
      var t := Tally(hands[..|hands| - 1]);
      var i := HandToIndex(hands[|hands| - 1]);
      t[i := t[i] + 1]
  }

  /** The counters add up to the number of hands counted. */
  lemma {:induction false} TallySum(hands: seq<Hand>)
    ensures Sum(Tally(hands)) == |hands|
  {
    if hands == [] {
      SumOfZeros(Tally(hands));
    } else {
      var front := hands[..|hands| - 1];
      TallySum(front);
      SumIncrement(Tally(front), HandToIndex(hands[|hands| - 1]));
    }
  }
  /** A fresh `HandStats` with one `add_event` per hand: its counters are
      the tally of the hands' categories, and `total_events` is the number
      of hands. */
  method RecordEvents(hands: seq<Hand>) returns (stats: HandStats)
    ensures fresh(stats) && fresh(stats.events) && stats.Valid()
    ensures stats.events[..] == Tally(hands)
    ensures stats.TotalEvents() == |hands|
  {
    stats := new HandStats.Create();
    for k := 0 to |hands|
      invariant stats.Valid() && fresh(stats.events)
      invariant stats.events[..] == Tally(hands[..k])
    {
      stats.AddEvent(hands[k]);
      assert hands[..k + 1][..k] == hands[..k];
    }
    assert hands[..|hands|] == hands;
    TallySum(hands);
  }
}
