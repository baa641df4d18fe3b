# Poker hands: classifier, comparator and winner selection

This project models the core of a small Rust poker workspace. It has three parts:

- **`cards`**: suits, ranks and cards. `Rank` has two orders:
  - the hand-written ace-high `PartialOrd`/`PartialEq`, which goes through `rank_to_index`;
  - the derived `Ord`, which follows the declaration order Ace, King, …, Two.
- **`poker_hands`**:
  - the nine hand categories and their tie-break payloads;
  - the classifier `Hand::get_hand` with its `hand_builder` functions;
  - the total order on hands (`hand_to_index`, `Ord`/`Eq for Hand`, `cmp_same_type_hand`, `copy_all`).
- **`poker_odds`**: the loop that picks the winners of one deal, and the `HandStats` per-category event counter.

The model follows the code as written, including where the code and its own tests disagree (see "## Findings"). The intended behaviour is modelled beside it and proved correct.

The files are:

- `prelude.dfy`: `Option` and `Ordering`, with `Ordering::reverse` and integer `cmp`.
- `cards.dfy` (module `Cards`):
  - `Suit`, `Rank`, `Card`;
  - `RankIndex` (`rank_to_index`) and `Discr` (the `as i32` discriminant);
  - both orders, and lemmas relating them.
- `poker_hands.dfy` (module `PokerHands`):
  - the payload types and `Hand`;
  - `HandToIndex`, the tie-break buffers `Comparables`, `LexCmp` (`Vec<Rank>::cmp`) and `HandCmp`;
  - the imperative `CopyAll` and `CmpSameTypeHand`;
  - the order lemmas.
- `hand_builder.dfy` (module `HandBuilder`): every builder and `GetHand`.
  - The builders with loops are methods proved equal to a specification function.
  - The classifier composes those functions.
  - Lemmas state what each builder recognises on sorted cards.
- `poker_odds.dfy` (module `PokerOdds`):
  - the winner loop as the method `SelectWinners`;
  - `HandStats` as a class over a nine-slot array.
- `hand_examples.dfy` (module `HandExamples`): hands from the crate's tests, run through the model as written.
- `corrected.dfy` (module `Corrected`): the full-house builder, the straight builder, the tie-break order and the classifier as the tests expect them.
  - The builders and the order are proved against an independent description of the hand or order they implement.
  - The corrected classifier is proved to classify every full house, every straight and every wheel as the tests expect.

A few points of modelling:

- **Preconditions.**
  - `get_hand` asserts five cards sorted by descending ace-high rank, so `GetHand` requires that.
  - It also requires that the cards are not five of a kind. That is the assert in `get_full_house`.
  - The `kicker_index == 3` assert in `get_pair` becomes the precondition `PairRankTwice`. `PairRankTwiceWithoutTrips` proves that `get_hand` always meets it.
- **The two-pair panic.** The panic for a third pair in `get_two_pair` is proved unreachable.
- **`Suit` equality.** `Suit` derives no `PartialEq`, yet `get_flush_suit` compares suits. The model gives `Suit` structural equality.
- **`hand.into()`.** `add_event` calls `hand.into()` to get a `u8`, but no conversion is defined in the crate. The model takes it to be `hand_to_index`.
- **`Rank` equality.** Equality of ranks in the builders is Dafny `==`. `Cards.RankEqIsIdentity` proves this is the hand-written `eq`.

## Model

| member | source | states |
|---|---|---|
| Prelude.Ordering.Reverse | poker_hands/src/lib.rs:324-337 | reversing keeps Equal and swaps Less with Greater; it is not called at these lines but is the vocabulary in which the antisymmetry of this `Ord` is stated |
| Prelude.CmpInt | poker_hands/src/lib.rs:328-329 | integer `cmp` is Less, Equal or Greater exactly as a < b, a == b, a > b |
| Cards.Discr | cards/src/lib.rs:15-30 | the declaration discriminant of a rank lies in 0..12 |
| Cards.RankIndex | cards/src/lib.rs:33-49 | `rank_to_index` lies in 2..14, and it plus the discriminant is always 14 |
| Cards.RankOfIndex | cards/src/lib.rs:33-49 | every index 2..14 is hit: this inverse maps back to the index |
| Cards.RankIndexRoundTrip | cards/src/lib.rs:33-49 | `rank_to_index` is a bijection onto 2..14, with Ace exactly at 14 and Two exactly at 2 |
| Cards.RankIndexInjective | cards/src/lib.rs:33-49 | distinct ranks have distinct indices |
| Cards.PartialCmp | cards/src/lib.rs:52-59 | `partial_cmp` always answers Some, and answers Equal exactly for the same rank; `PartialCmpAscending` gives its order and `DerivedCmpIsReversed` relates it to the derived one |
| Cards.RankEq | cards/src/lib.rs:61-67 | the hand-written `eq` holds exactly where `partial_cmp` answers Equal, so `PartialEq` and `PartialOrd` agree |
| Cards.RankLt | cards/src/lib.rs:52-59 | `<` on ranks (through `partial_cmp`) is `<` on the ace-high indices |
| Cards.RankGe | cards/src/lib.rs:52-59 | `>=` on ranks (through `partial_cmp`) is exactly not `<`, since `partial_cmp` always answers |
| Cards.DerivedCmp | cards/src/lib.rs:15-30 | the derived `cmp` is Equal exactly for the same rank and Less exactly when the first rank is higher ace-high |
| Cards.RankEqIsIdentity | cards/src/lib.rs:61-67 | the hand-written `eq` holds exactly when the two ranks are the same variant |
| Cards.RankGeIsIndexGe | cards/src/lib.rs:52-59 | `>=` on ranks (through `partial_cmp`) is `>=` on the ace-high indices |
| Cards.PartialCmpAscending | cards/src/tests.rs:9-14 | `partial_cmp` is always Some and orders Two < Three < … < King < Ace, as the whole-deck test demands |
| Cards.DerivedCmpDeclared | cards/src/lib.rs:15-30 | the derived `Ord` orders ranks by declaration position, Ace first and Two last |
| Cards.DerivedCmpIsReversed | cards/src/lib.rs:15-59 | the derived `Ord` is the exact reverse of `partial_cmp` on every pair of ranks |
| Cards.DiscrStepIsIndexStep | poker_hands/src/lib.rs:186-189 | one more declaration position is exactly one step down in the ace-high order |
| PokerHands.HandToIndex | poker_hands/src/lib.rs:310-322 | the category index is at most 8; it is 0 exactly for HiCard and 8 exactly for StraightFlush |
| PokerHands.Comparables | poker_hands/src/lib.rs:356-420 | the tie-break buffer of each category has the fixed length 5, 4, 3, 3, 1, 5, 2, 2, 1 |
| PokerHands.LexCmp | poker_hands/src/lib.rs:424 | `Vec<Rank>::cmp` is Equal only on buffers of one length, and puts a proper prefix before the longer buffer; `LexCmpReverse`, `LexCmpEqual` and `LexCmpTransitive` give its order properties |
| PokerHands.CmpSameType | poker_hands/src/lib.rs:352-425 | for hands of one category the two buffers have one length, and the answer is Equal exactly for the same hand |
| PokerHands.HandCmp | poker_hands/src/lib.rs:324-337 | `cmp` answers Equal only for hands of one category with the same buffer; `CategoryDecides`, `HandCmpReverse` and `HandCmpTransitive` give the rest of its order |
| PokerHands.HandEq | poker_hands/src/lib.rs:345-350 | `==` on hands is symmetric; `HandEqIsIdentity` shows it is identity |
| PokerHands.CopyAll | poker_hands/src/lib.rs:427-431 | the buffer afterwards is the old buffer followed by every source element, in order |
| PokerHands.CmpSameTypeHand | poker_hands/src/lib.rs:352-425 | for two hands of one category the buffers have one length, and the answer is their lexicographic comparison under the derived rank order |
| PokerHands.LexCmpReverse | poker_hands/src/lib.rs:424 | swapping the buffers reverses `Vec<Rank>::cmp` |
| PokerHands.LexCmpEqual | poker_hands/src/lib.rs:424 | `Vec<Rank>::cmp` is Equal exactly on equal buffers |
| PokerHands.LexCmpTransitive | poker_hands/src/lib.rs:424 | `Vec<Rank>::cmp` is transitive |
| PokerHands.CategoryDecides | poker_hands/src/lib.rs:324-333 | hands of different categories compare by category index alone |
| PokerHands.SameCategoryIsLexicographic | poker_hands/src/lib.rs:334-336 | hands of one category compare their equal-length buffers lexicographically under the derived rank order |
| PokerHands.HandCmpReverse | poker_hands/src/lib.rs:324-343 | the hand order is antisymmetric: swapping the hands reverses `cmp` |
| PokerHands.ComparablesInjective | poker_hands/src/lib.rs:352-420 | within one category, equal buffers mean the same hand |
| PokerHands.HandEqIsIdentity | poker_hands/src/lib.rs:345-350 | `==` on hands (`cmp` is Equal) holds exactly for the same hand value |
| PokerHands.HandCmpTransitive | poker_hands/src/lib.rs:324-337 | the hand order is transitive |
| HandBuilder.Ranks | poker_hands/src/lib.rs:289-296 | the rank sequence of five cards, position by position |
| HandBuilder.SortedFromSteps | poker_hands/src/lib.rs:63-65 | the four neighbour comparisons asserted by `get_hand` make the cards sorted |
| HandBuilder.SortedIsDescending | poker_hands/src/lib.rs:63-65 | sorted neighbours give ranks that never rise, between any two positions |
| HandBuilder.DescendingUnique | poker_hands/src/lib.rs:90-94 | a descending rank sequence is fixed by its multiset of ranks; `GetHandOrderIndependent` draws the conclusion for the classifier |
| HandBuilder.GetHiCard | poker_hands/src/lib.rs:289-296 | the high card holds the five ranks in the order given |
| HandBuilder.GetFlushSuit | poker_hands/src/lib.rs:298-307 | the scan returns the first suit when no card differs from it, otherwise None |
| HandBuilder.FlushSuitIffAllEqual | poker_hands/src/lib.rs:298-307 | a flush suit exists exactly when all five suits are pairwise equal, and it is then every card's suit |
| HandBuilder.GetStraight | poker_hands/src/lib.rs:178-198 | the scan with its Ace-then-Two skip returns what `StraightOf` describes |
| HandBuilder.StraightOfSorted | poker_hands/src/lib.rs:178-198 | on sorted cards a straight is found exactly on five ranks stepping down by one ace-high, so never on A-5-4-3-2; it is named by the top card, except that A-K-Q-J-T is named Four |
| HandBuilder.GetStraightFlush | poker_hands/src/lib.rs:96-108 | a straight flush is found exactly on a flush that is a straight, with the straight's high rank |
| HandBuilder.GetFlush | poker_hands/src/lib.rs:110-118 | a flush is found exactly when a flush suit exists, carrying the five ranks in order |
| HandBuilder.GetQuads | poker_hands/src/lib.rs:120-142 | the kicker test and the scan of the other four cards return what `QuadsOf` describes |
| HandBuilder.QuadsOfIff | poker_hands/src/lib.rs:120-142 | quads are found exactly when cards 0-3 or 1-4 share a rank and not all five do; the kicker differs and rank ×4 plus kicker is the hand |
| HandBuilder.GetFullHouse | poker_hands/src/lib.rs:144-176 | on sorted cards that are not five of a kind, the builder as written never finds a full house |
| HandBuilder.GetTrips | poker_hands/src/lib.rs:200-213 | when trips are reported, the two ends of some three-card run both hold the trips rank; `TripsOfSorted` and `TripsKickersAreTheRest` state the rest on sorted cards |
| HandBuilder.SortedRun | poker_hands/src/lib.rs:200-210 | between two equal ranks of sorted cards every rank is the same, which is why comparing the ends of a run suffices |
| HandBuilder.TripsOfSorted | poker_hands/src/lib.rs:200-213 | on sorted cards trips are found exactly on three equal ranks in a row, and the trips rank is that run's rank |
| HandBuilder.TripsKickersAreTheRest | poker_hands/src/lib.rs:200-213 | on sorted cards the trips rank three times plus the two kickers make up the hand, the higher kicker first |
| HandBuilder.GreedyPairsBound | poker_hands/src/lib.rs:215-235 | the scan that skips two places after a pair claims at most one pair per two positions |
| HandBuilder.GetTwoPair | poker_hands/src/lib.rs:215-254 | the pair scan and the kicker search return what `TwoPairOf` describes; the third-pair panic is never reached |
| HandBuilder.TwoPairOfPositions | poker_hands/src/lib.rs:215-241 | at most two pairs are claimed, and two pairs are found exactly on the layouts (0,1)+(2,3), (0,1)+(3,4) and (1,2)+(3,4) |
| HandBuilder.UnfoldGreedyPairs | poker_hands/src/lib.rs:215-235 | the pairs claimed from five ranks, case by case |
| HandBuilder.TwoPairHighOverLow | poker_hands/src/lib.rs:215-254 | on sorted cards the first pair found is at least as high as the second |
| HandBuilder.TwoPairKickerIsOddCard | poker_hands/src/lib.rs:215-254 | any sorted hand of two distinct pairs and a card of a third rank makes that two pair with that card as kicker |
| HandBuilder.TwoPairLayout | poker_hands/src/lib.rs:215-254 | two pairs and a kicker have a descending arrangement with that multiset |
| HandBuilder.TwoPairOfLayout | poker_hands/src/lib.rs:215-254 | on that arrangement the scan claims the high then the low pair and finds the kicker |
| HandBuilder.FirstPairFrom | poker_hands/src/lib.rs:257-265 | the first position from i on where a card and the next share a rank, with no pair before it; None when there is none |
| HandBuilder.OtherRanksMultiset | poker_hands/src/lib.rs:272-279 | the kickers are every rank but the pair rank, and as many as the other cards |
| HandBuilder.GetPair | poker_hands/src/lib.rs:256-284 | the pair scan and the kicker-array fill return what `PairOf` describes, writing exactly three kickers |
| HandBuilder.PairRankTwiceWithoutTrips | poker_hands/src/lib.rs:281 | on sorted cards without trips the first pair's rank occurs exactly twice, so the `kicker_index == 3` assert holds |
| HandBuilder.PairOfSorted | poker_hands/src/lib.rs:256-284 | on sorted cards without trips a pair is found exactly when two neighbours share a rank; the kickers avoid the pair rank, make up the hand with it and stay descending |
| HandBuilder.OtherRanksDescending | poker_hands/src/lib.rs:272-279 | dropping the pair rank keeps the kickers in descending order |
| HandBuilder.RankCount | poker_hands/src/lib.rs:61-76 | a rank occurs among the cards as often as its four cards, one per suit, occur together |
| HandBuilder.SameCardsSameRanks | poker_hands/src/lib.rs:61-76 | any two arrangements of the same five cards hold the same ranks |
| HandBuilder.SameCardsFlush | poker_hands/src/lib.rs:298-307 | a flush stays a flush however its five cards are arranged |
| HandBuilder.BuildersReadRanks | poker_hands/src/lib.rs:78-296 | every builder except the flush test gives the same answer on cards with the same ranks position by position |
| HandBuilder.FirstPairReadsRanks | poker_hands/src/lib.rs:257-265 | the first-pair scan gives the same position on cards with the same ranks |
| HandBuilder.SameRanksSameHand | poker_hands/src/lib.rs:61-76 | on sorted cards, `get_hand` depends only on the ranks, position by position, and on whether there is a flush |
| HandBuilder.GetHandOrderIndependent | poker_hands/src/lib.rs:61-76 | any two sorted arrangements of the same five cards make the same hand, category and every tie-break rank alike |
| HandBuilder.GetHand | poker_hands/src/lib.rs:61-76 | the categories are tried from the strongest down; as written no hand is ever a full house, and no straight or straight flush is ever named by its Ace; `GetHandOrderIndependent` and `GetHandHiCard` state the rest |
| HandBuilder.GetHandHiCard | poker_hands/src/lib.rs:61-76 | `get_hand` falls back to high card exactly when there is no pair, no flush and no straight, and then holds the five ranks in input order |
| PokerOdds.OptionHandCmp | poker_odds/src/main.rs:32-34 | comparing `Option<&Hand>` compares two present hands by the hand order, and puts None below Some |
| PokerOdds.SelectWinners | poker_odds/src/main.rs:28-40 | `winners` is never empty and strictly ascending; with at least one hand, no hand beats the incumbent and the winners are exactly the hands equal to it |
| PokerOdds.LeadersStart | poker_odds/src/main.rs:28-30 | the first hand alone is the incumbent and the only winner |
| PokerOdds.LeadersJoin | poker_odds/src/main.rs:33-34 | a hand equal to the incumbent joins the winners |
| PokerOdds.LeadersKeep | poker_odds/src/main.rs:31-39 | a hand below the incumbent changes nothing |
| PokerOdds.LeadersReplace | poker_odds/src/main.rs:35-38 | a better hand beats every earlier hand and becomes the only winner |
| PokerOdds.SumIncrement | poker_odds/src/main.rs:60-67 | raising one counter by one raises the fold of all counters by one |
| PokerOdds.HandStats.Create | poker_odds/src/main.rs:56-58 | nine counters at zero, whose total is 0 |
| PokerOdds.HandStats.AddEvent | poker_odds/src/main.rs:60-63 | exactly the counter at the hand's category index goes up by one, the other eight are unchanged, and the total rises by one |
| PokerOdds.Tally | poker_odds/src/main.rs:56-63 | the counters as a value, one per category; `RecordEvents` proves it is what the class holds after `create` and one `add_event` per hand |
| PokerOdds.TallySum | poker_odds/src/main.rs:65-67 | the tallied counters add up to the number of hands counted |
| PokerOdds.SumBounds | poker_odds/src/main.rs:65-67 | counters that are never negative fold to a sum that is at least 0 and at least each counter |
| PokerOdds.HandStats.TotalEvents | poker_odds/src/main.rs:65-67 | when no counter is negative, the total is at least 0 and at least each counter |
| PokerOdds.RecordEvents | poker_odds/src/main.rs:55-67 | a fresh `HandStats` given one `add_event` per hand holds the tally of the hands' categories, and its `total_events` is the number of hands |
| HandExamples.QueenHighStraightMade | poker_hands/src/hand_making_tests.rs:80-81 | Q-J-T-9-8 is a queen-high straight |
| HandExamples.AcesQuadsMade | poker_hands/src/hand_making_tests.rs:134-135 | four aces and a three are quad aces with kicker Three |
| HandExamples.QueenHighTwoPairMade | poker_hands/src/hand_making_tests.rs:53-54 | Q-J-J-6-6 is jacks and sixes with a queen kicker |
| HandExamples.JacksPairMade | poker_hands/src/hand_making_tests.rs:41-42 | any Q-J-J-6-2 not all of one suit is sorted and makes a pair of jacks with kickers Q, 6, 2 |
| HandExamples.JacksPairOfTest | poker_hands/src/hand_making_tests.rs:41-42 | the test's own Q-J-J-6-2 makes a pair of jacks with kickers Q, 6, 2 |
| HandExamples.BoatMadeAsTrips | poker_hands/src/hand_making_tests.rs:113-114 | as written, jacks full of sixes comes out as trips jacks with kickers 6, 6 |
| HandExamples.BroadwayMadeAsFourHigh | poker_hands/src/hand_making_tests.rs:83-84 | as written, A-K-Q-J-T comes out as a straight named Four |
| HandExamples.WheelMadeAsHighCard | poker_hands/src/hand_making_tests.rs:86-87 | as written, A-5-4-3-2 comes out as high card |
| HandExamples.RoyalMadeAsFourHigh | poker_hands/src/hand_making_tests.rs:152-153 | as written, the royal flush comes out as a straight flush named Four |
| HandExamples.SteelWheelMadeAsFlush | poker_hands/src/hand_making_tests.rs:155-156 | as written, the suited wheel comes out as a flush |
| HandExamples.BasicHandsAscending | poker_hands/src/hand_order_tests.rs:334-364 | one hand per category, weakest first, compares exactly as their positions do |
| HandExamples.HigherStraightFlushComparesLess | poker_hands/src/hand_order_tests.rs:322-331 | as written, a queen-high straight flush compares Less than a jack-high one |
| HandExamples.HigherPairComparesLess | poker_hands/src/hand_order_tests.rs:82-101 | as written, a pair of aces compares Less than a pair of twos with the same kickers |
| Corrected.FullHouseIntendedSound | poker_hands/src/lib.rs:144-176 | what the corrected builder reports is three of one rank and two of another |
| Corrected.FullHouseIntendedComplete | poker_hands/src/hand_making_tests.rs:112-130 | every sorted full house is recognised, with its trips and pair ranks |
| Corrected.BoatLayout | poker_hands/src/lib.rs:145-148 | a full house has a descending arrangement with its multiset of ranks |
| Corrected.StraightOfIntendedIff | poker_hands/src/hand_making_tests.rs:79-94 | the corrected builder finds a straight exactly on five ace-high consecutive ranks or A-5-4-3-2, naming the Five for the wheel and otherwise the top card |
| Corrected.GetStraightFlushIntended | poker_hands/src/lib.rs:96-108 | a straight flush is a flush that is a corrected straight, with its high rank |
| Corrected.LexCmpIsReversedAceHigh | poker_hands/src/lib.rs:424 | on equal-length buffers, `Vec<Rank>::cmp` as written is the reverse of the ace-high lexicographic order |
| Corrected.LexCmpAceHighFirstDifference | poker_hands/src/hand_order_tests.rs:8-29 | under the ace-high order, the first differing position decides, and there the higher rank wins |
| Corrected.HandCmpAgainstIntended | poker_hands/src/lib.rs:324-337 | the order as written agrees with the intended one across categories and reverses it within one |
| Corrected.HandCmpIntendedReverse | poker_hands/src/lib.rs:324-343 | the intended hand order is antisymmetric too |
| Corrected.GetHandIntendedFullHouse | poker_hands/src/hand_making_tests.rs:112-130 | the corrected classifier makes every sorted full house, of any two ranks, into that full house |
| Corrected.BoatIsNothingHigher | poker_hands/src/lib.rs:61-76 | neither layout of a full house is five of a kind, a straight or quads, so nothing above full house is reported |
| Corrected.GetHandIntendedStraight | poker_hands/src/hand_making_tests.rs:79-94 | every corrected straight is classified as that straight, or as that straight flush when the suits agree |
| Corrected.GetHandIntendedWheel | poker_hands/src/hand_making_tests.rs:86-87 | every A-5-4-3-2 is classified as a straight to the Five, or a straight flush to the Five when the suits agree |
| Corrected.GetHandIntendedAgrees | poker_hands/src/lib.rs:61-76 | where the corrected builders answer as the written ones do, the two classifiers make the same hand |
| Corrected.BoatMadeIntended | poker_hands/src/hand_making_tests.rs:113-114 | corrected, jacks full of sixes is a full house of jacks over sixes |
| Corrected.NinesOverAcesMadeIntended | poker_hands/src/hand_making_tests.rs:116-117 | corrected, A-A-9-9-9 is a full house of nines over aces |
| Corrected.WheelMadeIntended | poker_hands/src/hand_making_tests.rs:86-87 | corrected, A-5-4-3-2 is a five-high straight |
| Corrected.BroadwayMadeIntended | poker_hands/src/hand_making_tests.rs:83-84 | corrected, A-K-Q-J-T is an ace-high straight |
| Corrected.RoyalMadeIntended | poker_hands/src/hand_making_tests.rs:152-153 | corrected, the royal flush is an ace-high straight flush |
| Corrected.SteelWheelMadeIntended | poker_hands/src/hand_making_tests.rs:155-156 | corrected, the suited wheel is a five-high straight flush |
| Corrected.HigherStraightFlushWinsIntended | poker_hands/src/hand_order_tests.rs:322-331 | under the intended order, a queen-high straight flush beats a jack-high one |

## Left out

- `Hand::best_hand_of` (poker_hands/src/lib.rs:50-58) is a stub that returns a fixed hand. No choice of five cards out of more is modelled.
- The simulation in `main` is left out: the trial count, the hole cards, `pick_random_board`, board assembly and sorting, and the calls to `best_hand_of`. Only the winner loop is modelled. `SelectWinners` receives the hands as a parameter.
- `Debug` formatting of hands and cards, and `println!`, are left out.
- `Box`, `box` patterns and the `try_getting_hand!` macro are left out; the builders return `Option` values directly.
- The `Vec` buffers of `cmp_same_type_hand` and `winners` are Dafny sequences. In-place growth and capacity are not modelled.
- The fixed-size Rust arrays in the hand payloads are length-constrained sequences.
- The test helpers `cmp_order`, `cmp_by_rank`, `has_dups` and `all_cards_of_rank` are not modelled; single cases from the tests are stated as lemmas. They use `cards::card`, `Rank::all_ordered` and `Ord for Card`, which the crate does not define.
- PokerOdds.HandStats.AddEvent: counters are unbounded integers; the 32-bit overflow of `i32` after 2^31 - 1 events is not modelled.
- PokerOdds.HandStats.TotalEvents: the fold is over unbounded integers, so the `i32` overflow of the sum is not modelled.
- PokerOdds.SelectWinners: it uses the hand order as written, with the derived rank order inside a category. `Corrected.HandCmpAgainstIntended` relates its verdicts to the intended order.
- HandBuilder.GetTrips: beyond the run ends its contract names, its properties are stated only for sorted cards. It compares only the ends of each run, as the source does, and the builders assume sorted input.
- HandBuilder.GetPair: the `kicker_index == 3` assert is a precondition, not a panic path. `HandBuilder.PairRankTwiceWithoutTrips` shows that `get_hand` always meets it.
- HandBuilder.GetHand: the asserts on length and order, and the five-of-a-kind assert in `get_full_house`, are preconditions, not panic paths.

## Findings

| source | as written | input that shows it | evidently intended | confidence | as-written member | corrected member |
|---|---|---|---|---|---|---|
| poker_hands/src/lib.rs:152 | the second test compares the last card with the second, so a full house (which would need five equal ranks) is never found | J♠ J♥ J♦ 6♣ 6♠ gives trips of jacks with kickers 6, 6 | compare the last card with the fourth, so the two end pairs are checked | not executed | HandExamples.BoatMadeAsTrips | Corrected.FullHouseIntendedComplete |
| poker_hands/src/lib.rs:183 | the wheel check looks for a Two right after the Ace, which sorted cards never have | A♠ 5♥ 4♣ 3♠ 2♠ gives high card | skip the step from a leading Ace to a Five, and name the wheel by its Five | not executed | HandExamples.WheelMadeAsHighCard | Corrected.GetHandIntendedWheel |
| poker_hands/src/lib.rs:193-194 | any straight with an Ace on top is named Four | A♠ K♠ Q♣ J♠ T♠ gives a straight named Four | name A-K-Q-J-T by its Ace | not executed | HandExamples.BroadwayMadeAsFourHigh | Corrected.StraightOfIntendedIff |
| poker_hands/src/lib.rs:424 | `Vec<Rank>::cmp` compares ranks by the derived order, Ace lowest, so within a category the higher hand compares Less | a queen-high against a jack-high straight flush gives Less | compare ranks ace-high, so that the first differing rank decides in favour of the higher one | not executed | HandExamples.HigherStraightFlushComparesLess | Corrected.LexCmpAceHighFirstDifference |
