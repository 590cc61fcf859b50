/**
 * `getHandValue`: the basic Blackjack total of a hand. Every card adds its
 * value with an ace counted as 11; then, while the total is over 21 and an
 * ace is still counted as 11, that ace is counted as 1 instead.
 */
module Hands {
  import opened Cards

  /**
   * The value `getHandValue` adds for one card: `parseInt` of the ranks
   * "2" to "10", 10 for J, Q and K, and 11 for A. The ranks "2" to "10" are
   * the first nine entries of `ranks`, so a number card's value is its
   * position in `ranks` plus 2.
   */
  function CardValue(r: Rank): (v: nat)
    ensures 2 <= v <= 11
    ensures v == 11 <==> r == Ace
    ensures v == 10 <==> r in {Ten, Jack, Queen, King}
    ensures r !in {Jack, Queen, King, Ace} ==> v == RankIndex(r) + 2
  {
    match r
    case Two => 2
    case Three => 3
    case Four => 4
    case Five => 5
    case Six => 6
    case Seven => 7
    case Eight => 8
    case Nine => 9
    case Ten => 10
    case Jack => 10
    case Queen => 10
    case King => 10
    case Ace => 11
  }

  /** The total with every ace counted as 11. */
  function SoftTotal(hand: seq<Card>): nat
  {
    if hand == [] then 0
    else SoftTotal(hand[..|hand| - 1]) + CardValue(hand[|hand| - 1].rank)
  }

  /** The number of aces in the hand. */
  function AceCount(hand: seq<Card>): nat
  {
    if hand == [] then 0
    else AceCount(hand[..|hand| - 1]) + (if hand[|hand| - 1].rank == Ace then 1 else 0)
  }

  /** The total with every ace counted as 1. */
  function HardTotal(hand: seq<Card>): nat
  {
    if hand == [] then 0
    else
      var r := hand[|hand| - 1].rank;
      HardTotal(hand[..|hand| - 1]) + (if r == Ace then 1 else CardValue(r))
  }

  /** The reduction loop: take 10 off once per ace while the total is over 21. */
  function Reduce(value: int, aces: nat): (r: int)
    ensures value - 10 * aces <= r <= value
  {
    if value > 21 && aces > 0 then Reduce(value - 10, aces - 1) else value
  }

  /** The value `getHandValue` returns. */
  function HandValue(hand: seq<Card>): (r: int)
    ensures HardTotal(hand) <= r <= SoftTotal(hand)
  {
    SoftIsHardPlusAces(hand);
    Reduce(SoftTotal(hand), AceCount(hand))
  }

  /** `getHandValue`: one pass adding card values and counting aces, then the reduction loop. */
  method GetHandValue(hand: seq<Card>) returns (value: int)
    ensures value == HandValue(hand)
  {
    value := 0;
    var aces := 0;
    var i := 0;
    while i < |hand|
      invariant 0 <= i <= |hand|
      invariant value == SoftTotal(hand[..i]) && aces == AceCount(hand[..i])
    {
      assert hand[..i + 1][..i] == hand[..i];
      var cardValue := CardValue(hand[i].rank);
      if hand[i].rank == Ace {
        aces := aces + 1;
      }
      value := value + cardValue;
      i := i + 1;
    }
    assert hand[..i] == hand;
    while value > 21 && aces > 0
      invariant aces >= 0
      invariant Reduce(value, aces) == HandValue(hand)
    {
      value := value - 10;
      aces := aces - 1;
    }
  }

  /**
   * What the reduction loop computes: a total between `value - 10 * aces` and
   * `value`, an ace's 10 taken off only while the total was over 21, and a total
   * over 21 only once every ace has been reduced.
   */
  lemma {:induction false} ReduceSpec(value: int, aces: nat)
    ensures value - 10 * aces <= Reduce(value, aces) <= value
    ensures (value - Reduce(value, aces)) % 10 == 0
    ensures Reduce(value, aces) < value ==> Reduce(value, aces) + 10 > 21
    ensures Reduce(value, aces) > 21 ==> Reduce(value, aces) == value - 10 * aces
  {
    if value > 21 && aces > 0 {
      ReduceSpec(value - 10, aces - 1);
    }
  }

  /** Counting aces as 11 adds exactly 10 per ace to the all-aces-as-1 total. */
  lemma {:induction false} SoftIsHardPlusAces(hand: seq<Card>)
    ensures SoftTotal(hand) == HardTotal(hand) + 10 * AceCount(hand)
  {
    if hand != [] {
      SoftIsHardPlusAces(hand[..|hand| - 1]);
    }
  }

  /**
   * The hand value lies between the all-aces-as-1 and the all-aces-as-11 totals,
   * and it is over 21 only when every ace is counted as 1.
   */
  lemma HandValueBounds(hand: seq<Card>)
    ensures HardTotal(hand) <= HandValue(hand) <= SoftTotal(hand)
    ensures HandValue(hand) > 21 ==> HandValue(hand) == HardTotal(hand)
  {
    SoftIsHardPlusAces(hand);
    ReduceSpec(SoftTotal(hand), AceCount(hand));
  }

  /**
   * Aces are counted as 1 only as far as needed: if any ace was reduced, the
   * total with one ace fewer reduced would have been over 21.
   */
  lemma HandValueReducesOnlyWhenOver(hand: seq<Card>)
    ensures HandValue(hand) < SoftTotal(hand) ==> HandValue(hand) + 10 > 21
    ensures (SoftTotal(hand) - HandValue(hand)) % 10 == 0
  {
    ReduceSpec(SoftTotal(hand), AceCount(hand));
  }

  /** A hand without aces is worth the plain sum of its cards. */
  lemma {:induction false} NoAcesNoReduction(hand: seq<Card>)
    requires forall k :: 0 <= k < |hand| ==> hand[k].rank != Ace
    ensures AceCount(hand) == 0 && HandValue(hand) == SoftTotal(hand)
  {
    if hand != [] {
      NoAcesNoReduction(hand[..|hand| - 1]);
    }
  }

  /** The hands of the classic examples. */
  lemma HandValueExamples()
    ensures HandValue([Card(Spades, Ace), Card(Hearts, Six)]) == 17
    ensures HandValue([Card(Spades, Ace), Card(Hearts, Six), Card(Clubs, Ace)]) == 18
    ensures HandValue([Card(Spades, King), Card(Hearts, Queen)]) == 20
    ensures HandValue([Card(Spades, Ace), Card(Hearts, King)]) == 21
    ensures HandValue([Card(Spades, Seven), Card(Hearts, Seven), Card(Clubs, Seven)]) == 21
    ensures HandValue([Card(Spades, Ace), Card(Hearts, Ace), Card(Clubs, King), Card(Diamonds, King)]) == 22
  {
    var h1 := [Card(Spades, Ace), Card(Hearts, Six)];
    assert h1[..1] == [Card(Spades, Ace)];
    assert SoftTotal(h1) == 17;
    var h2 := [Card(Spades, Ace), Card(Hearts, Six), Card(Clubs, Ace)];
    assert h2[..2] == h1;
    assert SoftTotal(h2) == 28 && AceCount(h2) == 2;
    var h3 := [Card(Spades, King), Card(Hearts, Queen)];
    assert h3[..1] == [Card(Spades, King)];
    var h4 := [Card(Spades, Ace), Card(Hearts, King)];
    assert h4[..1] == [Card(Spades, Ace)];
    var h5 := [Card(Spades, Seven), Card(Hearts, Seven), Card(Clubs, Seven)];
    assert h5[..2][..1] == [Card(Spades, Seven)] && h5[..2] == [Card(Spades, Seven), Card(Hearts, Seven)];
    assert SoftTotal(h5) == 21 && AceCount(h5) == 0;
    var h6 := [Card(Spades, Ace), Card(Hearts, Ace), Card(Clubs, King), Card(Diamonds, King)];
    assert h6[..3] == [Card(Spades, Ace), Card(Hearts, Ace), Card(Clubs, King)];
    assert h6[..3][..2] == [Card(Spades, Ace), Card(Hearts, Ace)];
    assert h6[..3][..2][..1] == [Card(Spades, Ace)];
    assert SoftTotal(h6) == 42 && AceCount(h6) == 2;
  }
}
