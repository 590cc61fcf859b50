/**
 * Cards of the game screen: the `Suit`, `Rank` and card types, the `suits` and
 * `ranks` constants, and `generateDeck`, which pushes one card per (suit, rank)
 * pair in suit-major order.
 */
module Cards {

  datatype Suit = Hearts | Diamonds | Clubs | Spades

  datatype Rank = Two | Three | Four | Five | Six | Seven | Eight | Nine | Ten
                | Jack | Queen | King | Ace

  datatype Card = Card(suit: Suit, rank: Rank)

  /** The `ranks` constant, in the order the deck is built. */
  const Ranks: seq<Rank> :=
    [Two, Three, Four, Five, Six, Seven, Eight, Nine, Ten, Jack, Queen, King, Ace]

  /** The `suits` constant, in the order the deck is built. */
  const Suits: seq<Suit> := [Hearts, Diamonds, Clubs, Spades]

  /** The cards of suit `s`, one per rank of `ranks`, in the order of `ranks`. */
  function Row(s: Suit, ranks: seq<Rank>): seq<Card>
  {
    if ranks == [] then []
    else Row(s, ranks[..|ranks| - 1]) + [Card(s, ranks[|ranks| - 1])]
  }

  /** The cards of `suits` x `ranks`, suit by suit: what the nested loops push. */
  function Grid(suits: seq<Suit>, ranks: seq<Rank>): seq<Card>
  {
    if suits == [] then []
    else Grid(suits[..|suits| - 1], ranks) + Row(suits[|suits| - 1], ranks)
  }

  /** The deck `generateDeck` returns. */
  function StandardDeck(): seq<Card>
  {
    Grid(Suits, Ranks)
  }

  /** `generateDeck`: for each suit, for each rank, push the card. */
  method GenerateDeck() returns (deck: seq<Card>)
    ensures deck == StandardDeck()
    ensures |deck| == 52
    ensures forall c: Card :: multiset(deck)[c] == 1
  {
    deck := [];
    var i := 0;
    while i < |Suits|
      invariant 0 <= i <= |Suits|
      invariant deck == Grid(Suits[..i], Ranks)
    {
      var suit := Suits[i];
      var j := 0;
      while j < |Ranks|
        invariant 0 <= j <= |Ranks|
        invariant deck == Grid(Suits[..i], Ranks) + Row(suit, Ranks[..j])
      {
        RowStep(suit, Ranks, j);
        deck := deck + [Card(suit, Ranks[j])];
        j := j + 1;
      }
      GridStep(Suits, Ranks, i);
      assert Ranks[..j] == Ranks;
      i := i + 1;
    }
    assert Suits[..i] == Suits;
    StandardDeckAt(0, 0);
    forall c: Card
      ensures multiset(deck)[c] == 1
    {
      StandardDeckOnce(c);
    }
  }

  /** The row of the first `j + 1` ranks is the row of the first `j` and one more card. */
  lemma RowStep(s: Suit, ranks: seq<Rank>, j: nat)
    requires j < |ranks|
    ensures Row(s, ranks[..j + 1]) == Row(s, ranks[..j]) + [Card(s, ranks[j])]
  {
    assert ranks[..j + 1][..j] == ranks[..j];
  }

  /** The grid of the first `i + 1` suits is the grid of the first `i` and one more row. */
  lemma GridStep(suits: seq<Suit>, ranks: seq<Rank>, i: nat)
    requires i < |suits|
    ensures Grid(suits[..i + 1], ranks) == Grid(suits[..i], ranks) + Row(suits[i], ranks)
  {
    assert suits[..i + 1][..i] == suits[..i];
  }

  lemma {:induction false} RowAt(s: Suit, ranks: seq<Rank>)
    ensures |Row(s, ranks)| == |ranks|
    ensures forall j :: 0 <= j < |ranks| ==> Row(s, ranks)[j] == Card(s, ranks[j])
  {
    if ranks != [] {
      RowAt(s, ranks[..|ranks| - 1]);
    }
  }

  lemma {:induction false} GridLength(suits: seq<Suit>, ranks: seq<Rank>)
    ensures |Grid(suits, ranks)| == |suits| * |ranks|
  {
    if suits != [] {
      var n := |suits|;
      GridLength(suits[..n - 1], ranks);
      RowAt(suits[n - 1], ranks);
      assert (n - 1) * |ranks| + |ranks| == n * |ranks|;
    }
  }

  /** Suit-major order: for `m` ranks, card `i * m + j` of the grid is (`suits[i]`, `ranks[j]`). */
  lemma {:induction false} GridAt(suits: seq<Suit>, ranks: seq<Rank>, i: nat, j: nat)
    requires i < |suits| && j < |ranks|
    ensures i * |ranks| + j < |Grid(suits, ranks)|
    ensures Grid(suits, ranks)[i * |ranks| + j] == Card(suits[i], ranks[j])
  {
    var n, m := |suits|, |ranks|;
    var front, last := Grid(suits[..n - 1], ranks), Row(suits[n - 1], ranks);
    GridLength(suits[..n - 1], ranks);
    RowAt(suits[n - 1], ranks);
    var base := (n - 1) * m;
    assert |front| == base;
    assert Grid(suits, ranks) == front + last;
    if i < n - 1 {
      GridAt(suits[..n - 1], ranks, i, j);
      assert suits[..n - 1][i] == suits[i];
    } else {
      assert i * m == base;
      assert (front + last)[base + j] == last[j];
    }
  }

  /** Each card of `Row(s, ranks)` occurs as often as its rank in `ranks`, and only in suit `s`. */
  lemma {:induction false} RowCount(s: Suit, ranks: seq<Rank>, c: Card)
    ensures multiset(Row(s, ranks))[c] == if c.suit == s then multiset(ranks)[c.rank] else 0
  {
    if ranks != [] {
      var k := |ranks| - 1;
      RowCount(s, ranks[..k], c);
      assert ranks == ranks[..k] + [ranks[k]];
      assert multiset(ranks) == multiset(ranks[..k]) + multiset{ranks[k]};
    }
  }

  /** A card whose suit occurs at most once in `suits` occurs in the grid as often as its rank in `ranks`, if its suit is there. */
  lemma {:induction false} GridCount(suits: seq<Suit>, ranks: seq<Rank>, c: Card)
    requires multiset(suits)[c.suit] <= 1
    ensures multiset(Grid(suits, ranks))[c] == if c.suit in suits then multiset(ranks)[c.rank] else 0
  {
    if suits != [] {
      var k := |suits| - 1;
      assert suits == suits[..k] + [suits[k]];
      assert multiset(suits) == multiset(suits[..k]) + multiset{suits[k]};
      GridCount(suits[..k], ranks, c);
      RowCount(suits[k], ranks, c);
      assert c.suit in suits <==> c.suit in suits[..k] || c.suit == suits[k];
      if c.suit == suits[k] {
        assert c.suit !in suits[..k];
      }
    }
  }

  /** No element occurs twice. */
  predicate Distinct<T(==)>(s: seq<T>)
  {
    forall i, j :: 0 <= i < j < |s| ==> s[i] != s[j]
  }

  /** In a sequence without repetitions every element occurs once. */
  lemma {:induction false} DistinctOnce<T>(s: seq<T>, x: T)
    requires Distinct(s)
    ensures multiset(s)[x] == if x in s then 1 else 0
  {
    if s != [] {
      var k := |s| - 1;
      assert s == s[..k] + [s[k]];
      assert multiset(s) == multiset(s[..k]) + multiset{s[k]};
      assert Distinct(s[..k]) by {
        forall i, j | 0 <= i < j < k ensures s[..k][i] != s[..k][j] {
          assert s[..k][i] == s[i] && s[..k][j] == s[j];
        }
      }
      DistinctOnce(s[..k], x);
      assert x in s <==> x in s[..k] || x == s[k];
      if x == s[k] {
        assert x !in s[..k] by {
          forall i | 0 <= i < k ensures s[..k][i] != x {
            assert s[..k][i] == s[i];
          }
        }
      }
    }
  }

  /** The position of a suit in `suits`. */
  function SuitIndex(s: Suit): (i: nat)
    ensures i < |Suits| && Suits[i] == s
  {
    match s
    case Hearts => 0
    case Diamonds => 1
    case Clubs => 2
    case Spades => 3
  }

  /** The position of a rank in `ranks`. */
  function RankIndex(r: Rank): (i: nat)
    ensures i < |Ranks| && Ranks[i] == r
  {
    match r
    case Two => 0
    case Three => 1
    case Four => 2
    case Five => 3
    case Six => 4
    case Seven => 5
    case Eight => 6
    case Nine => 7
    case Ten => 8
    case Jack => 9
    case Queen => 10
    case King => 11
    case Ace => 12
  }

  lemma SuitsOnce(s: Suit)
    ensures multiset(Suits)[s] == 1
  {
    assert Distinct(Suits) by {
      forall i, j | 0 <= i < j < |Suits| ensures Suits[i] != Suits[j] {
        assert SuitIndex(Suits[i]) == i && SuitIndex(Suits[j]) == j;
      }
    }
    DistinctOnce(Suits, s);
    assert Suits[SuitIndex(s)] == s;
  }

  lemma RanksOnce(r: Rank)
    ensures multiset(Ranks)[r] == 1
  {
    assert Distinct(Ranks) by {
      forall i, j | 0 <= i < j < |Ranks| ensures Ranks[i] != Ranks[j] {
        assert RankIndex(Ranks[i]) == i && RankIndex(Ranks[j]) == j;
      }
    }
    DistinctOnce(Ranks, r);
    assert Ranks[RankIndex(r)] == r;
  }

  /** The deck is the hearts row, then diamonds, clubs and spades, each in rank order. */
  lemma StandardDeckBySuit()
    ensures StandardDeck() == Row(Hearts, Ranks) + Row(Diamonds, Ranks) + Row(Clubs, Ranks) + Row(Spades, Ranks)
  {
    var s3, s2, s1: seq<Suit> := [Hearts, Diamonds, Clubs], [Hearts, Diamonds], [Hearts];
    assert Suits[..3] == s3 && s3[..2] == s2 && s2[..1] == s1 && s1[..0] == [];
    assert Grid(s1, Ranks) == Row(Hearts, Ranks);
    assert Grid(s2, Ranks) == Grid(s1, Ranks) + Row(Diamonds, Ranks);
    assert Grid(s3, Ranks) == Grid(s2, Ranks) + Row(Clubs, Ranks);
    assert Grid(Suits, Ranks) == Grid(s3, Ranks) + Row(Spades, Ranks);
  }

  /** The deck has 52 cards, and card `13 * i + j` is (`suits[i]`, `ranks[j]`). */
  lemma StandardDeckAt(i: nat, j: nat)
    requires i < 4 && j < 13
    ensures |StandardDeck()| == 52
    ensures StandardDeck()[13 * i + j] == Card(Suits[i], Ranks[j])
  {
    var h, d, c, s := Row(Hearts, Ranks), Row(Diamonds, Ranks), Row(Clubs, Ranks), Row(Spades, Ranks);
    StandardDeckBySuit();
    RowAt(Hearts, Ranks);
    RowAt(Diamonds, Ranks);
    RowAt(Clubs, Ranks);
    RowAt(Spades, Ranks);
    var deck := StandardDeck();
    assert deck == ((h + d) + c) + s;
    if i == 0 {
      assert deck[j] == h[j];
    } else if i == 1 {
      assert deck[13 + j] == d[j];
    } else if i == 2 {
      assert deck[26 + j] == c[j];
    } else {
      assert deck[39 + j] == s[j];
    }
  }

  /** Every (suit, rank) pair occurs exactly once in the deck. */
  lemma StandardDeckOnce(c: Card)
    ensures multiset(StandardDeck())[c] == 1
  {
    SuitsOnce(c.suit);
    GridCount(Suits, Ranks, c);
    RanksOnce(c.rank);
  }
}
