/**
 * The round logic of the Blackjack game screen: `dealCard`, the initial deal
 * of `startNewGame`, the dealer's drawing loop and the settlement of
 * `handleStand`, and the screen's state fields with the handlers that update
 * them (`startNewGame`, `handleHit`, `handleStand` and the bust effect).
 */
module Blackjack {
  import opened Wrappers
  import opened Cards
  import opened Shuffle
  import opened Hands

  /**
   * `dealCard`: no card and the deck unchanged when the deck is empty;
   * otherwise the front card and the rest of the deck.
   */
  function DealCard(deck: seq<Card>): (r: (Option<Card>, seq<Card>))
    ensures r.0 == None <==> deck == []
    ensures r.0 == None ==> r.1 == deck
    ensures r.0.Some? ==> [r.0.value] + r.1 == deck
  {
    if |deck| == 0 then (None, deck) else (Some(deck[0]), deck[1..])
  }

  /** One `dealCard` into `hand`: the card, if there is one, is pushed. */
  function DealInto(hand: seq<Card>, deck: seq<Card>): (r: (seq<Card>, seq<Card>))
    ensures deck == [] ==> r == (hand, deck)
    ensures deck != [] ==> r == (hand + [deck[0]], deck[1..])
  {
    var (card, updatedDeck) := DealCard(deck);
    if card.Some? then (hand + [card.value], updatedDeck) else (hand, updatedDeck)
  }

  /**
   * The four deals of `startNewGame`, player, dealer, player, dealer, from the
   * front of the deck: the player gets the cards at even positions and the
   * dealer those at odd positions among the first four (or fewer, when the
   * deck is shorter), and the rest of the deck is kept.
   */
  function InitialDeal(deck: seq<Card>): (r: (seq<Card>, seq<Card>, seq<Card>))
    ensures var n := if |deck| < 4 then |deck| else 4;
            && r.2 == deck[n..]
            && |r.0| == (n + 1) / 2 && |r.1| == n / 2
            && (forall k :: 0 <= k < |r.0| ==> r.0[k] == deck[2 * k])
            && (forall k :: 0 <= k < |r.1| ==> r.1[k] == deck[2 * k + 1])
  {
    var (p1, d1) := DealInto([], deck);
    var (q1, d2) := DealInto([], d1);
    var (p2, d3) := DealInto(p1, d2);
    var (q2, d4) := DealInto(q1, d3);
    (p2, q2, d4)
  }

  /** From a deck of at least four cards the initial deal is exactly as at a table. */
  lemma InitialDealFull(deck: seq<Card>)
    requires |deck| >= 4
    ensures InitialDeal(deck) == ([deck[0], deck[2]], [deck[1], deck[3]], deck[4..])
  {
    var (p, d, rest) := InitialDeal(deck);
    assert p == [deck[0], deck[2]];
    assert d == [deck[1], deck[3]];
  }

  /** One deal moves a card from the deck to the hand, or nothing. */
  lemma DealIntoConserves(hand: seq<Card>, deck: seq<Card>)
    ensures var (h, rest) := DealInto(hand, deck);
            multiset(h) + multiset(rest) == multiset(hand) + multiset(deck)
  {
    if deck != [] {
      assert deck == [deck[0]] + deck[1..];
    }
  }

  /** The initial deal neither loses nor duplicates a card. */
  lemma InitialDealConserves(deck: seq<Card>)
    ensures var (p, d, rest) := InitialDeal(deck);
            multiset(p) + multiset(d) + multiset(rest) == multiset(deck)
  {
    var (p1, d1) := DealInto([], deck);
    DealIntoConserves([], deck);
    var (q1, d2) := DealInto([], d1);
    DealIntoConserves([], d1);
    var (p2, d3) := DealInto(p1, d2);
    DealIntoConserves(p1, d2);
    var (q2, d4) := DealInto(q1, d3);
    DealIntoConserves(q1, d3);
    assert InitialDeal(deck) == (p2, q2, d4);
  }

  /**
   * The dealer's loop in `handleStand`: while the dealer's hand is worth less
   * than 17, deal the front card into it; stop when the deck is empty.
   */
  function DealerDraw(hand: seq<Card>, deck: seq<Card>): (seq<Card>, seq<Card>)
    decreases |deck|
  {
    if HandValue(hand) >= 17 then (hand, deck)
    else
      match DealCard(deck)
      case (None, _) => (hand, deck)
      case (Some(card), rest) => DealerDraw(hand + [card], rest)
  }

  /** Below 17 with a non-empty deck, the dealer takes the front card and goes on. */
  lemma DealerDrawStep(hand: seq<Card>, deck: seq<Card>)
    requires HandValue(hand) < 17 && deck != []
    ensures DealerDraw(hand, deck) == DealerDraw(hand + [deck[0]], deck[1..])
  {
  }

  /** The dealer keeps the old hand as a prefix and takes the drawn cards from the front of the deck. */
  lemma {:induction false} DealerDrawTakesFront(hand: seq<Card>, deck: seq<Card>)
    ensures var (h, rest) := DealerDraw(hand, deck);
            && |hand| <= |h| && h == hand + h[|hand|..]
            && h[|hand|..] + rest == deck
    decreases |deck|
  {
    if HandValue(hand) < 17 && deck != [] {
      var card := deck[0];
      DealerDrawStep(hand, deck);
      DealerDrawTakesFront(hand + [card], deck[1..]);
      var (h, rest) := DealerDraw(hand + [card], deck[1..]);
      assert h == hand + ([card] + h[|hand| + 1..]);
      assert h[|hand|..] == [card] + h[|hand| + 1..];
      assert deck == [card] + deck[1..];
    }
  }

  /**
   * The loop stops at 17 or more or on an empty deck; from 17 or more it draws
   * nothing, and below 17 it draws at least one card when the deck has one.
   */
  lemma {:induction false} DealerDrawStops(hand: seq<Card>, deck: seq<Card>)
    ensures var (h, rest) := DealerDraw(hand, deck);
            && (HandValue(h) >= 17 || rest == [])
            && (HandValue(hand) >= 17 ==> h == hand && rest == deck)
            && (HandValue(hand) < 17 && deck != [] ==> |h| > |hand|)
    decreases |deck|
  {
    if HandValue(hand) < 17 && deck != [] {
      var card := deck[0];
      DealerDrawStep(hand, deck);
      DealerDrawStops(hand + [card], deck[1..]);
      DealerDrawTakesFront(hand + [card], deck[1..]);
    }
  }

  /** The dealer draws only while the hand is worth less than 17. */
  lemma {:induction false} DealerDrawOnlyUnder17(hand: seq<Card>, deck: seq<Card>)
    ensures var (h, rest) := DealerDraw(hand, deck);
            forall k :: |hand| <= k < |h| ==> HandValue(h[..k]) < 17
    decreases |deck|
  {
    if HandValue(hand) < 17 && deck != [] {
      var card := deck[0];
      DealerDrawStep(hand, deck);
      DealerDrawOnlyUnder17(hand + [card], deck[1..]);
      DealerDrawTakesFront(hand + [card], deck[1..]);
      var (h, rest) := DealerDraw(hand + [card], deck[1..]);
      assert h[..|hand|] == hand by {
        assert h == hand + ([card] + h[|hand| + 1..]);
      }
    }
  }

  /**
   * The dealer keeps the old hand as a prefix and takes the drawn cards from
   * the front of the deck; the loop stops at 17 or more or on an empty deck,
   * and it draws only while the hand is worth less than 17.
   */
  lemma DealerDrawSpec(hand: seq<Card>, deck: seq<Card>)
    ensures var (h, rest) := DealerDraw(hand, deck);
            && |hand| <= |h| && h[..|hand|] == hand
            && h[|hand|..] + rest == deck
            && (HandValue(h) >= 17 || rest == [])
            && (forall k :: |hand| <= k < |h| ==> HandValue(h[..k]) < 17)
            && (HandValue(hand) >= 17 ==> h == hand && rest == deck)
            && (HandValue(hand) < 17 && deck != [] ==> |h| > |hand|)
  {
    DealerDrawTakesFront(hand, deck);
    DealerDrawStops(hand, deck);
    DealerDrawOnlyUnder17(hand, deck);
    var (h, rest) := DealerDraw(hand, deck);
    assert h[..|hand|] == hand;
  }

  /** The dealer's drawing only moves cards from the deck to the dealer's hand. */
  lemma DealerDrawConserves(hand: seq<Card>, deck: seq<Card>)
    ensures var (h, rest) := DealerDraw(hand, deck);
            multiset(h) + multiset(rest) == multiset(hand) + multiset(deck)
  {
    DealerDrawSpec(hand, deck);
    var (h, rest) := DealerDraw(hand, deck);
    var drawn := h[|hand|..];
    assert h == hand + drawn;
    assert deck == drawn + rest;
    assert multiset(h) == multiset(hand) + multiset(drawn);
    assert multiset(deck) == multiset(drawn) + multiset(rest);
  }

  /** The loop of `handleStand`, on the copies `currentDeck` and `dealerNewHand`. */
  method PlayDealer(dealerHand: seq<Card>, deck: seq<Card>)
    returns (dealerNewHand: seq<Card>, currentDeck: seq<Card>)
    ensures (dealerNewHand, currentDeck) == DealerDraw(dealerHand, deck)
  {
    currentDeck := deck;
    dealerNewHand := dealerHand;
    while HandValue(dealerNewHand) < 17
      invariant DealerDraw(dealerNewHand, currentDeck) == DealerDraw(dealerHand, deck)
      decreases |currentDeck|
    {
      var (newCard, updatedDeck) := DealCard(currentDeck);
      if newCard.Some? {
        dealerNewHand := dealerNewHand + [newCard.value];
        currentDeck := updatedDeck;
      } else {
        break;
      }
    }
  }

  /** The result messages of the screen. */
  datatype Outcome = PlayerBusts | DealerBusts | Push | DealerWins | PlayerWins

  /** The text shown for each result. */
  function Message(o: Outcome): string
  {
    match o
    case PlayerBusts => "Player Busts! Dealer Wins."
    case DealerBusts => "Dealer Busts! Player Wins!"
    case Push => "Push! It's a tie."
    case DealerWins => "Dealer Wins."
    case PlayerWins => "Player Wins!"
  }

  /** Each result has its own text, so the text shown tells which result it is. */
  lemma MessagesDistinct(a: Outcome, b: Outcome)
    ensures Message(a) == Message(b) <==> a == b
  {
    if a != b {
      // Texts of equal length start with different letters.
      assert |Message(a)| != |Message(b)| || Message(a)[0] != Message(b)[0];
    }
  }

  /**
   * The settlement of `handleStand`: a dealer over 21 loses; otherwise equal
   * totals push and the higher total wins.
   */
  function Settle(playerValue: int, dealerValue: int): (o: Outcome)
    ensures o != PlayerBusts
    ensures o == DealerBusts <==> dealerValue > 21
    ensures o == Push <==> dealerValue <= 21 && dealerValue == playerValue
    ensures o == DealerWins <==> dealerValue <= 21 && dealerValue > playerValue
    ensures o == PlayerWins <==> dealerValue <= 21 && dealerValue < playerValue
  {
    if dealerValue > 21 then DealerBusts
    else if dealerValue == playerValue then Push
    else if dealerValue > playerValue then DealerWins
    else PlayerWins
  }

  /** Moving cards between two places of the table keeps the table's cards. */
  lemma Regroup(h: multiset<Card>, rest: multiset<Card>, hand: multiset<Card>, deck: multiset<Card>, other: multiset<Card>)
    requires h + rest == hand + deck
    ensures rest + other + h == deck + other + hand
  {
    forall c ensures (rest + other + h)[c] == (deck + other + hand)[c] {
      assert (h + rest)[c] == (hand + deck)[c];
    }
  }

  /** The state fields of the game screen. */
  class Game {
    var deck: seq<Card>
    var playerHand: seq<Card>
    var dealerHand: seq<Card>
    var gameStarted: bool
    var gameResult: Option<Outcome>
    var isPlayerTurn: bool
    var dealerDeckCount: int

    /**
     * Before the first game nothing is dealt and no result is shown; once a
     * game is started, it is the player's turn exactly while no result is set.
     */
    ghost predicate Valid()
      reads this
    {
      && (!gameStarted ==> !isPlayerTurn && gameResult == None && playerHand == [] && dealerHand == [])
      && (gameStarted ==> (isPlayerTurn <==> gameResult == None))
    }

    /**
     * What the screen's code keeps because the deck loop of `startNewGame`
     * never runs: once a game is started, the deck and both hands are empty.
     */
    ghost predicate NothingDealt()
      reads this
    {
      gameStarted ==> deck == [] && playerHand == [] && dealerHand == []
    }

    /** Every card on the table or in the deck. */
    ghost function AllCards(): multiset<Card>
      reads this
    {
      multiset(deck) + multiset(playerHand) + multiset(dealerHand)
    }

    /** The initial `useState` values: a fresh standard deck, no hands, no game, four decks. */
    constructor ()
      ensures Valid()
      ensures deck == StandardDeck()
      ensures playerHand == [] && dealerHand == []
      ensures !gameStarted && gameResult == None && !isPlayerTurn
      ensures dealerDeckCount == 4
    {
      var newDeck := GenerateDeck();
      deck := newDeck;
      playerHand := [];
      dealerHand := [];
      gameStarted := false;
      gameResult := None;
      isPlayerTurn := false;
      dealerDeckCount := 4;
    }

    /**
     * `startNewGame`. The loop that is to push `dealerDeckCount` decks starts
     * `i` at `dealerDeckCount` and runs while `i > dealerDeckCount`, so it never
     * runs: the shuffle and the four deals work on an empty deck. The ghost
     * result is the shuffled deck that the four deals take from.
     */
    method StartNewGame() returns (ghost shuffled: seq<Card>)
      requires Valid()
      modifies this`deck, this`playerHand, this`dealerHand
      modifies this`gameStarted, this`gameResult, this`isPlayerTurn
      ensures Valid()
      ensures shuffled == []
      ensures (playerHand, dealerHand, deck) == InitialDeal(shuffled)
      ensures playerHand == [] && dealerHand == [] && deck == []
      ensures gameStarted && isPlayerTurn && gameResult == None
    {
      var currentDeck: seq<Card> := [];
      // The source's guard `i > dealerDeckCount` is false for the initial
      // `i == dealerDeckCount`; the empty range below runs the same zero times.
      for i := dealerDeckCount to dealerDeckCount
        invariant currentDeck == []
      {
        var oneDeck := GenerateDeck();
        currentDeck := currentDeck + oneDeck;
      }
      var cards := new Card[|currentDeck|](k requires 0 <= k < |currentDeck| => currentDeck[k]);
      ghost var steps := ShuffleDeck(cards);
      currentDeck := cards[..];
      shuffled := currentDeck;

      // The deals player, dealer, player, dealer from the front of the deck.
      var (initialPlayerHand, initialDealerHand, updatedDeck) := InitialDeal(currentDeck);
      currentDeck := updatedDeck;

      deck := currentDeck;
      playerHand := initialPlayerHand;
      dealerHand := initialDealerHand;
      gameStarted := true;
      gameResult := None;
      isPlayerTurn := true;
    }

    /**
     * `handleHit`: only on the player's turn of a started game; a card from
     * the front of a non-empty deck goes to the end of the player's hand.
     */
    method HandleHit()
      requires Valid()
      modifies this`playerHand, this`deck
      ensures Valid()
      ensures AllCards() == old(AllCards())
      ensures if old(gameStarted && isPlayerTurn) && old(deck) != []
              then playerHand == old(playerHand) + [old(deck)[0]] && deck == old(deck)[1..]
              else playerHand == old(playerHand) && deck == old(deck)
    ensures old(NothingDealt()) ==> NothingDealt()
    {
      if !gameStarted || !isPlayerTurn {
        return;
      }
      var (newCard, updatedDeck) := DealCard(deck);
      if newCard.Some? {
        assert deck == [newCard.value] + updatedDeck;
        playerHand := playerHand + [newCard.value];
        deck := updatedDeck;
      }
    }

    /**
     * `handleStand`: only on the player's turn of a started game; the turn
     * ends, the dealer draws to 17 or more (or until the deck is empty), and
     * the result compares the two hand values.
     */
    method HandleStand()
      requires Valid()
      modifies this`isPlayerTurn, this`dealerHand, this`deck, this`gameResult
      ensures Valid()
      ensures AllCards() == old(AllCards())
      ensures if old(gameStarted && isPlayerTurn)
              then && !isPlayerTurn
                   && (dealerHand, deck) == DealerDraw(old(dealerHand), old(deck))
                   && gameResult == Some(Settle(HandValue(playerHand), HandValue(dealerHand)))
              else && isPlayerTurn == old(isPlayerTurn) && dealerHand == old(dealerHand)
                   && deck == old(deck) && gameResult == old(gameResult)
    ensures old(NothingDealt()) ==> NothingDealt()
    ensures old(NothingDealt() && gameStarted && isPlayerTurn) ==> gameResult == Some(Push)
    {
      if !gameStarted || !isPlayerTurn {
        return;
      }
      isPlayerTurn := false;
      if NothingDealt() {
        // Both hands are empty and worth 0, so the dealer draws from the empty deck.
        assert HandValue([]) == 0;
        assert DealerDraw([], []) == ([], []);
      }
      var currentDeck, dealerNewHand := deck, dealerHand;
      dealerNewHand, currentDeck := PlayDealer(dealerNewHand, currentDeck);
      DealerDrawConserves(dealerHand, deck);
      Regroup(multiset(dealerNewHand), multiset(currentDeck), multiset(dealerHand), multiset(deck), multiset(playerHand));
      dealerHand := dealerNewHand;
      deck := currentDeck;

      var playerValue := GetHandValue(playerHand);
      var dealerValue := GetHandValue(dealerNewHand);
      gameResult := Some(Settle(playerValue, dealerValue));
    }

    /**
     * The bust effect: on the player's turn of a started game, a player's hand
     * worth more than 21 ends the turn with the "Player Busts" result.
     */
    method BustEffect()
      requires Valid()
      modifies this`gameResult, this`isPlayerTurn
      ensures Valid()
      ensures if old(gameStarted && isPlayerTurn) && HandValue(playerHand) > 21
              then gameResult == Some(PlayerBusts) && !isPlayerTurn
              else gameResult == old(gameResult) && isPlayerTurn == old(isPlayerTurn)
    ensures old(NothingDealt()) ==> gameResult == old(gameResult) && isPlayerTurn == old(isPlayerTurn)
    {
      if gameStarted && isPlayerTurn {
        var value := GetHandValue(playerHand);
        if NothingDealt() {
          assert HandValue([]) == 0;
        }
        if value > 21 {
          gameResult := Some(PlayerBusts);
          isPlayerTurn := false;
        }
      }
    }
  }

  /**
   * A round as the screen is written, from any state it can be in: a new
   * game, a hit and its bust check, then a stand. Nothing is ever dealt, both
   * hands are worth 0, and the result is a push.
   */
  method PlayRound(game: Game) returns (result: Option<Outcome>)
    requires game.Valid() && game.NothingDealt()
    modifies game
    ensures result == game.gameResult == Some(Push)
    ensures game.Valid() && game.NothingDealt()
  {
    ghost var shuffled := game.StartNewGame();
    game.HandleHit();
    game.BustEffect();
    game.HandleStand();
    result := game.gameResult;
  }

  /** The first round after the screen is mounted ends in a push. */
  method RoundAsWritten() returns (result: Option<Outcome>)
    ensures result == Some(Push)
  {
    var game := new Game();
    result := PlayRound(game);
  }
}
