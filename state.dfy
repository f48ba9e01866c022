// The state of a room's game (makeInitialGameState and what the handlers
// write into it), the deal of a shuffled deck, and the invariant every
// handler keeps.

module State {
  import opened Cards
  import opened Tricks
  import opened Settlement

  type PlayerId = string

  /** A seated player or spectator; disconnected stands for disconnectedAt being set. */
  datatype Player = Player(id: PlayerId, name: string, disconnected: bool)

  datatype Settings = Settings(targetScore: int, turnSeconds: int, isPrivate: bool, password: string)

  datatype Phase = Lobby | Dealing | Bidding | Declarations | TrickPlay | Scoring | Finished

  /** state.bidding: whose turn it is, the highest bid so far and who made
      it, and the passes since the last bid. */
  datatype Auction = Auction(turnSeat: nat, highestBid: Option<Bid>, highestBidderSeat: Option<nat>, passesInRow: nat)

  /** state.melds, with the belote holders and awardees as seats. */
  datatype MeldState = MeldState(team0: nat, team1: nat, beloteHolders: set<nat>, beloteAwarded: set<nat>)

  /** room.state. Hands are indexed by seat: the source keys them by the
      seat occupant's id, and no seat changes occupant outside the lobby. */
  datatype GameState = GameState(
    phase: Phase,
    ready: set<PlayerId>,
    dealerSeat: nat,
    handNo: nat,
    trumpSuit: Option<Suit>,
    contract: Option<Bid>,
    declarerTeam: Option<nat>,
    contra: nat,
    bidding: Option<Auction>,
    hands: seq<seq<Card>>,
    trick: Option<Trick>,
    tricksWon: seq<seq<Card>>,
    tricksCount: seq<nat>,
    lastTrickWinnerTeam: Option<nat>,
    melds: MeldState,
    totals: seq<nat>,
    turnSeat: nat,
    playedLog: seq<Play>)

  const NoMelds := MeldState(0, 0, {}, {})

  /** makeInitialGameState */
  function InitialGameState(): (g: GameState)
    ensures g.phase == Lobby && g.ready == {} && g.totals == [0, 0]
  {
    GameState(Lobby, {}, 0, 0, None, None, None, 1, None, [[], [], [], []], None,
      [[], []], [0, 0], None, NoMelds, [0, 0], 0, [])
  }

  // ---------------------------------------------------------------------
  // Seats

  predicate Occupies(s: Option<Player>, pid: PlayerId)
  {
    s.Some? && s.value.id == pid
  }

  /** seatIndexForPlayer: the first seat the player occupies, -1 if none. */
  function SeatIndexForPlayer(seats: seq<Option<Player>>, pid: PlayerId): (i: int)
    ensures -1 <= i < |seats|
    ensures i == -1 <==> forall k :: 0 <= k < |seats| ==> !Occupies(seats[k], pid)
    ensures i >= 0 ==> Occupies(seats[i], pid) && forall k :: 0 <= k < i ==> !Occupies(seats[k], pid)
  {
    if seats == [] then -1
    else if Occupies(seats[0], pid) then 0
    else
      var j := SeatIndexForPlayer(seats[1..], pid);
      assert forall k :: 1 <= k < |seats| ==> seats[1..][k - 1] == seats[k];
      if j == -1 then -1 else j + 1
  }

  /** seats.findIndex(s => s === null) */
  function FirstEmptySeat(seats: seq<Option<Player>>): (i: int)
    ensures -1 <= i < |seats|
    ensures i == -1 <==> forall k :: 0 <= k < |seats| ==> seats[k].Some?
    ensures i >= 0 ==> seats[i].None? && forall k :: 0 <= k < i ==> seats[k].Some?
  {
    if seats == [] then -1
    else if seats[0].None? then 0
    else
      var j := FirstEmptySeat(seats[1..]);
      assert forall k :: 1 <= k < |seats| ==> seats[1..][k - 1] == seats[k];
      if j == -1 then -1 else j + 1
  }

  predicate SeatsFull(seats: seq<Option<Player>>)
  {
    forall k :: 0 <= k < |seats| ==> seats[k].Some?
  }

  /** No player occupies two seats. */
  predicate DistinctSeats(seats: seq<Option<Player>>)
  {
    forall i, j :: 0 <= i < j < |seats| && seats[i].Some? && seats[j].Some? ==> seats[i].value.id != seats[j].value.id
  }

  /** canStart: four seated players, every one of them ready. */
  predicate CanStart(seats: seq<Option<Player>>, ready: set<PlayerId>)
  {
    |seats| == 4 && SeatsFull(seats) && forall k :: 0 <= k < 4 ==> seats[k].value.id in ready
  }

  // ---------------------------------------------------------------------
  // The deal

  /** The cards seat receives from the first n cards of the deck when card
      i goes to seat i % 4. */
  function Dealt(deck: seq<Card>, n: nat, seat: nat): seq<Card>
    requires n <= |deck|
  {
    if n == 0 then [] else Dealt(deck, n - 1, seat) + (if (n - 1) % 4 == seat then [deck[n - 1]] else [])
  }

  function DealtHands(deck: seq<Card>): (h: seq<seq<Card>>)
    requires |deck| == 32
    ensures |h| == 4
  {
    [Dealt(deck, 32, 0), Dealt(deck, 32, 1), Dealt(deck, 32, 2), Dealt(deck, 32, 3)]
  }

  /** All cards held by the four seats. */
  function Pool(hands: seq<seq<Card>>): multiset<Card>
    requires |hands| == 4
  {
    multiset(hands[0]) + multiset(hands[1]) + multiset(hands[2]) + multiset(hands[3])
  }

  lemma {:induction false} DealtLength(deck: seq<Card>, n: nat, seat: nat)
    requires n <= |deck| && seat < 4
    ensures |Dealt(deck, n, seat)| == (n + 3 - seat) / 4
  {
    if n > 0 {
      DealtLength(deck, n - 1, seat);
    }
  }

  lemma {:induction false} DealtPool(deck: seq<Card>, n: nat)
    requires n <= |deck|
    ensures multiset(Dealt(deck, n, 0)) + multiset(Dealt(deck, n, 1)) + multiset(Dealt(deck, n, 2)) + multiset(Dealt(deck, n, 3))
            == multiset(deck[..n])
    decreases n
  {
    if n > 0 {
      DealtPool(deck, n - 1);
      var x := deck[n - 1];
      PrefixMultiset(deck, n);
      var k := (n - 1) % 4;
      DealtStep(deck, n, 0, k);
      DealtStep(deck, n, 1, k);
      DealtStep(deck, n, 2, k);
      DealtStep(deck, n, 3, k);
      OneOfFour(k, x);
      SumOfFour(multiset(Dealt(deck, n - 1, 0)), multiset(Dealt(deck, n - 1, 1)),
                multiset(Dealt(deck, n - 1, 2)), multiset(Dealt(deck, n - 1, 3)),
                OneIf(k == 0, x), OneIf(k == 1, x), OneIf(k == 2, x), OneIf(k == 3, x));
    }
  }

  /** Exactly one of the four seats receives the card. */
  lemma OneOfFour(k: nat, x: Card)
    requires k < 4
    ensures OneIf(k == 0, x) + OneIf(k == 1, x) + OneIf(k == 2, x) + OneIf(k == 3, x) == multiset{x}
  {
  }

  lemma PrefixMultiset(s: seq<Card>, n: nat)
    requires 0 < n <= |s|
    ensures multiset(s[..n]) == multiset(s[..n - 1]) + multiset{s[n - 1]}
  {
    assert s[..n] == s[..n - 1] + [s[n - 1]];
  }

  function OneIf(b: bool, x: Card): multiset<Card>
  {
    if b then multiset{x} else multiset{}
  }

  lemma SumOfFour(a: multiset<Card>, b: multiset<Card>, c: multiset<Card>, d: multiset<Card>,
                  ea: multiset<Card>, eb: multiset<Card>, ec: multiset<Card>, ed: multiset<Card>)
    ensures (a + ea) + (b + eb) + (c + ec) + (d + ed) == (a + b + c + d) + (ea + eb + ec + ed)
  {
  }

  lemma DealtStep(deck: seq<Card>, n: nat, seat: nat, k: nat)
    requires 0 < n <= |deck| && k == (n - 1) % 4
    ensures multiset(Dealt(deck, n, seat)) ==
      multiset(Dealt(deck, n - 1, seat)) + OneIf(k == seat, deck[n - 1])
  {
  }

  /** The deal gives each seat 8 cards, and the four hands together are
      exactly the deck: no card is duplicated or lost. */
  lemma DealPartitions(deck: seq<Card>)
    requires |deck| == 32
    ensures forall s :: 0 <= s < 4 ==> |DealtHands(deck)[s]| == 8
    ensures Pool(DealtHands(deck)) == multiset(deck)
  {
    DealtLength(deck, 32, 0);
    DealtLength(deck, 32, 1);
    DealtLength(deck, 32, 2);
    DealtLength(deck, 32, 3);
    DealtPool(deck, 32);
    assert deck[..32] == deck;
    assert Pool(DealtHands(deck)) == multiset(Dealt(deck, 32, 0)) + multiset(Dealt(deck, 32, 1)) + multiset(Dealt(deck, 32, 2)) + multiset(Dealt(deck, 32, 3));
  }

  // ---------------------------------------------------------------------
  // The invariant

  function TrickCards(t: Option<Trick>): seq<Card>
  {
    if t.None? then [] else PlayedCards(t.value.plays)
  }

  /** Every card of the hand in play: the hands, both teams' won tricks and
      the trick on the table. */
  function InPlay(g: GameState): multiset<Card>
    requires |g.hands| == 4 && |g.tricksWon| == 2
  {
    Pool(g.hands) + multiset(g.tricksWon[0]) + multiset(g.tricksWon[1]) + multiset(TrickCards(g.trick))
  }

  /** The plays of a trick come from consecutive seats starting at the leader. */
  predicate InTurn(t: Trick)
  {
    t.leadSeat < 4 && |t.plays| <= 4 &&
    forall k :: 0 <= k < |t.plays| ==> t.plays[k].seat == (t.leadSeat + k) % 4
  }

  /** The shape every state has. */
  predicate Shaped(g: GameState)
  {
    |g.hands| == 4 && |g.tricksWon| == 2 && |g.tricksCount| == 2 && |g.totals| == 2 &&
    g.dealerSeat < 4 && g.turnSeat < 4 && (g.contra == 1 || g.contra == 2 || g.contra == 4) &&
    (g.declarerTeam.Some? ==> g.declarerTeam.value < 2) &&
    (g.lastTrickWinnerTeam.Some? ==> g.lastTrickWinnerTeam.value < 2) &&
    (g.bidding.Some? ==>
      g.bidding.value.turnSeat < 4 &&
      (g.bidding.value.highestBid.Some? <==> g.bidding.value.highestBidderSeat.Some?) &&
      (g.bidding.value.highestBidderSeat.Some? ==> g.bidding.value.highestBidderSeat.value < 4)) &&
    (g.trick.Some? ==> InTurn(g.trick.value))
  }

  /** The auction is over after four passes with no bid, or three passes
      after the last bid. */
  predicate AuctionOver(a: Auction)
  {
    (a.highestBid.None? && a.passesInRow >= 4) || (a.highestBid.Some? && a.passesInRow >= 3)
  }

  /** What holds while a hand is being bid or played: all 32 cards are
      accounted for exactly once. */
  predicate HandInProgress(g: GameState)
    requires Shaped(g)
  {
    InPlay(g) == multiset(FullDeck()) &&
    (g.phase == Bidding ==>
      g.bidding.Some? && g.trick.None? && g.contra == 1 && g.handNo >= 1 &&
      g.turnSeat == g.bidding.value.turnSeat && !AuctionOver(g.bidding.value)) &&
    (g.phase != Bidding ==>
      g.trick.Some? && |g.trick.value.plays| < 4 &&
      g.turnSeat == (g.trick.value.leadSeat + |g.trick.value.plays|) % 4 &&
      g.contract.Some? && g.declarerTeam.Some? && g.trumpSuit == Some(g.contract.value.suit) &&
      g.melds.beloteAwarded <= g.melds.beloteHolders)
  }

  predicate InHand(p: Phase)
  {
    p == Bidding || p == Declarations || p == TrickPlay
  }

  /** The invariant of a room: four seats, no player in two of them, every
      seat filled once a game has started, and the 32 cards conserved
      while a hand is in progress. */
  predicate ValidRoom(seats: seq<Option<Player>>, g: GameState)
  {
    |seats| == 4 && DistinctSeats(seats) && Shaped(g) &&
    (g.phase != Lobby ==> SeatsFull(seats)) &&
    (g.phase == Dealing || g.phase == Scoring ==> false) &&
    (InHand(g.phase) ==> HandInProgress(g))
  }

  /** A fresh state is valid whoever is seated. */
  lemma InitialValid(seats: seq<Option<Player>>)
    requires |seats| == 4 && DistinctSeats(seats)
    ensures ValidRoom(seats, InitialGameState())
  {
  }
}
