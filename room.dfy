// A room (makeRoom) and the handlers that change it in place: joining and
// leaving, disconnection and its grace period, readiness and the start of a
// game, the deal, the auction and the plays; and the table of rooms. Every
// handler keeps ValidRoom and leaves the state the Rules functions give.

module Rooms {
  import opened Cards
  import opened Tricks
  import opened Melds
  import opened Settlement
  import opened State
  import opened Rules

  /** A handler's answer: { ok:true } or { ok:false, error }. */
  datatype Outcome = Ok | Failed(error: string)

  /** What playCard answers: an error, a plain play, a completed trick and
      the seat that won it, or the end of the hand. */
  datatype PlayOutcome = PlayFailed(error: string) | Played | TrickComplete(winnerSeat: nat) | HandEnded

  // ---------------------------------------------------------------------
  // Seats and spectators

  /** The seats and spectators after joinRoom: a seated player keeps the
      seat (name updated, reconnected), a new player takes the first empty
      seat, and with every seat taken joins the spectators. */
  function Joined(seats: seq<Option<Player>>, spectators: seq<Player>, pid: PlayerId, name: string)
    : (seq<Option<Player>>, seq<Player>)
  {
    var i := SeatIndexForPlayer(seats, pid);
    if i != -1 then (seats[i := Some(Player(pid, name, false))], spectators)
    else
      var e := FirstEmptySeat(seats);
      if e != -1 then (seats[e := Some(Player(pid, name, false))], spectators)
      else (seats, spectators + [Player(pid, name, false)])
  }

  /** The first player to join a fresh room takes seat 0. */
  lemma FirstJoinerTakesSeatZero(pid: PlayerId, name: string)
    ensures Joined([None, None, None, None], [], pid, name) == ([Some(Player(pid, name, false)), None, None, None], [])
  {
    var empty: seq<Option<Player>> := [None, None, None, None];
    assert SeatIndexForPlayer(empty, pid) == -1;
    assert FirstEmptySeat(empty) == 0;
    assert empty[0 := Some(Player(pid, name, false))] == [Some(Player(pid, name, false)), None, None, None];
  }

  /** Joining never seats a player twice; the player ends up in a seat
      exactly when it had one or a seat was free, and otherwise among the
      spectators; with every seat taken, the seated players stay the same. */
  lemma JoinedPlaces(seats: seq<Option<Player>>, spectators: seq<Player>, pid: PlayerId, name: string)
    requires |seats| == 4 && DistinctSeats(seats)
    ensures var (s, sp) := Joined(seats, spectators, pid, name);
      var k := SeatIndexForPlayer(s, pid);
      |s| == 4 && DistinctSeats(s) &&
      (k != -1 <==> SeatIndexForPlayer(seats, pid) != -1 || FirstEmptySeat(seats) != -1) &&
      (k != -1 ==> s[k] == Some(Player(pid, name, false)) && sp == spectators) &&
      (k == -1 ==> s == seats && sp == spectators + [Player(pid, name, false)]) &&
      (SeatsFull(seats) ==> SeatsFull(s) && forall j :: 0 <= j < 4 ==> s[j].value.id == seats[j].value.id)
  {
    var i := SeatIndexForPlayer(seats, pid);
    var (s, sp) := Joined(seats, spectators, pid, name);
    if i != -1 {
      assert s[i] == Some(Player(pid, name, false));
    } else {
      var e := FirstEmptySeat(seats);
      if e != -1 {
        assert Occupies(s[e], pid);
      }
    }
  }

  /** spectators.filter(x => x.id !== pid) */
  function WithoutSpectator(spectators: seq<Player>, pid: PlayerId): (r: seq<Player>)
    ensures forall p :: p in r <==> p in spectators && p.id != pid
  {
    if spectators == [] then []
    else
      assert spectators == [spectators[0]] + spectators[1..];
      (if spectators[0].id == pid then [] else [spectators[0]]) + WithoutSpectator(spectators[1..], pid)
  }

  /** The game after a seated player leaves or is purged: mid-game the whole
      state is reset, totals included; in the lobby only the player's ready
      mark goes. */
  function AfterLeave(g: GameState, pid: PlayerId): (h: GameState)
    ensures pid !in h.ready
    ensures g.phase != Lobby ==> h.phase == Lobby && h.totals == [0, 0] && h.ready == {}
    ensures g.phase == Lobby ==> h == g.(ready := g.ready - {pid})
  {
    if g.phase != Lobby then InitialGameState() else g.(ready := g.ready - {pid})
  }

  /** Emptying a seat keeps the room valid, whatever phase it was in. */
  lemma LeaveValid(seats: seq<Option<Player>>, g: GameState, i: nat, pid: PlayerId)
    requires ValidRoom(seats, g) && i < 4
    ensures ValidRoom(seats[i := None], AfterLeave(g, pid))
  {
    var s := seats[i := None];
    assert DistinctSeats(s) by {
      forall a, b | 0 <= a < b < 4 && s[a].Some? && s[b].Some?
        ensures s[a].value.id != s[b].value.id
      {
        assert s[a] == seats[a] && s[b] == seats[b];
      }
    }
    if g.phase != Lobby {
      InitialValid(s);
    }
  }

  /** A state of a hand in progress replacing another one under way, with
      the same seats, keeps the room valid. */
  lemma StaysValid(seats: seq<Option<Player>>, g: GameState, h: GameState)
    requires ValidRoom(seats, g) && g.phase != Lobby
    requires Shaped(h) && InHand(h.phase) && HandInProgress(h)
    ensures ValidRoom(seats, h)
  {
  }

  /** The state after a play, with the same seats, keeps the room valid. */
  lemma PlayValid(seats: seq<Option<Player>>, g: GameState, h: GameState)
    requires ValidRoom(seats, g) && g.phase != Lobby
    requires Shaped(h) && (h.phase == TrickPlay ==> HandInProgress(h))
    requires h.phase == TrickPlay || h.phase == Lobby || h.phase == Finished
    ensures ValidRoom(seats, h)
  {
  }

  /** A legal play, in a valid room, leaves a valid room. */
  lemma PlayStep(seats: seq<Option<Player>>, g: GameState, seat: nat, c: Card, target: int)
    requires ValidRoom(seats, g) && g.phase == TrickPlay && seat == g.turnSeat && c in g.hands[seat]
    ensures Shaped(g) && seat < 4 && g.trick.Some? && g.trumpSuit.Some?
    ensures g.declarerTeam.Some? && g.contract.Some? && |g.trick.value.plays| < 4
    ensures var p := AfterPlay(g, seat, c);
      |p.hands| == 4 && |p.tricksWon| == 2 && |p.tricksCount| == 2 && |p.totals| == 2 &&
      p.trick.Some? && |p.trick.value.plays| == |g.trick.value.plays| + 1 && p.trumpSuit.Some? &&
      p.declarerTeam.Some? && p.declarerTeam.value < 2 && p.contract.Some? && p.phase == TrickPlay &&
      (forall k :: 0 <= k < |p.trick.value.plays| ==> p.trick.value.plays[k].seat >= 0)
    ensures ValidRoom(seats, PlaySpec(g, seat, c, target))
  {
    PlayKeeps(g, seat, c, target);
    PlayValid(seats, g, PlaySpec(g, seat, c, target));
    AfterPlayReady(g, seat, c);
  }

  /** An accepted contra, in a valid room, closes the auction into a valid
      room under the doubled contract. */
  lemma ContraStep(seats: seq<Option<Player>>, g: GameState, seat: int)
    requires ValidRoom(seats, g) && CheckContra(g, seat).None?
    ensures g.phase == Bidding && |g.hands| == 4 && g.bidding.Some?
    ensures g.bidding.value.highestBid.Some? && g.bidding.value.highestBidderSeat.Some?
    ensures var h := ContraResult(g); ValidRoom(seats, h) && h.phase == Declarations && h.contra == 2
  {
    ContraCloses(g, seat);
    StaysValid(seats, g, ContraResult(g));
  }

  /** A pass in turn, in a valid room, leaves a valid room. */
  lemma PassStep(seats: seq<Option<Player>>, g: GameState, seat: nat, deck: seq<Card>)
    requires ValidRoom(seats, g) && g.phase == Bidding && seat == g.turnSeat
    requires multiset(deck) == multiset(FullDeck())
    ensures |deck| == 32 && |g.hands| == 4 && g.bidding.Some?
    ensures g.bidding.value.highestBid.Some? ==> g.bidding.value.highestBidderSeat.Some?
    ensures ValidRoom(seats, PassResult(g, seat, deck))
  {
    PassResultKeeps(g, seat, deck);
    StaysValid(seats, g, PassResult(g, seat, deck));
  }

  /** The dispatcher's step out of the declarations keeps a room valid. */
  lemma ToTricksValid(seats: seq<Option<Player>>, g: GameState)
    requires ValidRoom(seats, g)
    ensures ValidRoom(seats, ToTricks(g))
  {
    if g.phase == Declarations {
      StaysValid(seats, g, ToTricks(g));
    }
  }

  /** The dispatcher's step from declarations to the trick phase. */
  function ToTricks(g: GameState): (h: GameState)
    ensures h.phase != Declarations
    ensures Shaped(g) && InHand(g.phase) && HandInProgress(g) ==> Shaped(h) && InHand(h.phase) && HandInProgress(h)
  {
    if g.phase == Declarations then g.(phase := TrickPlay) else g
  }

  predicate NoOneSeated(seats: seq<Option<Player>>)
  {
    forall k :: 0 <= k < |seats| ==> seats[k].None?
  }

  // ---------------------------------------------------------------------
  // Starting a game and a hand

  /** startGame: a fresh game's first deal keeps dealer 0 (the hand number
      becomes 1), starts the totals at 0 and opens the auction at seat 1. */
  lemma GameStartsFresh(deck: seq<Card>)
    requires multiset(deck) == multiset(FullDeck())
    ensures |deck| == 32
    ensures var h := AfterDeal(InitialGameState(), deck);
      Shaped(h) && HandInProgress(h) && h.phase == Bidding && h.handNo == 1 &&
      h.dealerSeat == 0 && h.totals == [0, 0] && h.turnSeat == 1 &&
      h.bidding == Some(Auction(1, None, None, 0))
  {
    DealStartsHand(InitialGameState(), deck);
  }

  /** game:next rebuilds the state around the kept totals and dealer, so
      the hand number restarts and the dealer does not move: every hand
      started this way is dealt by the game's first dealer. */
  lemma NextHandKeepsDealer(g: GameState, deck: seq<Card>)
    requires Shaped(g) && multiset(deck) == multiset(FullDeck())
    ensures |deck| == 32
    ensures var h := AfterDeal(InitialGameState().(totals := g.totals, dealerSeat := g.dealerSeat), deck);
      Shaped(h) && HandInProgress(h) && h.phase == Bidding &&
      h.dealerSeat == g.dealerSeat && h.totals == g.totals && h.handNo == 1
  {
    DealStartsHand(InitialGameState().(totals := g.totals, dealerSeat := g.dealerSeat), deck);
  }

  // ---------------------------------------------------------------------
  // Loops of playCard and scoreHand

  /** The cards a seat has played so far, read off the play log in order. */
  method CardsPlayedBy(log: seq<Play>, seat: nat) returns (played: seq<Card>)
    ensures played == CardsOf(log, seat)
  {
    played := [];
    var i := 0;
    while i < |log|
      invariant 0 <= i <= |log|
      invariant played == CardsOf(log[..i], seat)
    {
      assert log[..i + 1][..i] == log[..i];
      if log[i].seat == seat {
        played := played + [log[i].card];
      }
      i := i + 1;
    }
    assert log[..i] == log;
  }

  /** The loop of scoreHand over one team's won cards. */
  method TeamCardPoints(cards: seq<Card>, trump: Suit) returns (pts: nat)
    ensures pts == SumPoints(cards, trump)
  {
    pts := 0;
    var i := 0;
    while i < |cards|
      invariant 0 <= i <= |cards|
      invariant pts == SumPoints(cards[..i], trump)
    {
      assert cards[..i + 1][..i] == cards[..i];
      pts := pts + CardPoints(cards[i], trump);
      i := i + 1;
    }
    assert cards[..i] == cards;
  }

  /** Each team's raw score for the hand: its card points, 10 for the last
      trick, and its credited meld points. */
  method RawScores(g: GameState) returns (raw: seq<nat>)
    requires |g.tricksWon| == 2 && g.trumpSuit.Some?
    ensures raw == [TeamRaw(g.tricksWon[0], 0, g.lastTrickWinnerTeam, g.melds.team0, g.trumpSuit.value),
                    TeamRaw(g.tricksWon[1], 1, g.lastTrickWinnerTeam, g.melds.team1, g.trumpSuit.value)]
  {
    var trump := g.trumpSuit.value;
    var pts0 := TeamCardPoints(g.tricksWon[0], trump);
    var pts1 := TeamCardPoints(g.tricksWon[1], trump);
    if g.lastTrickWinnerTeam == Some(0) {
      pts0 := pts0 + 10;
    } else if g.lastTrickWinnerTeam == Some(1) {
      pts1 := pts1 + 10;
    }
    pts0 := pts0 + g.melds.team0;
    pts1 := pts1 + g.melds.team1;
    raw := [pts0, pts1];
  }

  /** The loop collecting a completed trick's cards onto the winners' pile. */
  method Collect(won: seq<Card>, plays: seq<Play>) returns (r: seq<Card>)
    ensures r == won + PlayedCards(plays)
  {
    r := won;
    var i := 0;
    while i < |plays|
      invariant 0 <= i <= |plays|
      invariant r == won + PlayedCards(plays[..i])
    {
      assert plays[..i + 1][..i] == plays[..i];
      r := r + [plays[i].card];
      i := i + 1;
    }
    assert plays[..i] == plays;
  }

  class Room {
    const id: string
    const settings: Settings
    var seats: seq<Option<Player>>
    var spectators: seq<Player>
    var state: GameState

    predicate Valid()
      reads this
    {
      ValidRoom(seats, state)
    }

    /** makeRoom: four empty seats, no spectators, a fresh game in the lobby. */
    constructor (id: string, settings: Settings)
      ensures Valid() && this.id == id && this.settings == settings
      ensures seats == [None, None, None, None] && spectators == [] && state == InitialGameState()
    {
      this.id := id;
      this.settings := settings;
      seats := [None, None, None, None];
      spectators := [];
      state := InitialGameState();
      InitialValid([None, None, None, None]);
    }

    /** joinRoom, once the room is found: a private room wants its password. */
    method Join(pid: PlayerId, name: string, password: string) returns (r: Outcome)
      requires Valid()
      modifies this
      ensures Valid() && state == old(state)
      ensures settings.isPrivate && settings.password != password ==>
        r == Failed("Wrong password.") && seats == old(seats) && spectators == old(spectators)
      ensures !(settings.isPrivate && settings.password != password) ==>
        r == Ok && (seats, spectators) == Joined(old(seats), old(spectators), pid, name)
    {
      if settings.isPrivate && settings.password != password {
        return Failed("Wrong password.");
      }
      JoinedPlaces(seats, spectators, pid, name);
      var existing := SeatIndexForPlayer(seats, pid);
      if existing != -1 {
        seats := seats[existing := Some(Player(pid, name, false))];
      } else {
        var seat := FirstEmptySeat(seats);
        if seat != -1 {
          seats := seats[seat := Some(Player(pid, name, false))];
        } else {
          spectators := spectators + [Player(pid, name, false)];
        }
      }
      r := Ok;
    }

    /** removeFromRoom: a seated player's seat is emptied (and a game under
      way reset), a spectator is dropped; the answer says whether the room
      is now empty, and so deleted. */
    method Leave(pid: PlayerId) returns (empty: bool)
      requires Valid()
      modifies this
      ensures Valid()
      ensures SeatIndexForPlayer(old(seats), pid) != -1 ==>
        seats == old(seats)[SeatIndexForPlayer(old(seats), pid) := None] &&
        spectators == old(spectators) && state == AfterLeave(old(state), pid)
      ensures SeatIndexForPlayer(old(seats), pid) == -1 ==>
        seats == old(seats) && spectators == WithoutSpectator(old(spectators), pid) && state == old(state)
      ensures empty <==> NoOneSeated(seats) && spectators == []
    {
      var idx := SeatIndexForPlayer(seats, pid);
      if idx != -1 {
        LeaveValid(seats, state, idx, pid);
        seats := seats[idx := None];
        state := AfterLeave(state, pid);
      } else {
        spectators := WithoutSpectator(spectators, pid);
      }
      empty := NoOneSeated(seats) && spectators == [];
    }

    /** markDisconnected: the seat is kept, marked disconnected, for the
      grace period. */
    method MarkDisconnected(pid: PlayerId)
      requires Valid()
      modifies this
      ensures Valid() && state == old(state) && spectators == old(spectators)
      ensures var i := SeatIndexForPlayer(old(seats), pid);
        (i == -1 ==> seats == old(seats)) &&
        (i != -1 ==> seats == old(seats)[i := Some(old(seats)[i].value.(disconnected := true))])
    {
      var idx := SeatIndexForPlayer(seats, pid);
      if idx == -1 {
        return;
      }
      seats := seats[idx := Some(seats[idx].value.(disconnected := true))];
      assert DistinctSeats(seats) by {
        forall a, b | 0 <= a < b < 4 && seats[a].Some? && seats[b].Some?
          ensures seats[a].value.id != seats[b].value.id
        {
          assert seats[a].value.id == old(seats)[a].value.id;
          assert seats[b].value.id == old(seats)[b].value.id;
        }
      }
    }

    /** The close of a connection: a seated player is marked disconnected, a
      spectator is dropped. */
    method Disconnect(pid: PlayerId)
      requires Valid()
      modifies this
      ensures Valid() && state == old(state)
      ensures SeatIndexForPlayer(old(seats), pid) == -1 ==>
        seats == old(seats) && spectators == WithoutSpectator(old(spectators), pid)
      ensures var i := SeatIndexForPlayer(old(seats), pid);
        i != -1 ==>
          seats == old(seats)[i := Some(old(seats)[i].value.(disconnected := true))] &&
          spectators == old(spectators)
    {
      if SeatIndexForPlayer(seats, pid) != -1 {
        MarkDisconnected(pid);
      } else {
        spectators := WithoutSpectator(spectators, pid);
      }
    }

    /** The purge at the end of the grace period: a player still seated and
      still disconnected loses the seat (and a game under way is reset); the
      answer says whether the room is now empty, and so deleted. */
    method GraceExpired(pid: PlayerId) returns (empty: bool)
      requires Valid()
      modifies this
      ensures Valid() && spectators == old(spectators)
      ensures var i := SeatIndexForPlayer(old(seats), pid);
        if i != -1 && old(seats)[i].value.disconnected then
          seats == old(seats)[i := None] && state == AfterLeave(old(state), pid) &&
          (empty <==> NoOneSeated(seats) && spectators == [])
        else
          seats == old(seats) && state == old(state) && !empty
    {
      var i := SeatIndexForPlayer(seats, pid);
      if i != -1 && seats[i].value.disconnected {
        LeaveValid(seats, state, i, pid);
        seats := seats[i := None];
        state := AfterLeave(state, pid);
        empty := NoOneSeated(seats) && spectators == [];
      } else {
        empty := false;
      }
    }

    /** startHand with the shuffled deck: the 32 cards are dealt one at a
      time, card i to seat i % 4, and the auction opens. */
    method StartHand(deck: seq<Card>)
      requires |deck| == 32
      modifies this
      ensures state == AfterDeal(old(state), deck)
      ensures seats == old(seats) && spectators == old(spectators)
    {
      var g := state;
      var handNo := g.handNo + 1;
      var dealer := if handNo == 1 then g.dealerSeat else NextSeat(g.dealerSeat);
      var hands: seq<seq<Card>> := [[], [], [], []];
      var i := 0;
      while i < 32
        invariant 0 <= i <= 32 && |hands| == 4
        invariant forall k :: 0 <= k < 4 ==> hands[k] == Dealt(deck, i, k)
      {
        var seat := i % 4;
        hands := hands[seat := hands[seat] + [deck[i]]];
        i := i + 1;
      }
      assert hands == DealtHands(deck);
      var first := NextSeat(dealer);
      state := g.(phase := Bidding, handNo := handNo, dealerSeat := dealer, hands := hands,
                  tricksWon := [[], []], tricksCount := [0, 0], lastTrickWinnerTeam := None,
                  trumpSuit := None, contract := None, declarerTeam := None, contra := 1, melds := NoMelds,
                  playedLog := [], bidding := Some(Auction(first, None, None, 0)), turnSeat := first);
    }

    /** room:ready: a seated player marks itself ready or not; once all four
      seated players are ready, a new game starts (startGame) with the
      shuffled deck. The ready marks are not tied to the phase. */
    method SetReady(pid: PlayerId, ready: bool, deck: seq<Card>) returns (r: Outcome)
      requires Valid() && |deck| == 32 && multiset(deck) == multiset(FullDeck())
      modifies this
      ensures Valid() && seats == old(seats) && spectators == old(spectators)
      ensures SeatIndexForPlayer(seats, pid) == -1 ==> r == Failed("Spectators can't ready.") && state == old(state)
      ensures SeatIndexForPlayer(seats, pid) != -1 ==>
        var marks := if ready then old(state).ready + {pid} else old(state).ready - {pid};
        r == Ok &&
        state == if CanStart(seats, marks) then AfterDeal(InitialGameState(), deck) else old(state).(ready := marks)
    {
      if SeatIndexForPlayer(seats, pid) == -1 {
        return Failed("Spectators can't ready.");
      }
      var marks := if ready then state.ready + {pid} else state.ready - {pid};
      state := state.(ready := marks);
      if CanStart(seats, marks) {
        GameStartsFresh(deck);
        StartGame(deck);
      }
      r := Ok;
    }

    /** startGame: a fresh game state (totals 0, dealer 0, nobody ready),
      then the first hand. */
    method StartGame(deck: seq<Card>)
      requires |deck| == 32
      modifies this
      ensures state == AfterDeal(InitialGameState(), deck)
      ensures seats == old(seats) && spectators == old(spectators)
    {
      state := InitialGameState();
      StartHand(deck);
    }

    /** game:next: from the lobby with four seated players, a new hand with
      the totals and the dealer kept. */
    method NextHand(deck: seq<Card>) returns (r: Outcome)
      requires Valid() && |deck| == 32 && multiset(deck) == multiset(FullDeck())
      modifies this
      ensures Valid() && seats == old(seats) && spectators == old(spectators)
      ensures old(state).phase != Lobby ==> r == Failed("Not ready for next hand.") && state == old(state)
      ensures old(state).phase == Lobby && !SeatsFull(seats) ==> r == Failed("Need 4 players.") && state == old(state)
      ensures old(state).phase == Lobby && SeatsFull(seats) ==>
        r == Ok && state == AfterDeal(InitialGameState().(totals := old(state).totals, dealerSeat := old(state).dealerSeat), deck)
    {
      if state.phase != Lobby {
        return Failed("Not ready for next hand.");
      }
      if !SeatsFull(seats) {
        return Failed("Need 4 players.");
      }
      NextHandKeepsDealer(state, deck);
      var totals := state.totals;
      var dealer := state.dealerSeat;
      state := InitialGameState().(totals := totals, dealerSeat := dealer);
      StartHand(deck);
      r := Ok;
    }

    // -------------------------------------------------------------------
    // The auction

    /** endBidding with a highest bid: the contract, trump and declarers,
      the melds (computeMelds), and the first trick led left of the dealer. */
    method CloseBidding()
      requires |state.hands| == 4 && state.bidding.Some? && state.bidding.value.highestBid.Some?
      requires state.bidding.value.highestBidderSeat.Some?
      modifies this
      ensures state == CloseAuction(old(state), MeldsFor(old(state).hands, old(state).bidding.value.highestBid.value.suit))
      ensures seats == old(seats) && spectators == old(spectators)
    {
      var hb := state.bidding.value.highestBid.value;
      var m := ComputeMelds(state.hands, hb.suit);
      var lead := NextSeat(state.dealerSeat);
      state := state.(contract := Some(hb), trumpSuit := Some(hb.suit),
                      declarerTeam := Some(TeamOfSeat(state.bidding.value.highestBidderSeat.value)),
                      melds := MeldState(m.team0, m.team1, m.holders, {}),
                      phase := Declarations, trick := Some(Trick(lead, [])), turnSeat := lead);
    }

    /** endBidding: a redeal when nobody bid, the close of the auction
      otherwise. */
    method EndBidding(deck: seq<Card>)
      requires |deck| == 32 && |state.hands| == 4 && state.bidding.Some?
      requires state.bidding.value.highestBid.Some? ==> state.bidding.value.highestBidderSeat.Some?
      modifies this
      ensures state == AuctionEnd(old(state), deck)
      ensures seats == old(seats) && spectators == old(spectators)
    {
      if state.bidding.value.highestBid.None? {
        StartHand(deck);
      } else {
        CloseBidding();
      }
    }

    /** handleBid for the player at seat (-1 when not seated). */
    method HandleBid(seat: int, msg: BidMsg) returns (r: Outcome)
      requires Valid()
      modifies this
      ensures Valid() && seats == old(seats) && spectators == old(spectators)
      ensures old(state).phase != Bidding ==> r == Failed("Not in bidding.") && state == old(state)
      ensures old(state).phase == Bidding && seat != old(state).bidding.value.turnSeat ==>
        r == Failed("Not your turn.") && state == old(state)
      ensures old(state).phase == Bidding && seat == old(state).bidding.value.turnSeat ==>
        match CheckBid(old(state).bidding.value.highestBid, msg)
        case Rejected(e) => r == Failed(e) && state == old(state)
        case Accepted(b) => r == Ok && state == AfterBid(old(state), seat, b)
    {
      if state.phase != Bidding {
        return Failed("Not in bidding.");
      }
      if seat != state.bidding.value.turnSeat {
        return Failed("Not your turn.");
      }
      match CheckBid(state.bidding.value.highestBid, msg)
      case Rejected(e) =>
        r := Failed(e);
      case Accepted(b) =>
        BidKeeps(state, seat, b);
        var a := state.bidding.value;
        state := state.(bidding := Some(a.(highestBid := Some(b), highestBidderSeat := Some(seat as nat),
                                           passesInRow := 0, turnSeat := NextSeat(seat))),
                        turnSeat := NextSeat(seat));
        r := Ok;
    }

    /** handlePass for the player at seat: the auction ends (endBidding) on
      the fourth pass with no bid or the third after a bid. */
    method HandlePass(seat: int, deck: seq<Card>) returns (r: Outcome)
      requires Valid() && |deck| == 32 && multiset(deck) == multiset(FullDeck())
      modifies this
      ensures Valid() && seats == old(seats) && spectators == old(spectators)
      ensures old(state).phase != Bidding ==> r == Failed("Not in bidding.") && state == old(state)
      ensures old(state).phase == Bidding && seat != old(state).bidding.value.turnSeat ==>
        r == Failed("Not your turn.") && state == old(state)
      ensures old(state).phase == Bidding && seat == old(state).bidding.value.turnSeat ==>
        r == Ok && state == PassResult(old(state), seat, deck)
    {
      if state.phase != Bidding {
        return Failed("Not in bidding.");
      }
      if seat != state.bidding.value.turnSeat {
        return Failed("Not your turn.");
      }
      PassStep(seats, state, seat, deck);
      ApplyPass(seat, deck);
      r := Ok;
    }

    /** The pass is counted and the turn moves on; the auction ends
      (endBidding) on the fourth pass with no bid or the third after a bid. */
    method ApplyPass(seat: nat, deck: seq<Card>)
      requires |deck| == 32 && |state.hands| == 4 && state.bidding.Some?
      requires state.bidding.value.highestBid.Some? ==> state.bidding.value.highestBidderSeat.Some?
      modifies this
      ensures state == PassResult(old(state), seat, deck)
      ensures seats == old(seats) && spectators == old(spectators)
    {
      var a := state.bidding.value;
      state := state.(bidding := Some(a.(passesInRow := a.passesInRow + 1, turnSeat := NextSeat(seat))),
                      turnSeat := NextSeat(seat));
      if AuctionOver(state.bidding.value) {
        EndBidding(deck);
      }
    }

    /** game:pass: handlePass for the sender's seat, then straight on to the
      trick phase when the auction closed on a contract. */
    method PassMessage(pid: PlayerId, deck: seq<Card>) returns (r: Outcome)
      requires Valid() && |deck| == 32 && multiset(deck) == multiset(FullDeck())
      modifies this
      ensures Valid() && seats == old(seats) && spectators == old(spectators)
      ensures var seat := SeatIndexForPlayer(seats, pid);
        (old(state).phase != Bidding ==> r == Failed("Not in bidding.") && state == old(state)) &&
        (old(state).phase == Bidding && seat != old(state).bidding.value.turnSeat ==>
          r == Failed("Not your turn.") && state == old(state)) &&
        (old(state).phase == Bidding && seat == old(state).bidding.value.turnSeat ==>
          r == Ok && state == ToTricks(PassResult(old(state), seat, deck)))
      ensures r.Ok? ==> state.phase != Declarations
    {
      var seat := SeatIndexForPlayer(seats, pid);
      r := HandlePass(seat, deck);
      if r.Ok? {
        EnterTricks();
      }
    }

    /** handleContra for the player at seat: doubles and closes the auction
      at once. */
    method HandleContra(seat: int) returns (r: Outcome)
      requires Valid()
      modifies this
      ensures Valid() && seats == old(seats) && spectators == old(spectators)
      ensures CheckContra(old(state), seat).Some? ==>
        r == Failed(CheckContra(old(state), seat).value) && state == old(state)
      ensures CheckContra(old(state), seat).None? ==>
        r == Ok && old(state).phase == Bidding && state == ContraResult(old(state)) &&
        state.phase == Declarations && state.contra == 2
    {
      var err := CheckContra(state, seat);
      if err.Some? {
        return Failed(err.value);
      }
      ContraStep(seats, state, seat);
      ApplyContra();
      r := Ok;
    }

    /** The contra stands: the multiplier is 2 and the auction closes. */
    method ApplyContra()
      requires |state.hands| == 4 && state.bidding.Some? && state.bidding.value.highestBid.Some?
      requires state.bidding.value.highestBidderSeat.Some?
      modifies this
      ensures state == ContraResult(old(state))
      ensures seats == old(seats) && spectators == old(spectators)
    {
      state := state.(contra := 2);
      CloseBidding();
    }

    /** game:contra: handleContra for the sender's seat, then straight on to
      the trick phase. */
    method ContraMessage(pid: PlayerId) returns (r: Outcome)
      requires Valid()
      modifies this
      ensures Valid() && seats == old(seats) && spectators == old(spectators)
      ensures var seat := SeatIndexForPlayer(seats, pid);
        (CheckContra(old(state), seat).Some? ==>
          r == Failed(CheckContra(old(state), seat).value) && state == old(state)) &&
        (CheckContra(old(state), seat).None? ==> r == Ok && state == ToTricks(ContraResult(old(state))))
      ensures r.Ok? ==> state.phase != Declarations
    {
      var seat := SeatIndexForPlayer(seats, pid);
      r := HandleContra(seat);
      if r.Ok? {
        EnterTricks();
      }
    }

    /** The dispatcher moves a hand out of the declarations into the trick
      phase. */
    method EnterTricks()
      requires Valid()
      modifies this
      ensures Valid() && state == ToTricks(old(state))
      ensures seats == old(seats) && spectators == old(spectators)
    {
      ToTricksValid(seats, state);
      if state.phase == Declarations {
        state := state.(phase := TrickPlay);
      }
    }

    /** handleRecontra for the player at seat: the multiplier goes to 4. */
    method HandleRecontra(seat: int) returns (r: Outcome)
      requires Valid()
      modifies this
      ensures Valid() && seats == old(seats) && spectators == old(spectators)
      ensures CheckRecontra(old(state), seat).Some? ==>
        r == Failed(CheckRecontra(old(state), seat).value) && state == old(state)
      ensures CheckRecontra(old(state), seat).None? ==> r == Ok && state == old(state).(contra := 4)
    {
      var err := CheckRecontra(state, seat);
      if err.Some? {
        return Failed(err.value);
      }
      RecontraAllowed(state, seat);
      RecontraKeeps(state);
      state := state.(contra := 4);
      r := Ok;
    }

    // -------------------------------------------------------------------
    // Trick play

    /** playCard for the player at seat (-1 when not seated): the checks,
      then the card leaves the hand for the trick, belote is credited, and
      a fourth card completes the trick, which the winner takes; after the
      last trick the hand is scored, otherwise the winner leads next. */
    method PlayCard(seat: int, cardId: string) returns (r: PlayOutcome)
      requires Valid()
      modifies this
      ensures Valid() && seats == old(seats) && spectators == old(spectators)
      ensures CheckPlay(old(state), seat, cardId).Rejected? ==>
        r == PlayFailed(CheckPlay(old(state), seat, cardId).error) && state == old(state)
      ensures CheckPlay(old(state), seat, cardId).Accepted? ==>
        var c := CheckPlay(old(state), seat, cardId).value;
        var n := |old(state).trick.value.plays|;
        seat >= 0 && state == PlaySpec(old(state), seat, c, settings.targetScore) &&
        (n < 3 ==> r == Played) &&
        (n == 3 && state.phase == TrickPlay ==> r == TrickComplete(state.turnSeat)) &&
        (n == 3 && state.phase != TrickPlay ==> r == HandEnded)
    {
      var g := state;
      if g.phase != TrickPlay {
        return PlayFailed("Not in trick phase.");
      }
      if seat != g.turnSeat {
        return PlayFailed("Not your turn.");
      }
      var hand := g.hands[seat];
      var parsed := ParseCard(cardId);
      if parsed.None? || parsed.value !in hand {
        return PlayFailed("You don't have that card.");
      }
      var c := parsed.value;
      if c !in LegalPlays(hand, g.trick.value.plays, g.trumpSuit.value, seat) {
        return PlayFailed("Illegal play (follow suit / trump / overtrump rules).");
      }
      r := ApplyPlay(seat, c);
    }

    /** A play that passed the checks: the card leaves the hand for the
      trick and belote is credited; a fourth card completes the trick,
      otherwise the turn passes on. */
    method ApplyPlay(seat: nat, c: Card) returns (r: PlayOutcome)
      requires Valid() && state.phase == TrickPlay && seat == state.turnSeat && c in state.hands[seat]
      modifies this
      ensures Valid() && seats == old(seats) && spectators == old(spectators)
      ensures state == PlaySpec(old(state), seat, c, settings.targetScore)
      ensures |old(state).trick.value.plays| < 3 ==> r == Played
      ensures |old(state).trick.value.plays| == 3 && state.phase == TrickPlay ==> r == TrickComplete(state.turnSeat)
      ensures |old(state).trick.value.plays| == 3 && state.phase != TrickPlay ==> r == HandEnded
    {
      PlayStep(seats, state, seat, c, settings.targetScore);
      r := LayCard(seat, c);
    }

    /** The card goes down; a fourth card completes the trick, otherwise the
      turn passes to the next seat. */
    method LayCard(seat: nat, c: Card) returns (r: PlayOutcome)
      requires Shaped(state) && seat < 4 && state.trick.Some? && state.trumpSuit.Some?
      requires state.declarerTeam.Some? && state.contract.Some? && |state.trick.value.plays| < 4
      requires var p := AfterPlay(state, seat, c);
        |p.hands| == 4 && |p.tricksWon| == 2 && |p.tricksCount| == 2 && |p.totals| == 2 &&
        p.trick.Some? && |p.trick.value.plays| == |state.trick.value.plays| + 1 && p.trumpSuit.Some? &&
        p.declarerTeam.Some? && p.declarerTeam.value < 2 && p.contract.Some? && p.phase == TrickPlay &&
        (forall k :: 0 <= k < |p.trick.value.plays| ==> p.trick.value.plays[k].seat >= 0)
      modifies this
      ensures seats == old(seats) && spectators == old(spectators)
      ensures state == PlaySpec(old(state), seat, c, settings.targetScore)
      ensures |old(state).trick.value.plays| < 3 ==> r == Played
      ensures |old(state).trick.value.plays| == 3 && state.phase == TrickPlay ==> r == TrickComplete(state.turnSeat)
      ensures |old(state).trick.value.plays| == 3 && state.phase != TrickPlay ==> r == HandEnded
    {
      PutDown(seat, c);
      if |state.trick.value.plays| == 4 {
        r := FinishTrick();
      } else {
        state := state.(turnSeat := NextSeat(seat));
        r := Played;
      }
    }

    /** The card leaves the hand for the trick and the play log; belote is
      credited when the holder plays the second of the trump king and queen. */
    method PutDown(seat: nat, c: Card)
      requires |state.hands| == 4 && seat < 4 && state.trick.Some? && state.trumpSuit.Some?
      modifies this
      ensures state == AfterPlay(old(state), seat, c)
      ensures seats == old(seats) && spectators == old(spectators)
    {
      var melds := CheckBelote(state.melds, state.playedLog, seat, c, state.trumpSuit.value);
      var trick := state.trick.value.(plays := state.trick.value.plays + [Play(seat, c)]);
      state := state.(hands := state.hands[seat := Without(state.hands[seat], c)], trick := Some(trick),
                      melds := melds, playedLog := state.playedLog + [Play(seat, c)]);
    }

    /** The belote check of a play: a holder playing the trump king or queen
      is paid 20 for the team once both have been played, and only once. */
    method CheckBelote(m: MeldState, log: seq<Play>, seat: nat, c: Card, trump: Suit) returns (melds: MeldState)
      ensures melds == BeloteAfter(m, log, seat, c, trump)
    {
      melds := m;
      if seat in m.beloteHolders && c.suit == trump && (c.rank == King || c.rank == Queen) {
        var played := CardsPlayedBy(log, seat);
        played := played + [c];
        if Card(trump, King) in played && Card(trump, Queen) in played && seat !in m.beloteAwarded {
          var team := TeamOfSeat(seat);
          melds := m.(beloteAwarded := m.beloteAwarded + {seat},
                      team0 := m.team0 + (if team == 0 then 20 else 0),
                      team1 := m.team1 + (if team == 1 then 20 else 0));
        }
      }
    }

    /** The fourth card is down: the winner's team counts the trick and
      takes its cards; the hand is scored when no card is left, otherwise
      the winner leads the next trick. */
    method FinishTrick() returns (r: PlayOutcome)
      requires |state.hands| == 4 && |state.tricksWon| == 2 && |state.tricksCount| == 2 && |state.totals| == 2
      requires state.trick.Some? && state.trick.value.plays != [] && state.trumpSuit.Some?
      requires state.declarerTeam.Some? && state.declarerTeam.value < 2 && state.contract.Some?
      requires forall k :: 0 <= k < |state.trick.value.plays| ==> state.trick.value.plays[k].seat >= 0
      requires state.phase == TrickPlay
      modifies this
      ensures state == AfterTrick(old(state), settings.targetScore)
      ensures state.phase == TrickPlay ==> r == TrickComplete(state.turnSeat)
      ensures state.phase != TrickPlay ==> r == HandEnded
      ensures seats == old(seats) && spectators == old(spectators)
    {
      var leader := TakeCurrentTrick();
      var remaining := |state.hands[0]| + |state.hands[1]| + |state.hands[2]| + |state.hands[3]|;
      if remaining == 0 {
        ghost var t := state;
        state := state.(phase := Scoring);
        ScoreHand();
        assert state == Settle(t, settings.targetScore);
        r := HandEnded;
      } else {
        state := state.(trick := Some(Trick(leader, [])), turnSeat := leader);
        r := TrickComplete(leader);
      }
    }

    /** The winner of the full trick is found, and the winner's team counts
      the trick and takes its cards and the last-trick mark. */
    method TakeCurrentTrick() returns (leader: nat)
      requires |state.tricksWon| == 2 && |state.tricksCount| == 2
      requires state.trick.Some? && state.trick.value.plays != [] && state.trumpSuit.Some?
      requires forall k :: 0 <= k < |state.trick.value.plays| ==> state.trick.value.plays[k].seat >= 0
      modifies this
      ensures state == TakeTrick(old(state))
      ensures leader == TrickWinner(old(state).trick.value.plays, old(state).trumpSuit.value).seat
      ensures seats == old(seats) && spectators == old(spectators)
    {
      var trump := state.trumpSuit.value;
      var trick := state.trick.value;
      var w := CurrentTrickWinner(trick, trump);
      var winner := w.value;
      var team := TeamOfSeat(winner.seat);
      var won := Collect(state.tricksWon[team], trick.plays);
      state := state.(tricksCount := state.tricksCount[team := state.tricksCount[team] + 1],
                      lastTrickWinnerTeam := Some(team), tricksWon := state.tricksWon[team := won]);
      leader := winner.seat as nat;
    }

    /** scoreHand: each team's card points (a loop over its won cards), the
      10 for the last trick, the melds, the contract test, the award times
      contra added to the totals, and the end-of-game test against the
      room's target score. */
    method ScoreHand()
      requires |state.tricksWon| == 2 && |state.tricksCount| == 2 && |state.totals| == 2
      requires state.trumpSuit.Some? && state.declarerTeam.Some? && state.declarerTeam.value < 2 && state.contract.Some?
      modifies this
      ensures state == Settle(old(state), settings.targetScore)
      ensures seats == old(seats) && spectators == old(spectators)
    {
      var g := state;
      var raw := RawScores(g);
      var pts0, pts1 := raw[0], raw[1];
      var decl := g.declarerTeam.value;
      var made := if g.contract.value.Capot? then g.tricksCount[decl] == 8 else raw[decl] >= g.contract.value.value;
      var awarded: seq<nat> := raw;
      if !made {
        awarded := if decl == 0 then [0, pts0 + pts1] else [pts0 + pts1, 0];
      }
      awarded := [awarded[0] * g.contra, awarded[1] * g.contra];
      var totals := [g.totals[0] + awarded[0], g.totals[1] + awarded[1]];
      if totals[0] >= settings.targetScore || totals[1] >= settings.targetScore {
        state := g.(totals := totals, phase := Finished);
      } else {
        state := g.(totals := totals, phase := Lobby, ready := {});
      }
    }
  }
}

// The table of rooms by id: room:create, room:join, room:leave and the
// purge at the end of a grace period, which deletes a room left empty.
module Lobby {
  import opened Cards
  import opened State
  import opened Rules
  import opened Rooms

  class Registry {
    var rooms: map<string, Room>

    /** Every room keeps its invariant, and each id has a room of its own
      (makeRoom builds a fresh object for every room:create). */
    predicate Valid()
      reads this, rooms.Values
    {
      (forall r :: r in rooms.Values ==> r.Valid()) &&
      (forall a, b :: a in rooms && b in rooms && a != b ==> rooms[a] != rooms[b])
    }

    constructor ()
      ensures Valid() && rooms == map[]
    {
      rooms := map[];
    }

    /** room:create: a new room under the generated id, in the lobby. */
    method Create(id: string, settings: Settings) returns (room: Room)
      requires Valid()
      modifies this
      ensures Valid() && fresh(room) && rooms == old(rooms)[id := room]
      ensures room.id == id && room.settings == settings
      ensures room.seats == [None, None, None, None] && room.spectators == [] && room.state == InitialGameState()
      ensures forall k :: k in old(rooms) ==> unchanged(old(rooms)[k])
    {
      room := new Room(id, settings);
      rooms := rooms[id := room];
    }

    /** room:join: the id is upper-cased; an unknown room is an error. */
    method Join(roomId: string, pid: PlayerId, name: string, password: string) returns (r: Outcome)
      requires Valid()
      modifies rooms.Values
      ensures Valid() && rooms == old(rooms)
      ensures AsciiUpper(roomId) !in rooms ==>
        r == Failed("Room not found.") && forall k :: k in old(rooms) ==> unchanged(old(rooms)[k])
      ensures AsciiUpper(roomId) in rooms ==>
        var room := rooms[AsciiUpper(roomId)];
        var pass := !(room.settings.isPrivate && room.settings.password != password);
        room.state == old(room.state) &&
        (pass ==> r == Ok && (room.seats, room.spectators) == Joined(old(room.seats), old(room.spectators), pid, name)) &&
        (!pass ==> r == Failed("Wrong password.") &&
                   room.seats == old(room.seats) && room.spectators == old(room.spectators))
      ensures forall k :: k in old(rooms) && k != AsciiUpper(roomId) ==> unchanged(old(rooms)[k])
    {
      var key := AsciiUpper(roomId);
      if key !in rooms {
        return Failed("Room not found.");
      }
      r := rooms[key].Join(pid, name, password);
    }

    /** room:leave: the player leaves the room, which is deleted once no
      one is seated or watching. */
    method Leave(roomId: string, pid: PlayerId)
      requires Valid()
      modifies this, rooms.Values
      ensures Valid()
      ensures roomId !in old(rooms) ==> rooms == old(rooms) && forall k :: k in old(rooms) ==> unchanged(old(rooms)[k])
      ensures roomId in old(rooms) ==>
        var room := old(rooms)[roomId];
        var i := SeatIndexForPlayer(old(room.seats), pid);
        (i != -1 ==>
          room.seats == old(room.seats)[i := None] && room.spectators == old(room.spectators) &&
          room.state == AfterLeave(old(room.state), pid)) &&
        (i == -1 ==>
          room.seats == old(room.seats) && room.spectators == WithoutSpectator(old(room.spectators), pid) &&
          room.state == old(room.state)) &&
        (NoOneSeated(room.seats) && room.spectators == [] ==> rooms == old(rooms) - {roomId}) &&
        (!(NoOneSeated(room.seats) && room.spectators == []) ==> rooms == old(rooms))
      ensures forall k :: k in old(rooms) && k != roomId ==> unchanged(old(rooms)[k])
    {
      if roomId !in rooms {
        return;
      }
      var empty := rooms[roomId].Leave(pid);
      if empty {
        rooms := rooms - {roomId};
      }
    }

    /** The purge timer firing for a player of a room: a still-disconnected
      player loses the seat, and a room left empty by that is deleted. */
    method Purge(roomId: string, pid: PlayerId)
      requires Valid()
      modifies this, rooms.Values
      ensures Valid()
      ensures roomId !in old(rooms) ==> rooms == old(rooms) && forall k :: k in old(rooms) ==> unchanged(old(rooms)[k])
      ensures roomId in old(rooms) ==>
        var room := old(rooms)[roomId];
        var i := SeatIndexForPlayer(old(room.seats), pid);
        var removed := i != -1 && old(room.seats)[i].value.disconnected;
        room.spectators == old(room.spectators) &&
        (removed ==> room.seats == old(room.seats)[i := None] && room.state == AfterLeave(old(room.state), pid)) &&
        (!removed ==> room.seats == old(room.seats) && room.state == old(room.state)) &&
        (removed && NoOneSeated(room.seats) && room.spectators == [] ==> rooms == old(rooms) - {roomId}) &&
        (!(removed && NoOneSeated(room.seats) && room.spectators == []) ==> rooms == old(rooms))
      ensures forall k :: k in old(rooms) && k != roomId ==> unchanged(old(rooms)[k])
    {
      if roomId !in rooms {
        return;
      }
      var empty := rooms[roomId].GraceExpired(pid);
      if empty {
        rooms := rooms - {roomId};
      }
    }
  }
}
