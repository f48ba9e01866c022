// What each step of a hand does to the game state, as functions of the
// state before it: the deal (startHand), the close of the auction
// (endBidding), a play (playCard), taking a trick and settling the hand
// (scoreHand). The Room methods are proved to produce exactly these states;
// the lemmas here prove what the steps keep.

module Rules {
  import opened Cards
  import opened Tricks
  import opened Melds
  import opened Settlement
  import opened State

  // ---------------------------------------------------------------------
  // startHand

  /** The state after startHand with the shuffled deck: the hand number
      advances, the dealer moves on except for hand number 1, each seat is
      dealt from the deck, the hand's bookkeeping is cleared and the
      auction opens left of the dealer. */
  function AfterDeal(g: GameState, deck: seq<Card>): GameState
    requires |deck| == 32
  {
    var handNo := g.handNo + 1;
    var dealer := if handNo == 1 then g.dealerSeat else NextSeat(g.dealerSeat);
    var first := NextSeat(dealer);
    g.(phase := Bidding, handNo := handNo, dealerSeat := dealer, hands := DealtHands(deck),
       tricksWon := [[], []], tricksCount := [0, 0], lastTrickWinnerTeam := None,
       trumpSuit := None, contract := None, declarerTeam := None, contra := 1, melds := NoMelds,
       playedLog := [], bidding := Some(Auction(first, None, None, 0)), turnSeat := first)
  }

  lemma DeckSize(deck: seq<Card>)
    requires multiset(deck) == multiset(FullDeck())
    ensures |deck| == 32
  {
    assert |multiset(deck)| == |deck|;
    assert |multiset(FullDeck())| == |FullDeck()|;
  }

  /** A deal from a shuffled full deck: 8 cards to each seat and the 32
      cards all in the hands; bidding opens left of the dealer with no bid,
      no passes and no contra; the running totals are kept; the dealer
      rotates on every hand but the first. */
  lemma DealStartsHand(g: GameState, deck: seq<Card>)
    requires Shaped(g) && g.trick.None? && multiset(deck) == multiset(FullDeck())
    ensures |deck| == 32
    ensures var h := AfterDeal(g, deck);
      Shaped(h) && h.phase == Bidding && HandInProgress(h) &&
      (forall s :: 0 <= s < 4 ==> |h.hands[s]| == 8) &&
      Pool(h.hands) == multiset(FullDeck()) &&
      h.bidding == Some(Auction(NextSeat(h.dealerSeat), None, None, 0)) && h.contra == 1 &&
      h.totals == g.totals &&
      (g.handNo == 0 ==> h.dealerSeat == g.dealerSeat) &&
      (g.handNo >= 1 ==> h.dealerSeat == NextSeat(g.dealerSeat))
  {
    DeckSize(deck);
    DealPartitions(deck);
  }

  // ---------------------------------------------------------------------
  // handleBid, handlePass, handleContra, handleRecontra

  /** String.prototype.toUpperCase on ASCII letters. */
  function AsciiUpper(s: string): (r: string)
    ensures |r| == |s|
    ensures forall i :: 0 <= i < |s| ==> r[i] == if 'a' <= s[i] <= 'z' then (s[i] as int - 32) as char else s[i]
  {
    if s == [] then []
    else [if 'a' <= s[0] <= 'z' then (s[0] as int - 32) as char else s[0]] + AsciiUpper(s[1..])
  }

  /** A bid message: its type, its suit text and its amount (None when
      Number(bid) is not finite). */
  datatype BidMsg = BidMsg(kind: string, suit: string, amount: Option<int>)

  /** A handler's verdict on a request: the accepted value or the error text. */
  datatype Checked<T> = Accepted(value: T) | Rejected(error: string)

  /** The checks handleBid makes once it is the bidder's turn, in order. */
  function CheckBid(current: Option<Bid>, msg: BidMsg): Checked<Bid>
  {
    var suit := ParseSuit(AsciiUpper(msg.suit));
    if suit.None? then Rejected("Bad suit.")
    else if msg.kind == "capot" then Accepted(Capot(suit.value))
    else if msg.amount.None? then Rejected("Bad bid.")
    else
      var bid := msg.amount.value;
      if bid % 10 != 0 || bid < 80 || bid > 160 then Rejected("Bid must be 80..160 in tens.")
      else if current.Some? && current.value.Capot? then Rejected("Can't overcall a capot with points.")
      else if current.Some? && bid <= current.value.value then Rejected("Bid must be higher than current.")
      else Accepted(Points(bid, suit.value))
  }

  /** A points bid between 80 and 160 in tens. */
  predicate WellFormedBid(b: Bid)
  {
    b.Points? ==> 80 <= b.value <= 160 && b.value % 10 == 0
  }

  /** A bid is accepted exactly when its suit names a suit and it is a capot,
      or a points bid of 80..160 in tens over a current points bid (or none);
      an accepted bid names the message's suit. A capot is accepted over
      anything, a capot included. */
  lemma CheckBidAccepts(current: Option<Bid>, msg: BidMsg)
    ensures var r := CheckBid(current, msg);
      var suit := ParseSuit(AsciiUpper(msg.suit));
      (r.Accepted? <==>
        suit.Some? &&
        (msg.kind == "capot" ||
         (msg.amount.Some? && 80 <= msg.amount.value <= 160 && msg.amount.value % 10 == 0 &&
          (current.None? || (current.value.Points? && msg.amount.value > current.value.value))))) &&
      (r.Accepted? ==>
        r.value.suit == suit.value && WellFormedBid(r.value) &&
        (r.value.Capot? <==> msg.kind == "capot") &&
        (r.value.Points? ==> r.value.value == msg.amount.value))
  {
  }

  /** Every accepted bid outranks the current one: a capot, or more points
      than a points bid; nothing but a capot follows a capot. */
  lemma BidRaises(current: Option<Bid>, msg: BidMsg)
    requires CheckBid(current, msg).Accepted?
    ensures var b := CheckBid(current, msg).value;
      (current.Some? && current.value.Capot? ==> b.Capot?) &&
      (current.Some? && current.value.Points? && b.Points? ==> b.value > current.value.value)
  {
  }

  /** The state after an accepted bid: it becomes the highest, its bidder
      the highest bidder, the passes restart and the turn moves on. */
  function AfterBid(g: GameState, seat: nat, b: Bid): GameState
    requires g.bidding.Some?
  {
    var a := g.bidding.value;
    g.(bidding := Some(a.(highestBid := Some(b), highestBidderSeat := Some(seat), passesInRow := 0,
                          turnSeat := NextSeat(seat))),
       turnSeat := NextSeat(seat))
  }

  /** The state after a pass: one more pass in a row and the turn moves on. */
  function AfterPass(g: GameState, seat: nat): GameState
    requires g.bidding.Some?
  {
    var a := g.bidding.value;
    g.(bidding := Some(a.(passesInRow := a.passesInRow + 1, turnSeat := NextSeat(seat))),
       turnSeat := NextSeat(seat))
  }

  /** A bid keeps the hand in the auction, with the bid and its bidder on
      record and the cards untouched. */
  lemma BidKeeps(g: GameState, seat: nat, b: Bid)
    requires Shaped(g) && HandInProgress(g) && g.phase == Bidding && seat == g.turnSeat
    ensures var h := AfterBid(g, seat, b);
      Shaped(h) && HandInProgress(h) && h.hands == g.hands &&
      h.bidding.value.highestBid == Some(b) && h.bidding.value.highestBidderSeat == Some(seat) &&
      !AuctionOver(h.bidding.value)
  {
  }

  /** A pass ends the auction exactly on the fourth pass with no bid or the
      third pass after a bid; otherwise the auction goes on. */
  lemma PassKeeps(g: GameState, seat: nat)
    requires Shaped(g) && HandInProgress(g) && g.phase == Bidding && seat == g.turnSeat
    ensures var h := AfterPass(g, seat);
      var a := g.bidding.value;
      Shaped(h) && h.hands == g.hands &&
      (AuctionOver(h.bidding.value) <==>
        (a.highestBid.None? && a.passesInRow == 3) || (a.highestBid.Some? && a.passesInRow == 2)) &&
      (!AuctionOver(h.bidding.value) ==> HandInProgress(h)) &&
      InPlay(h) == multiset(FullDeck()) && h.trick.None?
  {
  }

  /** The checks handleContra makes, in order: None when the contra stands.
      A seat of -1 (not seated) counts as team 1. */
  function CheckContra(g: GameState, seat: int): Option<string>
    requires g.phase == Bidding ==> g.bidding.Some? && (g.bidding.value.highestBid.Some? ==> g.bidding.value.highestBidderSeat.Some?)
  {
    if g.phase != Bidding then Some("Contra only during bidding end.")
    else if g.bidding.value.highestBid.None? then Some("No bid to contra.")
    else if TeamOfSeat(g.bidding.value.highestBidderSeat.value) == TeamOfSeat(seat) then Some("You can't contra your own bid.")
    else if g.contra != 1 then Some("Already contra/recontra set.")
    else None
  }

  /** A contra stands exactly in the auction, against a bid of the other
      team; it is not tied to the turn. */
  lemma ContraAllowed(g: GameState, seat: int)
    requires Shaped(g) && HandInProgress(g)
    ensures CheckContra(g, seat) == None <==>
      g.phase == Bidding && g.bidding.value.highestBid.Some? &&
      TeamOfSeat(seat) != TeamOfSeat(g.bidding.value.highestBidderSeat.value)
  {
  }

  /** The checks handleRecontra makes, in order. */
  function CheckRecontra(g: GameState, seat: int): Option<string>
  {
    if g.phase != Declarations && g.phase != TrickPlay && g.phase != Bidding then Some("Bad timing.")
    else if g.contra != 2 then Some("No contra to recontra.")
    else if g.declarerTeam.None? then Some("No declarer.")
    else if TeamOfSeat(seat) != g.declarerTeam.value then Some("Only declarers can recontra.")
    else if g.phase == TrickPlay && g.trick.Some? && |g.trick.value.plays| > 0 then Some("Too late (already played).")
    else None
  }

  /** A recontra stands exactly for a declarer after a contra, while the
      trick on the table is empty: not only before the first trick. */
  lemma RecontraAllowed(g: GameState, seat: int)
    requires Shaped(g) && InHand(g.phase) && HandInProgress(g)
    ensures CheckRecontra(g, seat) == None <==>
      g.phase != Bidding && g.contra == 2 && TeamOfSeat(seat) == g.declarerTeam.value &&
      (g.phase == TrickPlay ==> g.trick.value.plays == [])
  {
  }

  /** A recontra changes nothing but the multiplier, which it doubles. */
  lemma RecontraKeeps(g: GameState)
    requires Shaped(g) && HandInProgress(g) && g.phase != Bidding && g.contra == 2
    ensures var h := g.(contra := 4); Shaped(h) && HandInProgress(h) && h.contra == 2 * g.contra
  {
  }

  // ---------------------------------------------------------------------
  // endBidding, when there is a highest bid

  /** The contract is the highest bid, its suit is trump, the declarers are
      the bidder's team; the melds are those computed from the hands (see
      Melds.ComputeMelds); the first trick is led from the left of the dealer. */
  function CloseAuction(g: GameState, melds: MeldState): GameState
    requires g.bidding.Some? && g.bidding.value.highestBid.Some? && g.bidding.value.highestBidderSeat.Some?
  {
    var hb := g.bidding.value.highestBid.value;
    var lead := NextSeat(g.dealerSeat);
    g.(contract := Some(hb), trumpSuit := Some(hb.suit),
       declarerTeam := Some(TeamOfSeat(g.bidding.value.highestBidderSeat.value)),
       melds := melds, phase := Declarations, trick := Some(Trick(lead, [])), turnSeat := lead)
  }

  /** The meld state endBidding records: computeMelds' points and holders,
      nobody awarded belote yet. */
  function MeldsFor(hands: seq<seq<Card>>, trump: Suit): MeldState
    requires |hands| == 4
  {
    MeldState(TeamMeldPoints(hands, 0), TeamMeldPoints(hands, 1), BeloteHolders(hands, trump), {})
  }

  /** Closing the auction keeps every card in the hands and leaves a valid
      hand in progress, waiting for the lead. */
  lemma CloseAuctionKeeps(g: GameState, melds: MeldState)
    requires Shaped(g) && g.trick.None? && InPlay(g) == multiset(FullDeck())
    requires g.bidding.Some? && g.bidding.value.highestBid.Some?
    requires melds.beloteAwarded == {}
    ensures var h := CloseAuction(g, melds);
      Shaped(h) && HandInProgress(h) && h.hands == g.hands &&
      h.declarerTeam == Some(TeamOfSeat(g.bidding.value.highestBidderSeat.value)) &&
      h.trumpSuit == Some(g.bidding.value.highestBid.value.suit) &&
      h.trick == Some(Trick(NextSeat(g.dealerSeat), [])) && h.turnSeat == NextSeat(g.dealerSeat) &&
      h.contra == g.contra && h.melds == melds && h.totals == g.totals
  {
    var h := CloseAuction(g, melds);
    assert TrickCards(h.trick) == [];
    assert InPlay(h) == InPlay(g);
  }

  /** endBidding: a redeal when nobody bid, otherwise the auction closes on
      the highest bid with the melds of the hands. */
  function AuctionEnd(g: GameState, deck: seq<Card>): GameState
    requires |deck| == 32 && |g.hands| == 4 && g.bidding.Some?
    requires g.bidding.value.highestBid.Some? ==> g.bidding.value.highestBidderSeat.Some?
  {
    var hb := g.bidding.value.highestBid;
    if hb.None? then AfterDeal(g, deck)
    else CloseAuction(g, MeldsFor(g.hands, hb.value.suit))
  }

  /** The end of an auction continues the hand: a fresh deal and a new
      auction, or a contract and the first trick to lead. */
  lemma AuctionEndKeeps(g: GameState, deck: seq<Card>)
    requires Shaped(g) && g.trick.None? && InPlay(g) == multiset(FullDeck()) && g.bidding.Some?
    requires multiset(deck) == multiset(FullDeck())
    ensures |deck| == 32
    ensures var h := AuctionEnd(g, deck);
      Shaped(h) && HandInProgress(h) && h.totals == g.totals &&
      (g.bidding.value.highestBid.None? <==> h.phase == Bidding) &&
      (g.bidding.value.highestBid.Some? ==>
        h.phase == Declarations && h.contra == g.contra && h.contract == g.bidding.value.highestBid)
  {
    DeckSize(deck);
    if g.bidding.value.highestBid.None? {
      DealStartsHand(g, deck);
    } else {
      CloseAuctionKeeps(g, MeldsFor(g.hands, g.bidding.value.highestBid.value.suit));
    }
  }

  /** The state after a contra: doubled, and the auction closes at once. */
  function ContraResult(g: GameState): GameState
    requires |g.hands| == 4 && g.bidding.Some? && g.bidding.value.highestBid.Some?
    requires g.bidding.value.highestBidderSeat.Some?
  {
    CloseAuction(g.(contra := 2), MeldsFor(g.hands, g.bidding.value.highestBid.value.suit))
  }

  /** A contra doubles and closes the auction, with the contra's team
      defending. */
  lemma ContraCloses(g: GameState, seat: int)
    requires Shaped(g) && HandInProgress(g) && g.phase == Bidding && CheckContra(g, seat) == None
    ensures var h := ContraResult(g);
      Shaped(h) && HandInProgress(h) && h.contra == 2 && h.phase == Declarations &&
      h.declarerTeam.value != TeamOfSeat(seat)
  {
    var g2 := g.(contra := 2);
    assert InPlay(g2) == InPlay(g);
    CloseAuctionKeeps(g2, MeldsFor(g.hands, g.bidding.value.highestBid.value.suit));
  }

  /** The state after a pass: the auction goes on, or it ends (endBidding). */
  function PassResult(g: GameState, seat: nat, deck: seq<Card>): GameState
    requires |deck| == 32 && |g.hands| == 4 && g.bidding.Some?
    requires g.bidding.value.highestBid.Some? ==> g.bidding.value.highestBidderSeat.Some?
  {
    var p := AfterPass(g, seat);
    if AuctionOver(p.bidding.value) then AuctionEnd(p, deck) else p
  }

  /** After a pass the hand goes on: still in the auction, redealt, or
      under a contract waiting for the lead; the totals are untouched. */
  lemma PassResultKeeps(g: GameState, seat: nat, deck: seq<Card>)
    requires Shaped(g) && HandInProgress(g) && g.phase == Bidding && seat == g.turnSeat
    requires multiset(deck) == multiset(FullDeck())
    ensures |deck| == 32
    ensures var h := PassResult(g, seat, deck);
      Shaped(h) && HandInProgress(h) && (h.phase == Bidding || h.phase == Declarations) &&
      h.totals == g.totals
  {
    DeckSize(deck);
    PassKeeps(g, seat);
    var p := AfterPass(g, seat);
    if AuctionOver(p.bidding.value) {
      AuctionEndKeeps(p, deck);
    }
  }

  // ---------------------------------------------------------------------
  // playCard

  /** hand.filter(c => c !== card) */
  function Without(hand: seq<Card>, c: Card): (r: seq<Card>)
    ensures multiset(r) == multiset(hand)[c := 0]
  {
    if hand == [] then []
    else
      assert hand == [hand[0]] + hand[1..];
      (if hand[0] == c then [] else [hand[0]]) + Without(hand[1..], c)
  }

  /** The cards the log records for a seat, in order. */
  function CardsOf(log: seq<Play>, seat: int): (r: seq<Card>)
    ensures forall x :: x in r <==> Play(seat, x) in log
  {
    if log == [] then []
    else
      var n := |log| - 1;
      assert forall p :: p in log <==> p in log[..n] || p == log[n] by {
        assert log == log[..n] + [log[n]];
      }
      CardsOf(log[..n], seat) + (if log[n].seat == seat then [log[n].card] else [])
  }

  /** Belote: a holder of the trump king and queen is credited 20 for its
      team when it plays the second of the two, once. */
  function BeloteAfter(m: MeldState, log: seq<Play>, seat: nat, c: Card, trump: Suit): MeldState
  {
    if seat in m.beloteHolders && c.suit == trump && (c.rank == King || c.rank == Queen) then
      var played := CardsOf(log, seat) + [c];
      if Card(trump, King) in played && Card(trump, Queen) in played && seat !in m.beloteAwarded then
        m.(beloteAwarded := m.beloteAwarded + {seat},
           team0 := m.team0 + (if TeamOfSeat(seat) == 0 then 20 else 0),
           team1 := m.team1 + (if TeamOfSeat(seat) == 1 then 20 else 0))
      else m
    else m
  }

  /** The belote bonus is paid at most once per holder: the awarded set only
      grows, by the playing seat and only when it holds the belote, and the
      team points grow by 20 exactly when it does. */
  lemma BeloteOnce(m: MeldState, log: seq<Play>, seat: nat, c: Card, trump: Suit)
    ensures var n := BeloteAfter(m, log, seat, c, trump);
      m.beloteAwarded <= n.beloteAwarded &&
      n.beloteAwarded - m.beloteAwarded <= {seat} &&
      (seat in n.beloteAwarded - m.beloteAwarded ==> seat in m.beloteHolders) &&
      n.beloteHolders == m.beloteHolders &&
      (seat in m.beloteAwarded ==> n == m) &&
      n.team0 + n.team1 == m.team0 + m.team1 + (if seat in n.beloteAwarded - m.beloteAwarded then 20 else 0) &&
      (seat in n.beloteAwarded - m.beloteAwarded ==>
        Play(seat, Card(trump, King)) in log + [Play(seat, c)] && Play(seat, Card(trump, Queen)) in log + [Play(seat, c)])
  {
    var n := BeloteAfter(m, log, seat, c, trump);
    if seat in n.beloteAwarded - m.beloteAwarded {
      var played := CardsOf(log, seat) + [c];
      assert Card(trump, King) in played && Card(trump, Queen) in played;
      assert forall x :: x in played ==> Play(seat, x) in log + [Play(seat, c)];
    }
  }

  /** The state once a card has left the hand and joined the trick, before
      the trick is checked for completion. */
  function AfterPlay(g: GameState, seat: nat, c: Card): GameState
    requires |g.hands| == 4 && seat < 4 && g.trick.Some? && g.trumpSuit.Some?
  {
    g.(hands := g.hands[seat := Without(g.hands[seat], c)],
       trick := Some(g.trick.value.(plays := g.trick.value.plays + [Play(seat, c)])),
       melds := BeloteAfter(g.melds, g.playedLog, seat, c, g.trumpSuit.value),
       playedLog := g.playedLog + [Play(seat, c)])
  }

  /** The number of cards left in all hands. */
  function CardsLeft(hands: seq<seq<Card>>): nat
    requires |hands| == 4
  {
    |hands[0]| + |hands[1]| + |hands[2]| + |hands[3]|
  }

  /** The winner's team counts one more trick, takes the trick's cards and
      the last-trick mark. */
  function TakeTrick(g: GameState): GameState
    requires |g.tricksWon| == 2 && |g.tricksCount| == 2 && g.trick.Some? && g.trick.value.plays != [] && g.trumpSuit.Some?
  {
    var plays := g.trick.value.plays;
    var w := TrickWinner(plays, g.trumpSuit.value);
    var t := TeamOfSeat(w.seat);
    g.(tricksCount := g.tricksCount[t := g.tricksCount[t] + 1], lastTrickWinnerTeam := Some(t),
       tricksWon := g.tricksWon[t := g.tricksWon[t] + PlayedCards(plays)])
  }

  /** scoreHand: the raw points, the contract test, the award times contra
      added to the totals, and the end-of-game test. */
  function Settle(g: GameState, target: int): GameState
    requires |g.tricksWon| == 2 && |g.tricksCount| == 2 && |g.totals| == 2
    requires g.trumpSuit.Some? && g.declarerTeam.Some? && g.declarerTeam.value < 2 && g.contract.Some?
  {
    var trump := g.trumpSuit.value;
    var decl := g.declarerTeam.value;
    var raw := [TeamRaw(g.tricksWon[0], 0, g.lastTrickWinnerTeam, g.melds.team0, trump),
                TeamRaw(g.tricksWon[1], 1, g.lastTrickWinnerTeam, g.melds.team1, trump)];
    var made := ContractMade(g.contract.value, g.tricksCount[decl], raw[decl]);
    var a := Award(raw, decl, made, g.contra);
    var totals := [g.totals[0] + a[0], g.totals[1] + a[1]];
    if GameOver(totals, target) then g.(totals := totals, phase := Finished)
    else g.(totals := totals, phase := Lobby, ready := {})
  }

  /** A completed trick is taken; the hand is settled when no card is left,
      otherwise the winner leads the next trick. */
  function AfterTrick(p: GameState, target: int): GameState
    requires |p.hands| == 4 && |p.tricksWon| == 2 && |p.tricksCount| == 2 && |p.totals| == 2
    requires p.trick.Some? && p.trick.value.plays != [] && p.trumpSuit.Some?
    requires p.declarerTeam.Some? && p.declarerTeam.value < 2 && p.contract.Some?
    requires forall k :: 0 <= k < |p.trick.value.plays| ==> p.trick.value.plays[k].seat >= 0
  {
    var w := TrickWinner(p.trick.value.plays, p.trumpSuit.value);
    var t := TakeTrick(p);
    if CardsLeft(t.hands) == 0 then Settle(t, target)
    else t.(trick := Some(Trick(w.seat as nat, [])), turnSeat := w.seat as nat)
  }

  /** The state after a legal play by the seat whose turn it is. */
  function PlaySpec(g: GameState, seat: nat, c: Card, target: int): (r: GameState)
    requires Shaped(g) && seat < 4 && g.trick.Some? && g.trumpSuit.Some? && g.declarerTeam.Some? && g.contract.Some?
    requires |g.trick.value.plays| < 4
    ensures |r.totals| == 2
  {
    var p := AfterPlay(g, seat, c);
    if |p.trick.value.plays| == 4 then AfterTrick(p, target)
    else p.(turnSeat := NextSeat(seat))
  }

  /** The checks playCard makes, in order; the card id names a card only
      when it parses. */
  function CheckPlay(g: GameState, seat: int, cardId: string): Checked<Card>
    requires Shaped(g) && (g.phase == TrickPlay ==> g.trick.Some? && g.trumpSuit.Some?)
  {
    if g.phase != TrickPlay then Rejected("Not in trick phase.")
    else if seat != g.turnSeat then Rejected("Not your turn.")
    else
      var parsed := ParseCard(cardId);
      if parsed.None? || parsed.value !in g.hands[seat] then Rejected("You don't have that card.")
      else if parsed.value !in LegalPlays(g.hands[seat], g.trick.value.plays, g.trumpSuit.value, seat) then
        Rejected("Illegal play (follow suit / trump / overtrump rules).")
      else Accepted(parsed.value)
  }

  /** A play is accepted exactly when it is the trick phase, the seat's
      turn, and the id is that of a card in the seat's hand that the trick
      rules allow. */
  lemma CheckPlayAccepts(g: GameState, seat: int, cardId: string, c: Card)
    requires Shaped(g) && (g.phase == TrickPlay ==> g.trick.Some? && g.trumpSuit.Some?)
    ensures CheckPlay(g, seat, cardId) == Accepted(c) <==>
      g.phase == TrickPlay && seat == g.turnSeat && cardId == CardId(c) && c in g.hands[seat] &&
      c in LegalPlays(g.hands[seat], g.trick.value.plays, g.trumpSuit.value, seat)
  {
    ParseCardId(cardId, c);
  }

  // ---------------------------------------------------------------------
  // What a play keeps

  /** A card held while all 32 are in play is held once. */
  lemma HeldOnce(g: GameState, seat: nat, c: Card)
    requires Shaped(g) && InPlay(g) == multiset(FullDeck()) && seat < 4 && c in g.hands[seat]
    ensures multiset(g.hands[seat])[c] == 1
  {
    FullDeckExact(c);
    assert multiset(g.hands[seat]) <= Pool(g.hands);
    assert Pool(g.hands) <= InPlay(g);
  }

  lemma PoolRemove(hands: seq<seq<Card>>, seat: nat, c: Card)
    requires |hands| == 4 && seat < 4 && multiset(hands[seat])[c] == 1
    ensures Pool(hands[seat := Without(hands[seat], c)]) + multiset{c} == Pool(hands)
  {
    var h := hands[seat := Without(hands[seat], c)];
    assert multiset(h[seat]) + multiset{c} == multiset(hands[seat]);
  }

  lemma PlayedCardsSnoc(plays: seq<Play>, p: Play)
    ensures PlayedCards(plays + [p]) == PlayedCards(plays) + [p.card]
  {
    assert (plays + [p])[..|plays|] == plays;
  }

  /** Playing a held card moves it from the hand to the trick: the 32 cards
      stay in play, each once. */
  lemma AfterPlayCards(g: GameState, seat: nat, c: Card)
    requires Shaped(g) && InPlay(g) == multiset(FullDeck()) && g.trick.Some? && g.trumpSuit.Some?
    requires seat < 4 && c in g.hands[seat]
    ensures InPlay(AfterPlay(g, seat, c)) == multiset(FullDeck())
  {
    var p := AfterPlay(g, seat, c);
    HeldOnce(g, seat, c);
    PoolRemove(g.hands, seat, c);
    PlayedCardsSnoc(g.trick.value.plays, Play(seat, c));
    MoveOne(Pool(p.hands), Pool(g.hands), multiset(g.tricksWon[0]) + multiset(g.tricksWon[1]),
            multiset(TrickCards(g.trick)), multiset(TrickCards(p.trick)), c);
  }

  lemma MoveOne(hands1: multiset<Card>, hands0: multiset<Card>, won: multiset<Card>,
                trick0: multiset<Card>, trick1: multiset<Card>, c: Card)
    requires hands1 + multiset{c} == hands0 && trick1 == trick0 + multiset{c}
    ensures hands1 + won + trick1 == hands0 + won + trick0
  {
  }

  /** The played card joins the trick in seat order, the hand shrinks by
      one, and belote stays with its holders. */
  lemma AfterPlayShape(g: GameState, seat: nat, c: Card)
    requires Shaped(g) && HandInProgress(g) && g.phase == TrickPlay
    requires seat == g.turnSeat && c in g.hands[seat]
    ensures var p := AfterPlay(g, seat, c);
      p.trick.value.leadSeat == g.trick.value.leadSeat &&
      InTurn(p.trick.value) && |p.trick.value.plays| == |g.trick.value.plays| + 1 &&
      p.melds.beloteAwarded <= p.melds.beloteHolders &&
      |p.hands[seat]| + 1 == |g.hands[seat]|
  {
    var p := AfterPlay(g, seat, c);
    HeldOnce(g, seat, c);
    assert |multiset(p.hands[seat])| + 1 == |multiset(g.hands[seat])|;
    BeloteOnce(g.melds, g.playedLog, seat, c, g.trumpSuit.value);
  }

  /** Taking a trick moves its cards to the winning team. */
  lemma TakeTrickKeeps(p: GameState)
    requires Shaped(p) && p.trick.Some? && p.trick.value.plays != [] && p.trumpSuit.Some?
    ensures var t := TakeTrick(p);
      Pool(t.hands) + multiset(t.tricksWon[0]) + multiset(t.tricksWon[1]) == InPlay(p)
  {
    var t := TakeTrick(p);
    var w := TrickWinner(p.trick.value.plays, p.trumpSuit.value);
    var team := TeamOfSeat(w.seat);
    assert multiset(t.tricksWon[team]) == multiset(p.tricksWon[team]) + multiset(PlayedCards(p.trick.value.plays));
  }

  /** When no card is left in any hand, the two teams' won cards are the
      whole deck, so the hand is worth 162 plus the credited melds. */
  lemma EmptyHandsAllWon(t: GameState)
    requires Shaped(t) && CardsLeft(t.hands) == 0
    requires Pool(t.hands) + multiset(t.tricksWon[0]) + multiset(t.tricksWon[1]) == multiset(FullDeck())
    ensures multiset(t.tricksWon[0] + t.tricksWon[1]) == multiset(FullDeck())
  {
    assert t.hands[0] == [] && t.hands[1] == [] && t.hands[2] == [] && t.hands[3] == [];
  }

  /** The totals after a settled hand grow by exactly the hand's points:
      (162 + both teams' meld points) times contra, split as the contract
      decides. */
  lemma SettlePays(t: GameState, target: int)
    requires Shaped(t) && t.trumpSuit.Some? && t.declarerTeam.Some? && t.contract.Some? && t.lastTrickWinnerTeam.Some?
    requires multiset(t.tricksWon[0] + t.tricksWon[1]) == multiset(FullDeck())
    ensures var h := Settle(t, target);
      h.totals[0] + h.totals[1] == t.totals[0] + t.totals[1] + (162 + t.melds.team0 + t.melds.team1) * t.contra &&
      (h.phase == Finished <==> GameOver(h.totals, target)) &&
      (h.phase == Lobby <==> !GameOver(h.totals, target)) &&
      (h.phase == Lobby ==> h.ready == {}) &&
      h.hands == t.hands && h.tricksWon == t.tricksWon
  {
    var trump := t.trumpSuit.value;
    var decl := t.declarerTeam.value;
    var raw := [TeamRaw(t.tricksWon[0], 0, t.lastTrickWinnerTeam, t.melds.team0, trump),
                TeamRaw(t.tricksWon[1], 1, t.lastTrickWinnerTeam, t.melds.team1, trump)];
    var made := ContractMade(t.contract.value, t.tricksCount[decl], raw[decl]);
    HandPointsTotal(t.tricksWon[0], t.tricksWon[1], t.lastTrickWinnerTeam.value, t.melds.team0, t.melds.team1, trump);
    assert raw[0] + raw[1] == 162 + t.melds.team0 + t.melds.team1;
    AwardShares(raw, decl, made, t.contra);
    var a := Award(raw, decl, made, t.contra);
    assert Settle(t, target).totals == [t.totals[0] + a[0], t.totals[1] + a[1]];
  }

  /** Settling keeps the shape and leaves the lobby or a finished game. */
  lemma SettleShape(t: GameState, target: int)
    requires Shaped(t) && t.trumpSuit.Some? && t.declarerTeam.Some? && t.contract.Some?
    ensures var h := Settle(t, target);
      Shaped(h) && (h.phase == Lobby || h.phase == Finished)
  {
  }

  lemma NextSeatMod(lead: nat, k: nat)
    ensures NextSeat((lead + k) % 4) == (lead + k + 1) % 4
  {
  }

  /** Handing the turn to the seat after the trick's last player keeps a
      hand in play. */
  lemma TurnMoves(p: GameState, s: nat)
    requires Shaped(p) && p.phase == TrickPlay && InPlay(p) == multiset(FullDeck())
    requires p.trick.Some? && |p.trick.value.plays| < 4 && s == (p.trick.value.leadSeat + |p.trick.value.plays|) % 4
    requires p.contract.Some? && p.declarerTeam.Some? && p.trumpSuit == Some(p.contract.value.suit)
    requires p.melds.beloteAwarded <= p.melds.beloteHolders
    ensures Shaped(p.(turnSeat := s)) && HandInProgress(p.(turnSeat := s))
  {
    assert InPlay(p.(turnSeat := s)) == InPlay(p);
  }

  /** A play that does not complete the trick passes the turn to the next seat. */
  lemma PlayMidTrick(g: GameState, seat: nat, c: Card)
    requires Shaped(g) && HandInProgress(g) && g.phase == TrickPlay
    requires seat == g.turnSeat && c in g.hands[seat] && |g.trick.value.plays| < 3
    ensures var h := AfterPlay(g, seat, c).(turnSeat := NextSeat(seat));
      Shaped(h) && HandInProgress(h)
  {
    AfterPlayState(g, seat, c);
    NextSeatMod(g.trick.value.leadSeat, |g.trick.value.plays|);
    TurnMoves(AfterPlay(g, seat, c), NextSeat(seat));
  }

  /** A play keeps the state's shape, the 32 cards and the contract. */
  lemma AfterPlayState(g: GameState, seat: nat, c: Card)
    requires Shaped(g) && HandInProgress(g) && g.phase == TrickPlay
    requires seat == g.turnSeat && c in g.hands[seat]
    ensures var p := AfterPlay(g, seat, c);
      Shaped(p) && p.phase == TrickPlay && InPlay(p) == multiset(FullDeck()) &&
      p.trick.Some? && p.trick.value.leadSeat == g.trick.value.leadSeat &&
      |p.trick.value.plays| == |g.trick.value.plays| + 1 &&
      p.contract == g.contract && p.declarerTeam == g.declarerTeam && p.trumpSuit == g.trumpSuit &&
      p.melds.beloteAwarded <= p.melds.beloteHolders
  {
    AfterPlayCards(g, seat, c);
    AfterPlayShape(g, seat, c);
  }

  /** The winner of a trick in seat order sits at one of the four seats. */
  lemma WinnerSeated(t: Trick, trump: Suit)
    requires InTurn(t) && t.plays != []
    ensures 0 <= TrickWinner(t.plays, trump).seat < 4
  {
    var w := TrickWinner(t.plays, trump);
    var k :| 0 <= k < |t.plays| && t.plays[k] == w;
  }

  /** What the trick-taking step needs of the state after a play. */
  lemma AfterPlayReady(g: GameState, seat: nat, c: Card)
    requires Shaped(g) && HandInProgress(g) && g.phase == TrickPlay
    requires seat == g.turnSeat && c in g.hands[seat]
    ensures var p := AfterPlay(g, seat, c);
      |p.hands| == 4 && |p.tricksWon| == 2 && |p.tricksCount| == 2 && |p.totals| == 2 &&
      p.trick.Some? && |p.trick.value.plays| == |g.trick.value.plays| + 1 && p.trumpSuit.Some? &&
      p.declarerTeam.Some? && p.declarerTeam.value < 2 && p.contract.Some? && p.phase == TrickPlay &&
      (forall k :: 0 <= k < |p.trick.value.plays| ==> p.trick.value.plays[k].seat >= 0)
  {
    AfterPlayShape(g, seat, c);
  }

  /** Taking a trick changes only the trick tally, the won cards and the
      last-trick mark. */
  lemma TakeTrickShape(p: GameState)
    requires Shaped(p) && p.trick.Some? && p.trick.value.plays != [] && p.trumpSuit.Some?
    ensures var t := TakeTrick(p);
      Shaped(t) && t.hands == p.hands && t.phase == p.phase && t.contract == p.contract &&
      t.declarerTeam == p.declarerTeam && t.trumpSuit == p.trumpSuit && t.melds == p.melds &&
      t.lastTrickWinnerTeam.Some?
  {
  }

  /** A fresh trick led by seat s, with every card either in a hand or won,
      continues the hand. */
  lemma FreshTrick(t: GameState, s: nat)
    requires Shaped(t) && t.phase == TrickPlay && s < 4
    requires t.contract.Some? && t.declarerTeam.Some? && t.trumpSuit == Some(t.contract.value.suit)
    requires t.melds.beloteAwarded <= t.melds.beloteHolders
    requires Pool(t.hands) + multiset(t.tricksWon[0]) + multiset(t.tricksWon[1]) == multiset(FullDeck())
    ensures var h := t.(trick := Some(Trick(s, [])), turnSeat := s);
      Shaped(h) && HandInProgress(h)
  {
    var h := t.(trick := Some(Trick(s, [])), turnSeat := s);
    assert TrickCards(h.trick) == [];
    assert InPlay(h) == Pool(t.hands) + multiset(t.tricksWon[0]) + multiset(t.tricksWon[1]);
  }

  /** The fourth play completes the trick: the winner sits at a seat, and the
      taken trick keeps all 32 cards between the hands and the won tricks. */
  lemma PlayNextTrick(g: GameState, seat: nat, c: Card)
    requires Shaped(g) && HandInProgress(g) && g.phase == TrickPlay
    requires seat == g.turnSeat && c in g.hands[seat] && |g.trick.value.plays| == 3
    ensures var p := AfterPlay(g, seat, c);
      var w := TrickWinner(p.trick.value.plays, g.trumpSuit.value);
      0 <= w.seat < 4 &&
      var t := TakeTrick(p);
      Shaped(t) && t.phase == TrickPlay && t.contract == g.contract && t.declarerTeam == g.declarerTeam &&
      t.trumpSuit == g.trumpSuit && t.melds.beloteAwarded <= t.melds.beloteHolders &&
      t.lastTrickWinnerTeam.Some? && t.melds == p.melds && t.totals == g.totals && t.contra == g.contra &&
      Pool(t.hands) + multiset(t.tricksWon[0]) + multiset(t.tricksWon[1]) == multiset(FullDeck())
  {
    var p := AfterPlay(g, seat, c);
    AfterPlayCards(g, seat, c);
    AfterPlayShape(g, seat, c);
    assert Shaped(p);
    WinnerSeated(p.trick.value, g.trumpSuit.value);
    TakeTrickKeeps(p);
    TakeTrickShape(p);
  }

  /** A legal play leaves either a hand still in progress (the next seat to
      play, or the trick's winner leading a fresh trick) or, after the last
      trick, a settled hand in the lobby or a finished game. */
  lemma PlayKeeps(g: GameState, seat: nat, c: Card, target: int)
    requires Shaped(g) && HandInProgress(g) && g.phase == TrickPlay
    requires seat == g.turnSeat && c in g.hands[seat]
    ensures var h := PlaySpec(g, seat, c, target);
      Shaped(h) &&
      (h.phase == TrickPlay ==> HandInProgress(h)) &&
      (h.phase == TrickPlay || h.phase == Lobby || h.phase == Finished)
  {
    var p := AfterPlay(g, seat, c);
    var h := PlaySpec(g, seat, c, target);
    if |g.trick.value.plays| < 3 {
      PlayMidTrick(g, seat, c);
      assert h == p.(turnSeat := NextSeat(seat));
    } else {
      PlayNextTrick(g, seat, c);
      AfterPlayReady(g, seat, c);
      AfterTrickKeeps(p, target);
      assert h == AfterTrick(p, target);
    }
  }

  /** Once a full trick is taken with all 32 cards accounted for, the winner
      leads a fresh trick of a hand still in progress, or the hand is
      settled. */
  lemma AfterTrickKeeps(p: GameState, target: int)
    requires |p.hands| == 4 && |p.tricksWon| == 2 && |p.tricksCount| == 2 && |p.totals| == 2
    requires p.trick.Some? && p.trick.value.plays != [] && p.trumpSuit.Some?
    requires p.declarerTeam.Some? && p.declarerTeam.value < 2 && p.contract.Some?
    requires forall k :: 0 <= k < |p.trick.value.plays| ==> p.trick.value.plays[k].seat >= 0
    requires 0 <= TrickWinner(p.trick.value.plays, p.trumpSuit.value).seat < 4
    requires var t := TakeTrick(p);
      Shaped(t) && t.phase == TrickPlay && t.contract.Some? && t.declarerTeam.Some? &&
      t.trumpSuit == Some(t.contract.value.suit) && t.melds.beloteAwarded <= t.melds.beloteHolders &&
      Pool(t.hands) + multiset(t.tricksWon[0]) + multiset(t.tricksWon[1]) == multiset(FullDeck())
    ensures var h := AfterTrick(p, target);
      Shaped(h) &&
      (h.phase == TrickPlay ==> HandInProgress(h)) &&
      (h.phase == TrickPlay || h.phase == Lobby || h.phase == Finished)
  {
    var t := TakeTrick(p);
    var w := TrickWinner(p.trick.value.plays, p.trumpSuit.value);
    if CardsLeft(t.hands) != 0 {
      FreshTrick(t, w.seat as nat);
    } else {
      SettleShape(t, target);
    }
  }

  /** The play that empties the last hand settles it: the totals grow by
      (162 + the credited meld points) times contra. */
  lemma LastPlayPays(g: GameState, seat: nat, c: Card, target: int)
    requires Shaped(g) && HandInProgress(g) && g.phase == TrickPlay
    requires seat == g.turnSeat && c in g.hands[seat]
    ensures var h := PlaySpec(g, seat, c, target);
      var m := BeloteAfter(g.melds, g.playedLog, seat, c, g.trumpSuit.value);
      h.phase != TrickPlay ==>
        h.totals[0] + h.totals[1] == g.totals[0] + g.totals[1] + (162 + m.team0 + m.team1) * g.contra
  {
    var p := AfterPlay(g, seat, c);
    var h := PlaySpec(g, seat, c, target);
    if |g.trick.value.plays| < 3 {
      assert h == p.(turnSeat := NextSeat(seat));
    } else {
      PlayNextTrick(g, seat, c);
      var t := TakeTrick(p);
      var w := TrickWinner(p.trick.value.plays, g.trumpSuit.value);
      if CardsLeft(t.hands) != 0 {
        assert h == t.(trick := Some(Trick(w.seat as nat, [])), turnSeat := w.seat as nat);
      } else {
        assert h == Settle(t, target);
        assert t.melds == BeloteAfter(g.melds, g.playedLog, seat, c, g.trumpSuit.value);
        EmptyHandsAllWon(t);
        SettlePays(t, target);
      }
    }
  }
}
