// Trick resolution and the legality rules of trick play: follow suit, forced
// trump, forced overtrump, and the free discard when the partner is winning.

module Tricks {
  import opened Cards

  datatype Play = Play(seat: int, card: Card)

  datatype Trick = Trick(leadSeat: nat, plays: seq<Play>)

  /** hand.filter(c => suit of c is suit) */
  function OfSuit(hand: seq<Card>, suit: Suit): (r: seq<Card>)
    ensures forall x :: x in r <==> x in hand && x.suit == suit
    ensures multiset(r) <= multiset(hand)
    ensures r == [] <==> !Holds(hand, suit)
  {
    if hand == [] then []
    else
      assert hand == [hand[0]] + hand[1..];
      (if hand[0].suit == suit then [hand[0]] else []) + OfSuit(hand[1..], suit)
  }

  /** cards.filter(c => isHigher(c, best, leadSuit, trumpSuit)) */
  function Beating(cards: seq<Card>, best: Card, lead: Suit, trump: Suit): (r: seq<Card>)
    ensures forall x :: x in r <==> x in cards && IsHigher(x, best, lead, trump)
    ensures multiset(r) <= multiset(cards)
    ensures r == [] <==> !AnyBeats(cards, best, lead, trump)
  {
    if cards == [] then []
    else
      assert cards == [cards[0]] + cards[1..];
      (if IsHigher(cards[0], best, lead, trump) then [cards[0]] else []) + Beating(cards[1..], best, lead, trump)
  }

  predicate AnyBeats(cards: seq<Card>, best: Card, lead: Suit, trump: Suit)
  {
    exists x :: x in cards && IsHigher(x, best, lead, trump)
  }

  predicate Holds(hand: seq<Card>, suit: Suit)
  {
    exists c :: c in hand && c.suit == suit
  }

  function PlayedCards(plays: seq<Play>): (r: seq<Card>)
    ensures |r| == |plays|
    ensures forall i :: 0 <= i < |plays| ==> r[i] == plays[i].card
  {
    if plays == [] then [] else PlayedCards(plays[..|plays| - 1]) + [plays[|plays| - 1].card]
  }

  /** The play currently winning a non-empty trick: scanning from the lead, a
      play replaces the winner only when its card beats the winner's. The
      winner is one of the trick's plays, holds the lead suit or trump, and no
      play of the trick beats it. */
  function TrickWinner(plays: seq<Play>, trump: Suit): (w: Play)
    requires |plays| > 0
    ensures w in plays
    ensures w.card.suit == plays[0].card.suit || w.card.suit == trump
    ensures forall i :: 0 <= i < |plays| ==> !IsHigher(plays[i].card, w.card, plays[0].card.suit, trump)
  {
    var lead := plays[0].card.suit;
    if |plays| == 1 then
      IsHigherStrict(plays[0].card, plays[0].card, plays[0].card, lead, trump);
      plays[0]
    else
      var n := |plays| - 1;
      var prev := TrickWinner(plays[..n], trump);
      var last := plays[n];
      if IsHigher(last.card, prev.card, lead, trump) then
        assert forall i :: 0 <= i < n ==> plays[..n][i] == plays[i];
        forall i | 0 <= i < |plays| ensures !IsHigher(plays[i].card, last.card, lead, trump) {
          IsHigherStrict(plays[i].card, last.card, prev.card, lead, trump);
        }
        IsHigherShape(last.card, prev.card, lead, trump);
        last
      else
        assert forall i :: 0 <= i < n ==> plays[..n][i] == plays[i];
        prev
  }

  lemma TrickWinnerStep(plays: seq<Play>, n: nat, trump: Suit)
    requires 0 < n < |plays|
    ensures TrickWinner(plays[..n + 1], trump) ==
      if IsHigher(plays[n].card, TrickWinner(plays[..n], trump).card, plays[0].card.suit, trump)
      then plays[n] else TrickWinner(plays[..n], trump)
  {
    assert plays[..n + 1][..n] == plays[..n];
  }

  /** currentTrickWinner, with the source's loop over plays.slice(1). */
  method CurrentTrickWinner(trick: Trick, trump: Suit) returns (w: Option<Play>)
    ensures trick.plays == [] <==> w == None
    ensures trick.plays != [] ==> w == Some(TrickWinner(trick.plays, trump))
  {
    var plays := trick.plays;
    if |plays| == 0 {
      return None;
    }
    var lead := plays[0].card.suit;
    var win := plays[0];
    assert plays[..1] == [plays[0]];
    var i := 1;
    while i < |plays|
      invariant 1 <= i <= |plays|
      invariant win == TrickWinner(plays[..i], trump)
    {
      TrickWinnerStep(plays, i, trump);
      if IsHigher(plays[i].card, win.card, lead, trump) {
        win := plays[i];
      }
      i := i + 1;
    }
    assert plays[..i] == plays;
    return Some(win);
  }

  /** legalPlays in the trick phase, for the seat holding hand. */
  function LegalPlays(hand: seq<Card>, plays: seq<Play>, trump: Suit, seat: int): (r: seq<Card>)
    ensures forall c :: c in r ==> c in hand
    ensures hand != [] ==> r != []
    ensures multiset(r) <= multiset(hand)
  {
    if plays == [] then hand
    else
      var lead := plays[0].card.suit;
      var hasLead := OfSuit(hand, lead);
      if hasLead != [] then
        if lead == trump then
          var w := TrickWinner(plays, trump);
          var higher := Beating(hasLead, w.card, lead, trump);
          if higher != [] then higher else hasLead
        else hasLead
      else
        var trumps := OfSuit(hand, trump);
        if trumps == [] then hand
        else
          var w := TrickWinner(plays, trump);
          if TeamOfSeat(w.seat) == TeamOfSeat(seat) then hand
          else
            var higher := Beating(trumps, w.card, lead, trump);
            if higher != [] then higher else trumps
  }

  /** The card the trick is currently won with. */
  function WinningCard(plays: seq<Play>, trump: Suit): Card
    requires plays != []
  {
    TrickWinner(plays, trump).card
  }

  predicate CanBeat(hand: seq<Card>, suit: Suit, plays: seq<Play>, trump: Suit)
    requires plays != []
  {
    exists c :: c in hand && c.suit == suit && IsHigher(c, WinningCard(plays, trump), plays[0].card.suit, trump)
  }

  /** Holding the lead suit: exactly the lead-suit cards are legal, narrowed
      to those that beat the winning card when the lead is trump and one does. */
  lemma LegalWhenFollowing(hand: seq<Card>, plays: seq<Play>, trump: Suit, seat: int, c: Card)
    requires plays != [] && Holds(hand, plays[0].card.suit)
    ensures var lead := plays[0].card.suit;
      var mustOver := lead == trump && CanBeat(hand, lead, plays, trump);
      c in LegalPlays(hand, plays, trump, seat) <==>
        c in hand && c.suit == lead && (mustOver ==> IsHigher(c, WinningCard(plays, trump), lead, trump))
  {
    var lead := plays[0].card.suit;
    var w := TrickWinner(plays, trump);
    var hasLead := OfSuit(hand, lead);
    var x :| x in hand && x.suit == lead;
    assert x in hasLead;
    var higher := Beating(hasLead, w.card, lead, trump);
    if lead == trump {
      assert AnyBeats(hasLead, w.card, lead, trump) <==> CanBeat(hand, lead, plays, trump);
      if CanBeat(hand, lead, plays, trump) {
        assert LegalPlays(hand, plays, trump, seat) == higher;
      } else {
        assert LegalPlays(hand, plays, trump, seat) == hasLead;
      }
    } else {
      assert LegalPlays(hand, plays, trump, seat) == hasLead;
    }
  }

  /** Void in the lead suit, and either void in trump or the partner is
      winning: the whole hand is legal. */
  lemma LegalWhenFreeDiscard(hand: seq<Card>, plays: seq<Play>, trump: Suit, seat: int)
    requires plays != [] && !Holds(hand, plays[0].card.suit)
    requires !Holds(hand, trump) || TeamOfSeat(TrickWinner(plays, trump).seat) == TeamOfSeat(seat)
    ensures LegalPlays(hand, plays, trump, seat) == hand
  {
  }

  /** Void in the lead suit, holding trump, an opponent winning: the trumps
      are legal, narrowed to those that beat the winning card if any does. */
  lemma LegalWhenForcedTrump(hand: seq<Card>, plays: seq<Play>, trump: Suit, seat: int, c: Card)
    requires plays != [] && !Holds(hand, plays[0].card.suit) && Holds(hand, trump)
    requires TeamOfSeat(TrickWinner(plays, trump).seat) != TeamOfSeat(seat)
    ensures var mustOver := CanBeat(hand, trump, plays, trump);
      c in LegalPlays(hand, plays, trump, seat) <==>
        c in hand && c.suit == trump && (mustOver ==> IsHigher(c, WinningCard(plays, trump), plays[0].card.suit, trump))
  {
    var lead := plays[0].card.suit;
    var w := TrickWinner(plays, trump);
    var trumps := OfSuit(hand, trump);
    var x :| x in hand && x.suit == trump;
    assert x in trumps;
    var higher := Beating(trumps, w.card, lead, trump);
    assert AnyBeats(trumps, w.card, lead, trump) <==> CanBeat(hand, trump, plays, trump);
    assert OfSuit(hand, lead) == [];
    if CanBeat(hand, trump, plays, trump) {
      assert LegalPlays(hand, plays, trump, seat) == higher;
    } else {
      assert LegalPlays(hand, plays, trump, seat) == trumps;
    }
  }
}
