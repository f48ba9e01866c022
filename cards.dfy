// Cards, their string identifiers, the rank and point tables of the
// Belote (Blot) engine, and the trick comparison built on them.

module Cards {

  datatype Option<T> = None | Some(value: T)

  datatype Suit = S | H | D | C

  /** Ranks, declared in the natural order 7,8,9,10,J,Q,K,A used by sequences. */
  datatype Rank = Seven | Eight | Nine | Ten | Jack | Queen | King | Ace

  datatype Card = Card(suit: Suit, rank: Rank)

  /** SUITS = ["S","H","D","C"] */
  const Suits: seq<Suit> := [S, H, D, C]

  /** RANKS, the storage order the deck is built in. */
  const StorageRanks: seq<Rank> := [Seven, Eight, Nine, Jack, Queen, King, Ten, Ace]

  /** TEAM_OF_SEAT: seats 0 and 2 are team 0, every other value (1, 3, and -1 for a spectator) team 1. */
  function TeamOfSeat(seat: int): (t: nat)
    ensures t < 2
    ensures t == 0 <==> seat == 0 || seat == 2
  {
    if seat == 0 || seat == 2 then 0 else 1
  }

  function NextSeat(seat: nat): (n: nat)
    ensures n < 4
    ensures seat < 4 ==> n == if seat == 3 then 0 else seat + 1
  {
    (seat + 1) % 4
  }

  // ---------------------------------------------------------------------
  // Card identifiers: rank text followed by the one-letter suit, "10H", "QS"

  function SuitName(s: Suit): string
  {
    match s
    case S => "S"
    case H => "H"
    case D => "D"
    case C => "C"
  }

  function RankName(r: Rank): string
  {
    match r
    case Seven => "7"
    case Eight => "8"
    case Nine => "9"
    case Ten => "10"
    case Jack => "J"
    case Queen => "Q"
    case King => "K"
    case Ace => "A"
  }

  function ParseSuit(t: string): (r: Option<Suit>)
    ensures r.Some? ==> SuitName(r.value) == t
    ensures forall s: Suit :: SuitName(s) == t ==> r == Some(s)
  {
    if t == "S" then Some(S)
    else if t == "H" then Some(H)
    else if t == "D" then Some(D)
    else if t == "C" then Some(C)
    else None
  }

  function ParseRank(t: string): (r: Option<Rank>)
    ensures r.Some? ==> RankName(r.value) == t
    ensures forall k: Rank :: RankName(k) == t ==> r == Some(k)
  {
    if t == "7" then Some(Seven)
    else if t == "8" then Some(Eight)
    else if t == "9" then Some(Nine)
    else if t == "10" then Some(Ten)
    else if t == "J" then Some(Jack)
    else if t == "Q" then Some(Queen)
    else if t == "K" then Some(King)
    else if t == "A" then Some(Ace)
    else None
  }

  /** cardId(suit, rank) */
  function CardId(c: Card): (id: string)
    ensures 2 <= |id| <= 3
    ensures id[|id| - 1..] == SuitName(c.suit) && id[..|id| - 1] == RankName(c.rank)
  {
    RankName(c.rank) + SuitName(c.suit)
  }

  /** parseCard: the last character is the suit, the rest the rank. Text that
      names no card gives None. */
  function ParseCard(id: string): Option<Card>
  {
    if |id| == 0 then None
    else
      match (ParseRank(id[..|id| - 1]), ParseSuit(id[|id| - 1..]))
      case (Some(r), Some(s)) => Some(Card(s, r))
      case _ => None
  }

  /** parseCard(cardId(s, r)) gives back s and r, and a text parses to a card
      exactly when it is that card's identifier. */
  lemma ParseCardId(id: string, c: Card)
    ensures ParseCard(id) == Some(c) <==> id == CardId(c)
  {
    if id == CardId(c) {
      var n := |id|;
      assert id[..n - 1] == RankName(c.rank);
      assert id[n - 1..] == SuitName(c.suit);
    }
    if ParseCard(id) == Some(c) {
      var n := |id|;
      assert RankName(c.rank) == id[..n - 1];
      assert SuitName(c.suit) == id[n - 1..];
      assert id == id[..n - 1] + id[n - 1..];
    }
  }

  lemma CardIdInjective(a: Card, b: Card)
    requires CardId(a) == CardId(b)
    ensures a == b
  {
    ParseCardId(CardId(a), a);
    ParseCardId(CardId(b), b);
  }

  // ---------------------------------------------------------------------
  // Rank order for trick taking (index 0 is the highest)

  const TrumpOrder: seq<Rank> := [Jack, Nine, Ace, Ten, King, Queen, Eight, Seven]
  const PlainOrder: seq<Rank> := [Ace, Ten, King, Queen, Jack, Nine, Eight, Seven]

  /** rankIndex: the position of r in TRUMP_ORDER or PLAIN_ORDER (indexOf);
      smaller is higher. */
  function RankIndex(r: Rank, isTrump: bool): (i: nat)
    ensures i < 8
    ensures (if isTrump then TrumpOrder else PlainOrder)[i] == r
  {
    if isTrump then
      match r
      case Jack => 0
      case Nine => 1
      case Ace => 2
      case Ten => 3
      case King => 4
      case Queen => 5
      case Eight => 6
      case Seven => 7
    else
      match r
      case Ace => 0
      case Ten => 1
      case King => 2
      case Queen => 3
      case Jack => 4
      case Nine => 5
      case Eight => 6
      case Seven => 7
  }

  lemma RankIndexInjective(a: Rank, b: Rank, isTrump: bool)
    ensures RankIndex(a, isTrump) == RankIndex(b, isTrump) <==> a == b
  {
  }

  /** isHigher(a, b, leadSuit, trumpSuit): does card a beat card b in a trick? */
  function IsHigher(a: Card, b: Card, leadSuit: Suit, trump: Suit): bool
  {
    var aTrump := a.suit == trump;
    var bTrump := b.suit == trump;
    if aTrump && !bTrump then true
    else if !aTrump && bTrump then false
    else if aTrump && bTrump then RankIndex(a.rank, true) < RankIndex(b.rank, true)
    else if a.suit == leadSuit && b.suit != leadSuit then true
    else if a.suit != leadSuit && b.suit == leadSuit then false
    else if a.suit != leadSuit && b.suit != leadSuit then false
    else RankIndex(a.rank, false) < RankIndex(b.rank, false)
  }

  /** IsHigher is a strict order: irreflexive, never true both ways, transitive. */
  lemma IsHigherStrict(a: Card, b: Card, c: Card, lead: Suit, trump: Suit)
    ensures !IsHigher(a, a, lead, trump)
    ensures IsHigher(a, b, lead, trump) ==> !IsHigher(b, a, lead, trump)
    ensures IsHigher(a, b, lead, trump) && IsHigher(b, c, lead, trump) ==> IsHigher(a, c, lead, trump)
  {
  }

  /** A trump beats every non-trump; among non-trumps only a lead-suit card
      can beat anything; of two distinct cards of the same suit, trump or lead,
      one beats the other. */
  lemma IsHigherShape(a: Card, b: Card, lead: Suit, trump: Suit)
    ensures a.suit == trump && b.suit != trump ==> IsHigher(a, b, lead, trump)
    ensures a.suit != trump && a.suit != lead ==> !IsHigher(a, b, lead, trump)
    ensures a != b && a.suit == b.suit && (a.suit == trump || a.suit == lead) ==>
              IsHigher(a, b, lead, trump) || IsHigher(b, a, lead, trump)
  {
    if a != b && a.suit == b.suit {
      RankIndexInjective(a.rank, b.rank, a.suit == trump);
    }
  }

  // ---------------------------------------------------------------------
  // Card points

  function TrumpPoints(r: Rank): nat
  {
    match r
    case Jack => 20
    case Nine => 14
    case Ace => 11
    case Ten => 10
    case King => 4
    case Queen => 3
    case Eight => 0
    case Seven => 0
  }

  function PlainPoints(r: Rank): nat
  {
    match r
    case Ace => 11
    case Ten => 10
    case King => 4
    case Queen => 3
    case Jack => 2
    case Nine => 0
    case Eight => 0
    case Seven => 0
  }

  /** cardPoints(card, trumpSuit) */
  function CardPoints(c: Card, trump: Suit): (p: nat)
    ensures p <= 20
    ensures p == 20 <==> c == Card(trump, Jack)
  {
    if c.suit == trump then TrumpPoints(c.rank) else PlainPoints(c.rank)
  }

  function SumPoints(cards: seq<Card>, trump: Suit): nat
  {
    if cards == [] then 0 else SumPoints(cards[..|cards| - 1], trump) + CardPoints(cards[|cards| - 1], trump)
  }

  lemma {:induction false} SumPointsAppend(a: seq<Card>, b: seq<Card>, trump: Suit)
    ensures SumPoints(a + b, trump) == SumPoints(a, trump) + SumPoints(b, trump)
    decreases |b|
  {
    if b == [] {
      assert a + b == a;
    } else {
      var n := |b| - 1;
      assert (a + b)[..|a + b| - 1] == a + b[..n];
      SumPointsAppend(a, b[..n], trump);
    }
  }

  /** Removing one occurrence of x from a sequence. */
  function RemoveOne(s: seq<Card>, x: Card): (r: seq<Card>)
    requires x in s
    ensures multiset(r) == multiset(s) - multiset{x}
    ensures |r| == |s| - 1
  {
    assert s == [s[0]] + s[1..];
    if s[0] == x then s[1..] else [s[0]] + RemoveOne(s[1..], x)
  }

  lemma {:induction false} SumPointsRemoveOne(s: seq<Card>, x: Card, trump: Suit)
    requires x in s
    ensures SumPoints(s, trump) == SumPoints(RemoveOne(s, x), trump) + CardPoints(x, trump)
  {
    assert s == [s[0]] + s[1..];
    SumPointsAppend([s[0]], s[1..], trump);
    assert SumPoints([s[0]], trump) == CardPoints(s[0], trump) by {
      assert [s[0]][..0] == [];
    }
    if s[0] != x {
      SumPointsRemoveOne(s[1..], x, trump);
      SumPointsAppend([s[0]], RemoveOne(s[1..], x), trump);
    }
  }

  /** Card points depend only on which cards there are, not on their order. */
  lemma {:induction false} SumPointsPermutation(a: seq<Card>, b: seq<Card>, trump: Suit)
    requires multiset(a) == multiset(b)
    ensures SumPoints(a, trump) == SumPoints(b, trump)
    decreases |a|
  {
    if a != [] {
      var n := |a| - 1;
      var x := a[n];
      assert a == a[..n] + [x];
      assert x in multiset(b);
      SumPointsRemoveOne(b, x, trump);
      assert multiset(a[..n]) == multiset(RemoveOne(b, x));
      SumPointsPermutation(a[..n], RemoveOne(b, x), trump);
    } else {
      assert |b| == |multiset(b)| == 0;
    }
  }

  // ---------------------------------------------------------------------
  // The 32-card deck

  function SuitCards(s: Suit): (r: seq<Card>)
    ensures |r| == 8
  {
    seq(8, i requires 0 <= i < 8 => Card(s, StorageRanks[i]))
  }

  /** The deck exactly as the dealer builds it: for each suit of SUITS, each rank of RANKS. */
  function FullDeck(): (d: seq<Card>)
    ensures |d| == 32
  {
    SuitCards(S) + SuitCards(H) + SuitCards(D) + SuitCards(C)
  }

  lemma InSuitCards(c: Card)
    ensures c in SuitCards(c.suit)
  {
    var r := SuitCards(c.suit);
    match c.rank
    case Seven => assert r[0] == c;
    case Eight => assert r[1] == c;
    case Nine => assert r[2] == c;
    case Jack => assert r[3] == c;
    case Queen => assert r[4] == c;
    case King => assert r[5] == c;
    case Ten => assert r[6] == c;
    case Ace => assert r[7] == c;
  }

  /** The deck holds every card exactly once. */
  lemma FullDeckExact(c: Card)
    ensures multiset(FullDeck())[c] == 1
  {
    InSuitCards(c);
    var r := SuitCards(c.suit);
    assert forall i, j :: 0 <= i < j < 8 ==> r[i] != r[j];
    MultiplicityOfDistinct(r, c);
    forall t: Suit | t != c.suit ensures multiset(SuitCards(t))[c] == 0 {
      var q := SuitCards(t);
      assert forall i :: 0 <= i < 8 ==> q[i].suit == t;
      assert c !in q;
    }
  }

  lemma {:induction false} MultiplicityOfDistinct(r: seq<Card>, c: Card)
    requires c in r
    requires forall i, j :: 0 <= i < j < |r| ==> r[i] != r[j]
    ensures multiset(r)[c] == 1
  {
    assert r == [r[0]] + r[1..];
    if r[0] == c {
      assert c !in r[1..];
    } else {
      MultiplicityOfDistinct(r[1..], c);
    }
  }

  /** The points of a prefix grow by the next card's points. */
  lemma SumPointsPrefix(cards: seq<Card>, k: nat, trump: Suit)
    requires 1 <= k <= |cards|
    ensures SumPoints(cards[..k], trump) == SumPoints(cards[..k - 1], trump) + CardPoints(cards[k - 1], trump)
  {
    assert cards[..k][..k - 1] == cards[..k - 1];
  }

  /** The points of four cards, card by card. */
  lemma SumPointsFour(r: seq<Card>, trump: Suit)
    requires |r| == 4
    ensures SumPoints(r, trump) ==
      CardPoints(r[0], trump) + CardPoints(r[1], trump) + CardPoints(r[2], trump) + CardPoints(r[3], trump)
  {
    assert r[..0] == [] && r[..4] == r;
    SumPointsPrefix(r, 1, trump);
    SumPointsPrefix(r, 2, trump);
    SumPointsPrefix(r, 3, trump);
    SumPointsPrefix(r, 4, trump);
  }

  /** The points of eight cards, card by card. */
  lemma SumPointsEight(r: seq<Card>, trump: Suit)
    requires |r| == 8
    ensures SumPoints(r, trump) ==
      CardPoints(r[0], trump) + CardPoints(r[1], trump) + CardPoints(r[2], trump) + CardPoints(r[3], trump) +
      CardPoints(r[4], trump) + CardPoints(r[5], trump) + CardPoints(r[6], trump) + CardPoints(r[7], trump)
  {
    assert r == r[..4] + r[4..];
    SumPointsAppend(r[..4], r[4..], trump);
    SumPointsFour(r[..4], trump);
    SumPointsFour(r[4..], trump);
  }

  lemma {:induction false} SuitPoints(s: Suit, trump: Suit)
    ensures SumPoints(SuitCards(s), trump) == if s == trump then 62 else 30
  {
    var r := SuitCards(s);
    SumPointsEight(r, trump);
    assert r[0].rank == Seven && r[1].rank == Eight && r[2].rank == Nine && r[3].rank == Jack;
    assert r[4].rank == Queen && r[5].rank == King && r[6].rank == Ten && r[7].rank == Ace;
  }

  /** All 32 cards are worth 152 points whatever the trump suit. */
  lemma DeckPoints(trump: Suit)
    ensures SumPoints(FullDeck(), trump) == 152
  {
    SumPointsAppend(SuitCards(S) + SuitCards(H) + SuitCards(D), SuitCards(C), trump);
    SumPointsAppend(SuitCards(S) + SuitCards(H), SuitCards(D), trump);
    SumPointsAppend(SuitCards(S), SuitCards(H), trump);
    SuitPoints(S, trump);
    SuitPoints(H, trump);
    SuitPoints(D, trump);
    SuitPoints(C, trump);
  }

  /** Any arrangement of the 32 dealt cards is worth 152. */
  lemma DealtCardsPoints(cards: seq<Card>, trump: Suit)
    requires multiset(cards) == multiset(FullDeck())
    ensures SumPoints(cards, trump) == 152
  {
    SumPointsPermutation(cards, FullDeck(), trump);
    DeckPoints(trump);
  }
}
