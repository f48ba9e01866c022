// The bots' bidding heuristics (botChooseBid, botDecideBid): score each
// suit of the hand by its jack, nine, ace, ten, king and queen, pick the
// first best suit, and bid from its score.

module Bots {
  import opened Cards
  import opened Settlement
  import opened Rules

  /** { type:"pass" } or { type:"bid", bid, suit } */
  datatype BotMove = Pass | BotBid(amount: int, suit: Suit)

  /** What a card of the suit adds to the suit's score. */
  function RankWeight(r: Rank): nat
  {
    match r
    case Jack => 5
    case Nine => 4
    case Ace => 3
    case Ten => 2
    case King => 1
    case Queen => 1
    case _ => 0
  }

  /** The score of a suit in the hand. */
  function SuitScore(hand: seq<Card>, s: Suit): nat
  {
    if hand == [] then 0
    else
      var last := hand[|hand| - 1];
      SuitScore(hand[..|hand| - 1], s) + (if last.suit == s then RankWeight(last.rank) else 0)
  }

  function Max(a: nat, b: nat): nat { if a >= b then a else b }

  /** The highest score of the four suits. */
  function TopScore(hand: seq<Card>): nat
  {
    Max(Max(SuitScore(hand, S), SuitScore(hand, H)), Max(SuitScore(hand, D), SuitScore(hand, C)))
  }

  /** The first suit, in the order S, H, D, C, that reaches the top score. */
  function FirstTop(hand: seq<Card>): Suit
  {
    var top := TopScore(hand);
    if SuitScore(hand, S) == top then S
    else if SuitScore(hand, H) == top then H
    else if SuitScore(hand, D) == top then D
    else C
  }

  /** The chosen suit scores at least as much as every suit, and strictly
      more than every suit before it. */
  lemma FirstTopIsBest(hand: seq<Card>)
    ensures var b := FirstTop(hand);
      SuitScore(hand, b) == TopScore(hand) &&
      (forall i :: 0 <= i < 4 ==> SuitScore(hand, Suits[i]) <= SuitScore(hand, b)) &&
      (forall i :: 0 <= i < 4 && Suits[i] == b ==> forall j :: 0 <= j < i ==> SuitScore(hand, Suits[j]) < SuitScore(hand, b))
  {
  }

  /** The scoring loop over the hand for one suit. */
  method ScoreSuit(hand: seq<Card>, s: Suit) returns (sc: nat)
    ensures sc == SuitScore(hand, s)
  {
    sc := 0;
    var i := 0;
    while i < |hand|
      invariant 0 <= i <= |hand|
      invariant sc == SuitScore(hand[..i], s)
    {
      assert hand[..i + 1][..i] == hand[..i];
      if hand[i].suit == s {
        sc := sc + RankWeight(hand[i].rank);
      }
      i := i + 1;
    }
    assert hand[..i] == hand;
  }

  /** A suit that scores the top and beats every suit before it is the
      first top suit. */
  lemma FirstTopAt(hand: seq<Card>, bi: int)
    requires 0 <= bi < 4
    requires forall i :: 0 <= i < 4 ==> SuitScore(hand, Suits[i]) <= SuitScore(hand, Suits[bi])
    requires forall j :: 0 <= j < bi ==> SuitScore(hand, Suits[j]) < SuitScore(hand, Suits[bi])
    ensures Suits[bi] == FirstTop(hand) && SuitScore(hand, Suits[bi]) == TopScore(hand)
  {
    assert Suits[0] == S && Suits[1] == H && Suits[2] == D && Suits[3] == C;
    var sS, sH, sD, sC := SuitScore(hand, S), SuitScore(hand, H), SuitScore(hand, D), SuitScore(hand, C);
    assert sS <= SuitScore(hand, Suits[bi]) && sH <= SuitScore(hand, Suits[bi]);
    assert sD <= SuitScore(hand, Suits[bi]) && sC <= SuitScore(hand, Suits[bi]);
    if bi == 0 {
    } else if bi == 1 {
      assert sS < sH;
    } else if bi == 2 {
      assert sS < sD && sH < sD;
    } else {
      assert sS < sC && sH < sC && sD < sC;
    }
  }

  /** The loop over S, H, D, C keeping the first strictly best suit. */
  method BestSuit(hand: seq<Card>) returns (best: Suit, bestScore: nat)
    ensures best == FirstTop(hand) && bestScore == TopScore(hand)
  {
    best := S;
    var top: int := -1;
    ghost var bi := 0;
    var k := 0;
    while k < 4
      invariant 0 <= k <= 4 && 0 <= bi < 4 && best == Suits[bi]
      invariant k == 0 ==> top == -1 && bi == 0
      invariant k > 0 ==> bi < k && top == SuitScore(hand, Suits[bi])
      invariant forall i :: 0 <= i < k ==> SuitScore(hand, Suits[i]) <= top
      invariant forall j :: 0 <= j < bi ==> SuitScore(hand, Suits[j]) < top
    {
      var sc := ScoreSuit(hand, Suits[k]);
      if sc > top {
        top := sc;
        best := Suits[k];
        bi := k;
      }
      k := k + 1;
    }
    FirstTopAt(hand, bi);
    bestScore := top;
  }

  /** botChooseBid, whose skill is fixed at "normal": pass below a score of
      6, otherwise bid 80 plus 10 per point above 6, at most 120. */
  function ChooseBid(hand: seq<Card>): BotMove
  {
    var top := TopScore(hand);
    if top < 6 then Pass
    else BotBid(if 80 + (top - 6) * 10 < 120 then 80 + (top - 6) * 10 else 120, FirstTop(hand))
  }

  method BotChooseBid(hand: seq<Card>) returns (m: BotMove)
    ensures m == ChooseBid(hand)
  {
    var best, top := BestSuit(hand);
    if top < 6 {
      return Pass;
    }
    var bid := if 80 + (top - 6) * 10 < 120 then 80 + (top - 6) * 10 else 120;
    m := BotBid(bid, best);
  }

  /** botChooseBid passes exactly when no suit scores 6, and otherwise bids
      80..120 in tens on the first best suit. */
  lemma ChooseBidShape(hand: seq<Card>)
    ensures var m := ChooseBid(hand);
      (m == Pass <==> forall i :: 0 <= i < 4 ==> SuitScore(hand, Suits[i]) < 6) &&
      (m.BotBid? ==> 80 <= m.amount <= 120 && m.amount % 10 == 0 && m.suit == FirstTop(hand) &&
                     forall i :: 0 <= i < 4 ==> SuitScore(hand, Suits[i]) <= SuitScore(hand, m.suit))
  {
    FirstTopIsBest(hand);
    assert Suits[0] == S && Suits[1] == H && Suits[2] == D && Suits[3] == C;
  }

  /** The amount botDecideBid reads off the highest bid: a points bid's
      amount; a capot has none, which counts as 0. */
  function CurrentAmount(current: Option<Bid>): int
  {
    if current.Some? && current.value.Points? then current.value.value else 0
  }

  /** botDecideBid: pass below the skill's threshold (8 for an easy bot, 6
      otherwise); else propose 80 plus 10 per point above 6, at most 140,
      raise to 10 over the current amount if that is more, and pass above
      160. */
  function DecideBid(hand: seq<Card>, current: Option<Bid>, easy: bool): BotMove
  {
    var top := TopScore(hand);
    var thresh := if easy then 8 else 6;
    if top < thresh then Pass
    else
      var proposed := if 80 + (top - 6) * 10 < 140 then 80 + (top - 6) * 10 else 140;
      var cur := CurrentAmount(current);
      var bid := if cur + 10 > proposed then cur + 10 else proposed;
      if bid > 160 then Pass else BotBid(bid, FirstTop(hand))
  }

  method BotDecideBid(hand: seq<Card>, current: Option<Bid>, easy: bool) returns (m: BotMove)
    ensures m == DecideBid(hand, current, easy)
  {
    var best, top := BestSuit(hand);
    var thresh := if easy then 8 else 6;
    if top < thresh {
      return Pass;
    }
    var proposed := if 80 + (top - 6) * 10 < 140 then 80 + (top - 6) * 10 else 140;
    var cur := CurrentAmount(current);
    var bid := if cur + 10 > proposed then cur + 10 else proposed;
    if bid > 160 {
      return Pass;
    }
    m := BotBid(bid, best);
  }

  lemma SuitNameUpper(s: Suit)
    ensures AsciiUpper(SuitName(s)) == SuitName(s)
  {
    var n := SuitName(s);
    assert |n| == 1;
    assert AsciiUpper(n)[0] == n[0];
  }

  /** The bot's message carries no type, so handleBid takes it as a points
      bid. A bot's bid over no bid or over a well-formed points bid is one
      handleBid accepts, as the points bid it names; over a capot it is
      refused, since the capot counts as 0. */
  lemma BotBidAccepted(hand: seq<Card>, current: Option<Bid>, easy: bool)
    requires DecideBid(hand, current, easy).BotBid?
    requires current.Some? ==> WellFormedBid(current.value)
    ensures var m := DecideBid(hand, current, easy);
      var r := CheckBid(current, BidMsg("", SuitName(m.suit), Some(m.amount)));
      (current.None? || current.value.Points? ==> r == Accepted(Points(m.amount, m.suit))) &&
      (current.Some? && current.value.Capot? ==> r == Rejected("Can't overcall a capot with points."))
  {
    var m := DecideBid(hand, current, easy);
    SuitNameUpper(m.suit);
    var top := TopScore(hand);
    var proposed := if 80 + (top - 6) * 10 < 140 then 80 + (top - 6) * 10 else 140;
    assert proposed % 10 == 0 && 80 <= proposed;
    assert m.amount % 10 == 0;
  }
}
