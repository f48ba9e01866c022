// Settlement of a finished hand (scoreHand): raw team points, whether the
// contract was made, the contra multiplier and the end-of-game test.

module Settlement {
  import opened Cards

  /** A highest bid / contract: {type:"points", bid, suit} or {type:"capot", suit}. */
  datatype Bid = Points(value: int, suit: Suit) | Capot(suit: Suit)

  /** The raw points of one team: its card points, the 10 for the last trick
      when it took the last trick, and its meld points. */
  function TeamRaw(won: seq<Card>, team: nat, lastTeam: Option<nat>, meld: nat, trump: Suit): nat
  {
    SumPoints(won, trump) + (if lastTeam == Some(team) then 10 else 0) + meld
  }

  /** Card points of a whole dealt deck plus the last-trick bonus: 162,
      whichever way the 32 cards are split between the teams. */
  lemma HandPointsTotal(won0: seq<Card>, won1: seq<Card>, lastTeam: nat, meld0: nat, meld1: nat, trump: Suit)
    requires multiset(won0 + won1) == multiset(FullDeck())
    requires lastTeam < 2
    ensures TeamRaw(won0, 0, Some(lastTeam), meld0, trump) + TeamRaw(won1, 1, Some(lastTeam), meld1, trump)
            == 162 + meld0 + meld1
  {
    SumPointsAppend(won0, won1, trump);
    DealtCardsPoints(won0 + won1, trump);
  }

  /** The contract test: a capot needs all 8 tricks, a points bid needs the
      declarers' raw points to reach the bid. */
  function ContractMade(contract: Bid, declarerTricks: nat, declarerRaw: nat): (made: bool)
    ensures contract.Capot? ==> (made <==> declarerTricks == 8)
    ensures contract.Points? ==> (made <==> declarerRaw >= contract.value)
  {
    match contract
    case Capot(_) => declarerTricks == 8
    case Points(bid, _) => declarerRaw >= bid
  }

  /** The points each team is awarded for the hand. */
  function Award(raw: seq<nat>, declarer: nat, made: bool, contra: nat): (a: seq<nat>)
    requires |raw| == 2 && declarer < 2
    ensures |a| == 2
  {
    if made then [raw[0] * contra, raw[1] * contra]
    else if declarer == 0 then [0, (raw[0] + raw[1]) * contra]
    else [(raw[0] + raw[1]) * contra, 0]
  }

  /** A made contract pays each team its own raw points times contra; a
      failed one pays the declarers nothing and the defenders everything;
      either way the hand pays out exactly (raw0 + raw1) times contra. */
  lemma AwardShares(raw: seq<nat>, declarer: nat, made: bool, contra: nat)
    requires |raw| == 2 && declarer < 2
    ensures var a := Award(raw, declarer, made, contra);
      (made ==> a[0] == raw[0] * contra && a[1] == raw[1] * contra) &&
      (!made ==> a[declarer] == 0 && a[1 - declarer] == (raw[0] + raw[1]) * contra) &&
      a[0] + a[1] == (raw[0] + raw[1]) * contra
  {
    var a := Award(raw, declarer, made, contra);
    if made {
      calc {
        a[0] + a[1];
        raw[0] * contra + raw[1] * contra;
        { MulDistributes(raw[0], raw[1], contra); }
        (raw[0] + raw[1]) * contra;
      }
    }
  }

  lemma MulDistributes(x: nat, y: nat, k: nat)
    ensures x * k + y * k == (x + y) * k
  {
  }

  /** The game ends when either running total reaches the target. */
  predicate GameOver(totals: seq<nat>, target: int)
    requires |totals| == 2
  {
    totals[0] >= target || totals[1] >= target
  }
}
