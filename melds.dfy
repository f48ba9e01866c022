// Declarations (melds): runs of consecutive ranks in one suit, four of a
// kind, each team's best meld, and the use-it-or-lose-it comparison between
// the teams.

module Melds {
  import opened Cards

  /** Natural order used by sequences: 7,8,9,10,J,Q,K,A. */
  const SeqOrder: seq<Rank> := [Seven, Eight, Nine, Ten, Jack, Queen, King, Ace]

  /** Position of a rank in the natural order (nat.indexOf). */
  function NatIndex(r: Rank): (i: nat)
    ensures i < 8 && SeqOrder[i] == r
  {
    match r
    case Seven => 0
    case Eight => 1
    case Nine => 2
    case Ten => 3
    case Jack => 4
    case Queen => 5
    case King => 6
    case Ace => 7
  }

  /** The rank at position i of the natural order. */
  function NatRank(i: nat): (r: Rank)
    requires i < 8
    ensures r == SeqOrder[i] && NatIndex(r) == i
  {
    if i == 0 then Seven else if i == 1 then Eight else if i == 2 then Nine else if i == 3 then Ten
    else if i == 4 then Jack else if i == 5 then Queen else if i == 6 then King else Ace
  }

  /** A run found by longestSequences: {suit, ranks} with ranks low to high. */
  datatype RunSeq = RunSeq(suit: Suit, ranks: seq<Rank>)

  // ---------------------------------------------------------------------
  // longestSequences

  /** The suits of the hand, in the order they first appear (the insertion
      order of the source's bySuit map). */
  function SuitsInOrder(cards: seq<Card>): (r: seq<Suit>)
    ensures forall s :: s in r <==> exists c :: c in cards && c.suit == s
  {
    if cards == [] then []
    else
      var n := |cards| - 1;
      var prev := SuitsInOrder(cards[..n]);
      assert forall c :: c in cards <==> c in cards[..n] || c == cards[n] by {
        assert cards == cards[..n] + [cards[n]];
      }
      if cards[n].suit in prev then prev else prev + [cards[n].suit]
  }

  /** The ranks held in one suit. */
  function RanksOf(cards: seq<Card>, suit: Suit): (r: set<Rank>)
    ensures forall k :: k in r <==> Card(suit, k) in cards
  {
    set c | c in cards && c.suit == suit :: c.rank
  }

  function Close(suit: Suit, run: seq<Rank>): seq<RunSeq>
  {
    if |run| >= 3 then [RunSeq(suit, run)] else []
  }

  /** The scan over the natural order from position i with the current run
      and the runs already closed (acc). */
  function RunsFrom(suit: Suit, held: set<Rank>, i: nat, run: seq<Rank>, acc: seq<RunSeq>): seq<RunSeq>
    requires i <= 8
    decreases 8 - i
  {
    if i == 8 then acc + Close(suit, run)
    else if NatRank(i) in held then RunsFrom(suit, held, i + 1, run + [NatRank(i)], acc)
    else RunsFrom(suit, held, i + 1, [], acc + Close(suit, run))
  }

  function RunsOfSuits(cards: seq<Card>, suits: seq<Suit>): seq<RunSeq>
  {
    if suits == [] then []
    else
      var n := |suits| - 1;
      RunsOfSuits(cards, suits[..n]) + RunsFrom(suits[n], RanksOf(cards, suits[n]), 0, [], [])
  }

  /** Everything longestSequences reports for a hand. */
  function AllRuns(cards: seq<Card>): seq<RunSeq>
  {
    RunsOfSuits(cards, SuitsInOrder(cards))
  }

  /** The first loop of longestSequences: the suits in order of first
      appearance, and the ranks held in each. */
  method GroupBySuit(cards: seq<Card>) returns (suits: seq<Suit>, bySuit: map<Suit, set<Rank>>)
    ensures suits == SuitsInOrder(cards)
    ensures forall s :: s in bySuit <==> s in suits
    ensures forall s :: s in bySuit ==> bySuit[s] == RanksOf(cards, s)
  {
    suits := [];
    bySuit := map[];
    var i := 0;
    while i < |cards|
      invariant 0 <= i <= |cards|
      invariant suits == SuitsInOrder(cards[..i])
      invariant forall s :: s in bySuit <==> s in suits
      invariant forall s :: s in bySuit ==> bySuit[s] == RanksOf(cards[..i], s)
    {
      var c := cards[i];
      assert cards[..i + 1] == cards[..i] + [c];
      GroupStep(cards[..i], c, suits, bySuit);
      if c.suit !in bySuit {
        suits := suits + [c.suit];
        bySuit := bySuit[c.suit := {}];
      }
      bySuit := bySuit[c.suit := bySuit[c.suit] + {c.rank}];
      i := i + 1;
    }
    assert cards[..i] == cards;
  }

  /** One card of the first loop: a new suit is appended and gets an empty
      rank set, then the card's rank joins its suit's set. */
  lemma GroupStep(pre: seq<Card>, c: Card, suits: seq<Suit>, bySuit: map<Suit, set<Rank>>)
    requires suits == SuitsInOrder(pre)
    requires forall s :: s in bySuit <==> s in suits
    requires forall s :: s in bySuit ==> bySuit[s] == RanksOf(pre, s)
    ensures var suits2 := if c.suit in bySuit then suits else suits + [c.suit];
      var m := if c.suit in bySuit then bySuit else bySuit[c.suit := {}];
      var m2 := m[c.suit := m[c.suit] + {c.rank}];
      suits2 == SuitsInOrder(pre + [c]) &&
      (forall s :: s in m2 <==> s in suits2) &&
      (forall s :: s in m2 ==> m2[s] == RanksOf(pre + [c], s))
  {
    assert (pre + [c])[..|pre|] == pre;
    RanksOfSnoc(pre, c);
  }

  lemma RanksOfSnoc(cards: seq<Card>, c: Card)
    ensures forall s :: RanksOf(cards + [c], s) == RanksOf(cards, s) + (if s == c.suit then {c.rank} else {})
  {
  }

  /** The run scan of longestSequences over one suit's ranks. */
  method ScanSuit(suit: Suit, held: set<Rank>) returns (found: seq<RunSeq>)
    ensures found == RunsFrom(suit, held, 0, [], [])
  {
    found := [];
    var run: seq<Rank> := [];
    var j := 0;
    while j < 8
      invariant j <= 8
      invariant RunsFrom(suit, held, j, run, found) == RunsFrom(suit, held, 0, [], [])
    {
      var r := NatRank(j);
      if r in held {
        run := run + [r];
      } else {
        found := found + Close(suit, run);
        run := [];
      }
      j := j + 1;
    }
    found := found + Close(suit, run);
  }

  /** longestSequences: exactly the maximal runs of three or more
      consecutive ranks the hand holds in one suit. */
  method LongestSequences(cards: seq<Card>) returns (seqs: seq<RunSeq>)
    ensures seqs == AllRuns(cards)
    ensures forall q :: q in seqs <==> SoundRun(cards, q)
  {
    var suits, bySuit := GroupBySuit(cards);
    seqs := [];
    var k := 0;
    while k < |suits|
      invariant 0 <= k <= |suits|
      invariant seqs == RunsOfSuits(cards, suits[..k])
    {
      var suit := suits[k];
      assert suits[..k + 1][..k] == suits[..k];
      var found := ScanSuit(suit, bySuit[suit]);
      seqs := seqs + found;
      k := k + 1;
    }
    assert suits[..k] == suits;
    AllRunsSound(cards);
    forall q | SoundRun(cards, q)
      ensures q in seqs
    {
      AllRunsComplete(cards, q);
    }
  }

  /** A reported run: at least three consecutive ranks of the natural order,
      all held in that suit, and maximal (neither neighbour is held). */
  predicate SoundRun(cards: seq<Card>, q: RunSeq)
  {
    var n := |q.ranks|;
    n >= 3 &&
    var k := NatIndex(q.ranks[0]);
    k + n <= 8 && q.ranks == SeqOrder[k..k + n] &&
    (forall r :: r in q.ranks ==> Card(q.suit, r) in cards) &&
    (k == 0 || Card(q.suit, SeqOrder[k - 1]) !in cards) &&
    (k + n == 8 || Card(q.suit, SeqOrder[k + n]) !in cards)
  }

  /** A run closed at position i (i == 8 or the rank at i is not held) is
      sound once it is long enough. */
  lemma CloseSound(cards: seq<Card>, suit: Suit, i: nat, run: seq<Rank>)
    requires i <= 8 && |run| <= i
    requires run == SeqOrder[i - |run|..i]
    requires forall r :: r in run ==> Card(suit, r) in cards
    requires i - |run| == 0 || Card(suit, SeqOrder[i - |run| - 1]) !in cards
    requires i == 8 || Card(suit, SeqOrder[i]) !in cards
    ensures forall q :: q in Close(suit, run) ==> SoundRun(cards, q)
  {
    if |run| >= 3 {
      var k := i - |run|;
      assert run[0] == SeqOrder[k];
      assert NatIndex(run[0]) == k by {
        assert SeqOrder[NatIndex(run[0])] == SeqOrder[k];
      }
      assert SoundRun(cards, RunSeq(suit, run));
    }
  }

  lemma {:induction false} RunsFromSound(cards: seq<Card>, suit: Suit, i: nat, run: seq<Rank>, acc: seq<RunSeq>)
    requires i <= 8 && |run| <= i
    requires run == SeqOrder[i - |run|..i]
    requires forall r :: r in run ==> Card(suit, r) in cards
    requires i - |run| == 0 || Card(suit, SeqOrder[i - |run| - 1]) !in cards
    ensures forall q :: q in RunsFrom(suit, RanksOf(cards, suit), i, run, acc) ==> q in acc || SoundRun(cards, q)
    decreases 8 - i
  {
    var held := RanksOf(cards, suit);
    if i == 8 {
      CloseSound(cards, suit, i, run);
    } else {
      var r := NatRank(i);
      if r in held {
        ExtendRun(i, run);
        RunsFromSound(cards, suit, i + 1, run + [r], acc);
      } else {
        CloseSound(cards, suit, i, run);
        RunsFromSound(cards, suit, i + 1, [], acc + Close(suit, run));
      }
    }
  }

  lemma {:induction false} RunsOfSuitsSound(cards: seq<Card>, suits: seq<Suit>)
    ensures forall q :: q in RunsOfSuits(cards, suits) ==> SoundRun(cards, q)
  {
    if suits != [] {
      var n := |suits| - 1;
      RunsOfSuitsSound(cards, suits[..n]);
      RunsFromSound(cards, suits[n], 0, [], []);
    }
  }

  /** Every run longestSequences reports is a maximal run of three or more
      consecutive ranks the hand holds in one suit. */
  lemma AllRunsSound(cards: seq<Card>)
    ensures forall q :: q in AllRuns(cards) ==> SoundRun(cards, q)
  {
    RunsOfSuitsSound(cards, SuitsInOrder(cards));
  }

  /** The runs already closed stay in the scan's result. */
  lemma {:induction false} RunsFromKeeps(suit: Suit, held: set<Rank>, i: nat, run: seq<Rank>, acc: seq<RunSeq>)
    requires i <= 8
    ensures forall x :: x in acc ==> x in RunsFrom(suit, held, i, run, acc)
    decreases 8 - i
  {
    if i < 8 {
      if NatRank(i) in held {
        RunsFromKeeps(suit, held, i + 1, run + [NatRank(i)], acc);
      } else {
        RunsFromKeeps(suit, held, i + 1, [], acc + Close(suit, run));
      }
    }
  }

  /** A held rank extends the current run by the next rank of the order. */
  lemma ExtendRun(i: nat, run: seq<Rank>)
    requires i < 8 && |run| <= i && run == SeqOrder[i - |run|..i]
    ensures run + [NatRank(i)] == SeqOrder[i - |run|..i + 1]
  {
    assert SeqOrder[i - |run|..i + 1] == SeqOrder[i - |run|..i] + [SeqOrder[i]];
  }

  /** The scan from position i finds the maximal held run SeqOrder[k..k+n]
      when it has not yet passed the run's end, and the current run is the
      run's part before i once the scan is inside it. */
  lemma {:induction false} RunsFromComplete(suit: Suit, held: set<Rank>, i: nat, run: seq<Rank>, acc: seq<RunSeq>,
                                            k: nat, n: nat)
    requires i <= 8 && |run| <= i && run == SeqOrder[i - |run|..i]
    requires forall r :: r in run ==> r in held
    requires n >= 3 && k + n <= 8 && i <= k + n
    requires forall j :: k <= j < k + n ==> SeqOrder[j] in held
    requires k == 0 || SeqOrder[k - 1] !in held
    requires k + n == 8 || SeqOrder[k + n] !in held
    requires k <= i ==> i - |run| == k
    ensures RunSeq(suit, SeqOrder[k..k + n]) in RunsFrom(suit, held, i, run, acc)
    decreases 8 - i
  {
    if i == 8 || i == k + n {
      assert run == SeqOrder[k..k + n];
      if i < 8 {
        RunsFromKeeps(suit, held, i + 1, [], acc + Close(suit, run));
      }
    } else {
      var r := NatRank(i);
      ExtendRun(i, run);
      if r in held {
        RunsFromComplete(suit, held, i + 1, run + [r], acc, k, n);
      } else {
        RunsFromComplete(suit, held, i + 1, [], acc + Close(suit, run), k, n);
      }
    }
  }

  /** The runs of every suit in the list are among RunsOfSuits. */
  lemma {:induction false} RunsOfSuitsHas(cards: seq<Card>, suits: seq<Suit>, s: Suit)
    requires s in suits
    ensures forall x :: x in RunsFrom(s, RanksOf(cards, s), 0, [], []) ==> x in RunsOfSuits(cards, suits)
  {
    var n := |suits| - 1;
    assert suits == suits[..n] + [suits[n]];
    if suits[n] != s {
      RunsOfSuitsHas(cards, suits[..n], s);
    }
  }

  /** Every maximal run of three or more consecutive ranks the hand holds in
      one suit is reported. */
  lemma AllRunsComplete(cards: seq<Card>, q: RunSeq)
    requires SoundRun(cards, q)
    ensures q in AllRuns(cards)
  {
    var k, n := SoundRunHeld(cards, q);
    RunsFromComplete(q.suit, RanksOf(cards, q.suit), 0, [], [], k, n);
    RunsOfSuitsHas(cards, SuitsInOrder(cards), q.suit);
  }

  /** A hand holding the seven, eight and nine of spades but not the ten
      reports that run of three. */
  lemma LowSpadesReported(cards: seq<Card>)
    requires Card(S, Seven) in cards && Card(S, Eight) in cards && Card(S, Nine) in cards
    requires Card(S, Ten) !in cards
    ensures RunSeq(S, [Seven, Eight, Nine]) in AllRuns(cards)
  {
    var q := RunSeq(S, [Seven, Eight, Nine]);
    assert SeqOrder[0..3] == [Seven, Eight, Nine];
    assert SoundRun(cards, q);
    AllRunsComplete(cards, q);
  }

  /** A sound run read over the ranks its suit holds: it starts at k, runs
      for n ranks, and neither neighbour is held. */
  lemma SoundRunHeld(cards: seq<Card>, q: RunSeq) returns (k: nat, n: nat)
    requires SoundRun(cards, q)
    ensures var held := RanksOf(cards, q.suit);
      n >= 3 && k + n <= 8 && q == RunSeq(q.suit, SeqOrder[k..k + n]) &&
      (forall j :: k <= j < k + n ==> SeqOrder[j] in held) &&
      (k == 0 || SeqOrder[k - 1] !in held) && (k + n == 8 || SeqOrder[k + n] !in held) &&
      q.suit in SuitsInOrder(cards)
  {
    n := |q.ranks|;
    k := NatIndex(q.ranks[0]);
    assert Card(q.suit, q.ranks[0]) in cards;
    RunRanksHeld(cards, q);
  }

  /** Every rank of a sound run is held in its suit. */
  lemma RunRanksHeld(cards: seq<Card>, q: RunSeq)
    requires SoundRun(cards, q)
    ensures var k := NatIndex(q.ranks[0]);
      forall j :: k <= j < k + |q.ranks| ==> SeqOrder[j] in RanksOf(cards, q.suit)
  {
    var k := NatIndex(q.ranks[0]);
    forall j | k <= j < k + |q.ranks|
      ensures SeqOrder[j] in RanksOf(cards, q.suit)
    {
      assert q.ranks[j - k] == SeqOrder[j] && q.ranks[j - k] in q.ranks;
      assert Card(q.suit, SeqOrder[j]) in cards;
    }
  }

  // ---------------------------------------------------------------------
  // meldValueForSequence and bestSequence

  function MeldValueForSequence(len: int): (v: nat)
    ensures v == 0 <==> len < 3
    ensures len >= 3 ==> v == (if len == 3 then 20 else if len == 4 then 50 else 100)
  {
    if len >= 5 then 100
    else if len == 4 then 50
    else if len == 3 then 20
    else 0
  }

  /** A longer sequence never scores less. */
  lemma MeldValueMonotone(a: int, b: int)
    requires a <= b
    ensures MeldValueForSequence(a) <= MeldValueForSequence(b)
  {
  }

  /** topRankIndex: natural index of the last rank (-1 for an empty run, as indexOf(undefined)). */
  function TopIndex(q: RunSeq): int
  {
    if q.ranks == [] then -1 else NatIndex(q.ranks[|q.ranks| - 1])
  }

  /** a sorts strictly before b under bestSequence's comparator. */
  predicate SeqBeats(a: RunSeq, b: RunSeq)
  {
    |a.ranks| > |b.ranks| || (|a.ranks| == |b.ranks| && TopIndex(a) > TopIndex(b))
  }

  /** The position the stable sort of bestSequence brings to the front: a run
      nothing beats, and the first such. */
  function BestSequenceIndex(seqs: seq<RunSeq>): (j: nat)
    requires seqs != []
    ensures j < |seqs|
    ensures forall i :: 0 <= i < |seqs| ==> !SeqBeats(seqs[i], seqs[j])
    ensures forall i :: 0 <= i < j ==> SeqBeats(seqs[j], seqs[i])
  {
    if |seqs| == 1 then 0
    else
      var t := 1 + BestSequenceIndex(seqs[1..]);
      assert forall i :: 1 <= i < |seqs| ==> seqs[1..][i - 1] == seqs[i];
      if SeqBeats(seqs[t], seqs[0]) then t else 0
  }

  function BestSequence(seqs: seq<RunSeq>): (r: Option<RunSeq>)
    ensures r.None? <==> seqs == []
    ensures r.Some? ==> r.value in seqs && forall q :: q in seqs ==> !SeqBeats(q, r.value)
  {
    if seqs == [] then None else Some(seqs[BestSequenceIndex(seqs)])
  }

  // ---------------------------------------------------------------------
  // fourOfAKind

  datatype Quad = Quad(rank: Rank, points: nat)

  function FourPoints(r: Rank): nat
  {
    match r
    case Jack => 200
    case Nine => 150
    case Ace => 100
    case Ten => 100
    case King => 100
    case Queen => 100
    case Eight => 0
    case Seven => 0
  }

  function CountRank(cards: seq<Card>, r: Rank): nat
  {
    if cards == [] then 0
    else CountRank(cards[..|cards| - 1], r) + (if cards[|cards| - 1].rank == r then 1 else 0)
  }

  /** The order fourOfAKind's sort produces: points high to low, then natural
      rank high to low (J 200, 9 150, then A, K, Q, 10 at 100). */
  const QuadOrder: seq<Rank> := [Jack, Nine, Ace, King, Queen, Ten]

  function QuadsIn(cards: seq<Card>, order: seq<Rank>): seq<Quad>
  {
    if order == [] then []
    else
      var n := |order| - 1;
      QuadsIn(cards, order[..n]) +
        (if CountRank(cards, order[n]) == 4 && FourPoints(order[n]) > 0 then [Quad(order[n], FourPoints(order[n]))] else [])
  }

  function Quads(cards: seq<Card>): seq<Quad>
  {
    QuadsIn(cards, QuadOrder)
  }

  method FourOfAKind(cards: seq<Card>) returns (res: seq<Quad>)
    ensures res == Quads(cards)
  {
    var counts: map<Rank, nat> := map[];
    var i := 0;
    while i < |cards|
      invariant 0 <= i <= |cards|
      invariant forall r :: CountRank(cards[..i], r) == (if r in counts then counts[r] else 0)
    {
      var r := cards[i].rank;
      assert cards[..i + 1][..i] == cards[..i];
      counts := counts[r := (if r in counts then counts[r] else 0) + 1];
      i := i + 1;
    }
    assert cards[..i] == cards;
    res := [];
    for k := 0 to |QuadOrder|
      invariant res == QuadsIn(cards, QuadOrder[..k])
    {
      var r := QuadOrder[k];
      assert QuadOrder[..k + 1][..k] == QuadOrder[..k];
      var n := if r in counts then counts[r] else 0;
      if n == 4 {
        var pts := FourPoints(r);
        if pts > 0 {
          res := res + [Quad(r, pts)];
        }
      }
    }
    assert QuadOrder[..|QuadOrder|] == QuadOrder;
  }

  lemma {:induction false} QuadsInMembers(cards: seq<Card>, order: seq<Rank>)
    ensures forall q :: q in QuadsIn(cards, order) <==>
      q.rank in order && CountRank(cards, q.rank) == 4 && q.points == FourPoints(q.rank) && q.points > 0
  {
    if order != [] {
      var n := |order| - 1;
      QuadsInMembers(cards, order[..n]);
      assert order == order[..n] + [order[n]];
    }
  }

  /** fourOfAKind reports exactly the ranks held four times that carry a
      bonus (J 200, 9 150, A/10/K/Q 100; four 8s or 7s score nothing). */
  lemma QuadsExact(cards: seq<Card>, q: Quad)
    ensures q in Quads(cards) <==> CountRank(cards, q.rank) == 4 && q.points == FourPoints(q.rank) && q.points > 0
  {
    QuadsInMembers(cards, QuadOrder);
    if FourPoints(q.rank) > 0 {
      assert q.rank in QuadOrder by {
        match q.rank
        case Jack => assert QuadOrder[0] == q.rank;
        case Nine => assert QuadOrder[1] == q.rank;
        case Ace => assert QuadOrder[2] == q.rank;
        case King => assert QuadOrder[3] == q.rank;
        case Queen => assert QuadOrder[4] == q.rank;
        case Ten => assert QuadOrder[5] == q.rank;
      }
    }
  }

  // ---------------------------------------------------------------------
  // computeMelds: each team's detail, its best meld and the comparison

  datatype Meld =
    | Sequence(seat: nat, suit: Suit, len: nat, top: Rank, points: nat)
    | Four(seat: nat, rank: Rank, points: nat)

  /** cmp(a, b) > 0 when b is the better meld. */
  function Cmp(a: Meld, b: Meld): int
  {
    if a.Four? != b.Four? then (if a.Four? then -1 else 1)
    else if a.Four? then
      (if b.points != a.points then b.points - a.points else NatIndex(b.rank) - NatIndex(a.rank))
    else
      (if b.len != a.len then b.len - a.len else NatIndex(b.top) - NatIndex(a.top))
  }

  /** The ranking the comparisons implement: four of a kind above every
      sequence; fours by points, then rank; sequences by length, then top. */
  function KindKey(m: Meld): nat { if m.Four? then 1 else 0 }
  function MajorKey(m: Meld): int { if m.Four? then m.points else m.len }
  function MinorKey(m: Meld): int { NatIndex(if m.Four? then m.rank else m.top) }

  predicate Outranks(a: Meld, b: Meld)
  {
    KindKey(a) > KindKey(b) ||
    (KindKey(a) == KindKey(b) && (MajorKey(a) > MajorKey(b) ||
      (MajorKey(a) == MajorKey(b) && MinorKey(a) > MinorKey(b))))
  }

  lemma CmpMeansOutranks(a: Meld, b: Meld)
    ensures Cmp(a, b) > 0 <==> Outranks(b, a)
  {
  }

  /** The best of a team's detail: scanning in order, a meld replaces the
      current best only when it outranks it. */
  function BestMeld(detail: seq<Meld>): (b: Option<Meld>)
    ensures b.None? <==> detail == []
    ensures b.Some? ==> b.value in detail && forall d :: d in detail ==> !Outranks(d, b.value)
  {
    if detail == [] then None
    else
      var n := |detail| - 1;
      var prev := BestMeld(detail[..n]);
      assert forall d :: d in detail <==> d in detail[..n] || d == detail[n] by {
        assert detail == detail[..n] + [detail[n]];
      }
      match prev
      case None => Some(detail[n])
      case Some(p) => if Cmp(p, detail[n]) > 0 then Some(detail[n]) else prev
  }

  function SumMeldPoints(detail: seq<Meld>): nat
  {
    if detail == [] then 0 else SumMeldPoints(detail[..|detail| - 1]) + detail[|detail| - 1].points
  }

  function SeatDetail(seat: nat, hand: seq<Card>): seq<Meld>
  {
    SequenceDetail(seat, hand) + FoursDetail(seat, Quads(hand))
  }

  /** The seat's best sequence as a meld candidate, if it has one. */
  function SequenceDetail(seat: nat, hand: seq<Card>): seq<Meld>
  {
    match BestSequence(AllRuns(hand))
    case None => []
    case Some(q) =>
      var n := |q.ranks|;
      [Sequence(seat, q.suit, n, if n == 0 then Seven else q.ranks[n - 1], MeldValueForSequence(n))]
  }

  function FoursDetail(seat: nat, quads: seq<Quad>): (r: seq<Meld>)
    ensures |r| == |quads|
    ensures forall i :: 0 <= i < |quads| ==> r[i] == Four(seat, quads[i].rank, quads[i].points)
  {
    if quads == [] then []
    else FoursDetail(seat, quads[..|quads| - 1]) + [Four(seat, quads[|quads| - 1].rank, quads[|quads| - 1].points)]
  }

  /** allDetail of a team: its two seats in seat order (team 0: 0 and 2,
      team 1: 1 and 3). */
  function TeamDetail(hands: seq<seq<Card>>, team: nat): seq<Meld>
    requires |hands| == 4 && team < 2
  {
    SeatDetail(team, hands[team]) + SeatDetail(team + 2, hands[team + 2])
  }

  /** Every meld in a seat's detail is worth points: a sequence is at least
      three long, a four is listed only when it scores. */
  lemma {:induction false} SeatDetailPositive(seat: nat, hand: seq<Card>)
    ensures forall d :: d in SeatDetail(seat, hand) ==> d.points > 0
  {
    AllRunsSound(hand);
    forall q: Quad | q in Quads(hand) ensures q.points > 0 {
      QuadsExact(hand, q);
    }
  }

  lemma {:induction false} SumMeldPointsPositive(detail: seq<Meld>)
    requires forall d :: d in detail ==> d.points > 0
    ensures SumMeldPoints(detail) > 0 <==> detail != []
  {
    if detail != [] {
      var n := |detail| - 1;
      assert detail[n] in detail;
      assert forall d :: d in detail[..n] ==> d in detail;
      SumMeldPointsPositive(detail[..n]);
    }
  }

  /** The best of the seat's longest sequences, as a meld candidate. */
  method GatherSequence(seat: nat, cards: seq<Card>) returns (detail: seq<Meld>)
    ensures detail == SequenceDetail(seat, cards)
  {
    detail := [];
    var seqs := LongestSequences(cards);
    var bestSeq := BestSequence(seqs);
    if bestSeq.Some? {
      var n := |bestSeq.value.ranks|;
      var top := if n == 0 then Seven else bestSeq.value.ranks[n - 1];
      detail := [Sequence(seat, bestSeq.value.suit, n, top, MeldValueForSequence(n))];
    }
  }

  /** The candidates one seat contributes: its best sequence, then its fours. */
  method GatherSeat(seat: nat, cards: seq<Card>) returns (detail: seq<Meld>)
    ensures detail == SeatDetail(seat, cards)
  {
    detail := GatherSequence(seat, cards);
    var head := detail;
    var fours := FourOfAKind(cards);
    for f := 0 to |fours|
      invariant detail == head + FoursDetail(seat, fours[..f])
    {
      assert fours[..f + 1][..f] == fours[..f];
      detail := detail + [Four(seat, fours[f].rank, fours[f].points)];
    }
    assert fours[..|fours|] == fours;
  }

  /** The scan for the best meld: a candidate replaces the best only when
      cmp says it is better. */
  method BestOf(detail: seq<Meld>) returns (best: Option<Meld>)
    ensures best == BestMeld(detail)
  {
    best := None;
    var i := 0;
    while i < |detail|
      invariant 0 <= i <= |detail|
      invariant best == BestMeld(detail[..i])
    {
      assert detail[..i + 1][..i] == detail[..i];
      if best.None? {
        best := Some(detail[i]);
      } else if Cmp(best.value, detail[i]) > 0 {
        best := Some(detail[i]);
      }
      i := i + 1;
    }
    assert detail[..i] == detail;
  }

  method TotalOf(detail: seq<Meld>) returns (total: nat)
    ensures total == SumMeldPoints(detail)
  {
    total := 0;
    var j := 0;
    while j < |detail|
      invariant 0 <= j <= |detail|
      invariant total == SumMeldPoints(detail[..j])
    {
      assert detail[..j + 1][..j] == detail[..j];
      total := total + detail[j].points;
      j := j + 1;
    }
    assert detail[..j] == detail;
  }

  /** bestMeldForTeam: the detail gathered over the team's seats in seat
      order, its best meld and its total; a team scores meld points exactly
      when it has a meld. */
  method BestMeldForTeam(hands: seq<seq<Card>>, team: nat) returns (best: Option<Meld>, total: nat)
    requires |hands| == 4 && team < 2
    ensures best == BestMeld(TeamDetail(hands, team))
    ensures total == SumMeldPoints(TeamDetail(hands, team))
    ensures total > 0 <==> best.Some?
  {
    // seatCards.filter(x => TEAM_OF_SEAT(x.seat) === team): the seats team
    // and team + 2, in seat order
    var first := GatherSeat(team, hands[team]);
    var second := GatherSeat(team + 2, hands[team + 2]);
    var allDetail := first + second;
    best := BestOf(allDetail);
    total := TotalOf(allDetail);
    TeamTotalPositive(hands, team);
  }

  /** A team's meld total is positive exactly when it has a best meld. */
  lemma TeamTotalPositive(hands: seq<seq<Card>>, team: nat)
    requires |hands| == 4 && team < 2
    ensures SumMeldPoints(TeamDetail(hands, team)) > 0 <==> BestMeld(TeamDetail(hands, team)).Some?
  {
    var detail := TeamDetail(hands, team);
    SeatDetailPositive(team, hands[team]);
    SeatDetailPositive(team + 2, hands[team + 2]);
    assert forall d :: d in detail ==> d in SeatDetail(team, hands[team]) || d in SeatDetail(team + 2, hands[team + 2]);
    SumMeldPointsPositive(detail);
  }

  /** better(t0, t1): which team's best meld wins, if any. */
  function Better(a: Option<Meld>, b: Option<Meld>): Option<nat>
  {
    if a.None? && b.None? then None
    else if a.Some? && b.None? then Some(0)
    else if a.None? && b.Some? then Some(1)
    else
      var x := a.value;
      var y := b.value;
      if x.Four? != y.Four? then (if x.Four? then Some(0) else Some(1))
      else if x.Four? then
        (if x.points != y.points then (if x.points > y.points then Some(0) else Some(1))
         else if NatIndex(x.rank) > NatIndex(y.rank) then Some(0) else Some(1))
      else if x.len != y.len then (if x.len > y.len then Some(0) else Some(1))
      else if NatIndex(x.top) > NatIndex(y.top) then Some(0) else Some(1)
  }

  /** The comparison between teams: no winner only when neither team has a
      meld; team 0 wins exactly when its best strictly outranks team 1's
      (in particular four of a kind beats any sequence); an exact tie goes
      to team 1. */
  lemma BetterRanks(a: Option<Meld>, b: Option<Meld>)
    ensures Better(a, b).None? <==> a.None? && b.None?
    ensures a.Some? && b.None? ==> Better(a, b) == Some(0)
    ensures a.None? && b.Some? ==> Better(a, b) == Some(1)
    ensures a.Some? && b.Some? ==>
      (Better(a, b) == Some(0) <==> Outranks(a.value, b.value)) &&
      (Better(a, b) == Some(1) <==> !Outranks(a.value, b.value))
    ensures a.Some? && b.Some? && a.value.Four? && b.value.Sequence? ==> Better(a, b) == Some(0)
    ensures a.Some? && b.Some? && KindKey(a.value) == KindKey(b.value) &&
            MajorKey(a.value) == MajorKey(b.value) && MinorKey(a.value) == MinorKey(b.value) ==>
              Better(a, b) == Some(1)
  {
  }

  /** belote holders: the seats holding both K and Q of trump. */
  function BeloteHolders(hands: seq<seq<Card>>, trump: Suit): (r: set<nat>)
    requires |hands| == 4
    ensures forall s: nat :: s in r <==> s < 4 && Card(trump, King) in hands[s] && Card(trump, Queen) in hands[s]
  {
    set s: nat | s < 4 && Card(trump, King) in hands[s] && Card(trump, Queen) in hands[s]
  }

  datatype MeldResult = MeldResult(team0: nat, team1: nat, holders: set<nat>)

  /** The meld points a team is credited with: its whole total when its
      best meld wins the comparison, nothing otherwise. */
  function TeamMeldPoints(hands: seq<seq<Card>>, team: nat): nat
    requires |hands| == 4 && team < 2
  {
    var winner := Better(BestMeld(TeamDetail(hands, 0)), BestMeld(TeamDetail(hands, 1)));
    if winner == Some(team) then SumMeldPoints(TeamDetail(hands, team)) else 0
  }

  /** The use-it-or-lose-it rule: the team whose best meld wins scores its
      whole total, the other team scores nothing. */
  method AwardMelds(best0: Option<Meld>, total0: nat, best1: Option<Meld>, total1: nat) returns (team0: nat, team1: nat)
    requires total0 > 0 <==> best0.Some?
    requires total1 > 0 <==> best1.Some?
    ensures team0 == 0 || team1 == 0
    ensures team0 > 0 <==> Better(best0, best1) == Some(0)
    ensures team1 > 0 <==> Better(best0, best1) == Some(1)
    ensures team0 > 0 ==> team0 == total0
    ensures team1 > 0 ==> team1 == total1
  {
    var winner := Better(best0, best1);
    BetterRanks(best0, best1);
    team0, team1 := 0, 0;
    if winner == Some(0) {
      team0 := total0;
    } else if winner == Some(1) {
      team1 := total1;
    }
  }

  /** The seats whose hands hold both the king and the queen of trump. */
  method FindBeloteHolders(hands: seq<seq<Card>>, trump: Suit) returns (holders: set<nat>)
    requires |hands| == 4
    ensures holders == BeloteHolders(hands, trump)
  {
    holders := {};
    for seat := 0 to 4
      invariant holders == set s: nat | s < seat && Card(trump, King) in hands[s] && Card(trump, Queen) in hands[s]
    {
      if Card(trump, King) in hands[seat] && Card(trump, Queen) in hands[seat] {
        holders := holders + {seat};
      }
    }
  }

  /** computeMelds: only the team with the better best meld scores all its
      meld points; the other scores none; neither scores when no team has
      a meld. */
  method ComputeMelds(hands: seq<seq<Card>>, trump: Suit) returns (m: MeldResult)
    requires |hands| == 4
    ensures m.team0 == 0 || m.team1 == 0
    ensures var b0 := BestMeld(TeamDetail(hands, 0));
            var b1 := BestMeld(TeamDetail(hands, 1));
            (m.team0 > 0 <==> Better(b0, b1) == Some(0)) &&
            (m.team1 > 0 <==> Better(b0, b1) == Some(1)) &&
            (b0.None? && b1.None? ==> m.team0 == 0 && m.team1 == 0)
    ensures m.team0 > 0 ==> m.team0 == SumMeldPoints(TeamDetail(hands, 0))
    ensures m.team1 > 0 ==> m.team1 == SumMeldPoints(TeamDetail(hands, 1))
    ensures m.holders == BeloteHolders(hands, trump)
    ensures m.team0 == TeamMeldPoints(hands, 0) && m.team1 == TeamMeldPoints(hands, 1)
  {
    var best0, total0 := BestMeldForTeam(hands, 0);
    var best1, total1 := BestMeldForTeam(hands, 1);
    var team0, team1 := AwardMelds(best0, total0, best1, total1);
    BetterRanks(best0, best1);
    var holders := FindBeloteHolders(hands, trump);
    m := MeldResult(team0, team1, holders);
  }
}
