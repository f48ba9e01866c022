# Belote (Blot) game server — rules engine model

A Dafny model of the rules engine of the Belote/Blot game server
(`server/server.js`). The engine covers:

- the 32-card deck and its card ids;
- trick ranking and card points;
- the melds computed at the end of the auction: sequences, four of a kind and belote;
- the auction: bids, passes, contra and recontra;
- trick play, with follow suit, forced trump and overtrump under the Armenian partner rule;
- settlement of a hand: the last-trick bonus, contract made or failed, the contra multiplier and the end of the game;
- rooms: seats, spectators, joining, leaving, disconnection and the purge after the grace period;
- the room table;
- the bots' bidding heuristics, given the bot's hand.

The modules follow the program's sections:

| module | file | what it holds |
|---|---|---|
| `Cards` | cards.dfy | suits, ranks, card ids, `isHigher`, `cardPoints`, the deck and its 152 card points |
| `Tricks` | tricks.dfy | `currentTrickWinner`, `legalPlays` |
| `Melds` | melds.dfy | `longestSequences`, `meldValueForSequence`, `bestSequence`, `fourOfAKind`, `beloteHolders`, `computeMelds` |
| `Settlement` | scoring.dfy | the arithmetic of `scoreHand` |
| `State` | state.dfy | `makeInitialGameState`, `seatIndexForPlayer`, `canStart`, the deal, the room invariant |
| `Rules` | rules.dfy | `startHand`, `handleBid`, `handlePass`, `handleContra`, `handleRecontra`, `endBidding`, `playCard` as functions on the game state, and what each keeps |
| `Rooms`, `Lobby` | room.dfy | `class Room` and its handlers; `class Registry`, the `rooms` map |
| `Bots` | bots.dfy | `botChooseBid`, `botDecideBid`, on a hand given as a parameter |

Modelling choices:

- `room.state` is replaced wholesale by the server (`makeInitialGameState`), so it is a datatype value in a field of the `Room` class. The handlers reassign it.
- Each handler is a method whose new state equals a function of the old one (`AfterBid`, `PassResult`, `ContraResult`, `PlaySpec`, `Settle`, …). The lemmas about those functions prove what the handler keeps.
- The invariant `ValidRoom` holds after every handler. Under it:
  - seats are distinct;
  - every seat is taken once a game has started;
  - the 32 cards are conserved across the hands, the won tricks and the trick on the table;
  - the phase, turn, contract, trump and belote fields are consistent.
- Hands, belote holders and belote awardees are indexed by seat. The source keys them by player id. The two agree because the occupant of a seat cannot change while a hand is in progress: emptying a seat mid-hand resets the game to the lobby.
- The seat passed to a handler is an `int`. It is -1 for a player who is not seated, as `seatIndexForPlayer` returns. So `TEAM_OF_SEAT(-1)` is team 1 in contra and recontra, as in the source.
- The shuffled deck is a parameter: any permutation of the 32 cards. Room ids are parameters too.
- The `rooms` map is the field of class `Registry`. Its invariant includes that each id maps to a room object of its own, as `makeRoom` builds a fresh room for every `room:create`; so a handler acting on one room leaves every other room unchanged.
- A bid's `type` is the text of the message (`""` when absent, taken as points). Its amount is `None` when it is not a finite number.

Behaviour of the source that the model keeps and proves as written:

- `game:next` rebuilds the state around the totals and the dealer. The hand number is reset to 0 and `startHand` makes it 1, so `startHand` does not rotate the dealer: every hand started by `game:next` is dealt by the game's first dealer (`NextHandKeepsDealer`).
- A recontra is accepted whenever the trick on the table is empty, not only before the first trick (`RecontraAllowed`).
- A contra is not tied to the turn (`ContraAllowed`).
- After a capot, a further capot is accepted and replaces it (`CheckBidAccepts`).
- `room:ready` is not tied to the phase.
- The bot's bid message carries no type, so it is a points bid. Over a capot it is refused (`BotBidAccepted`).

## Model

| member | source | states |
|---|---|---|
| Cards.TeamOfSeat | server/server.js:44 | team 0 exactly for seats 0 and 2, team 1 for every other seat (-1 included) |
| Cards.NextSeat | server/server.js:641 | the next seat clockwise, 3 wrapping to 0, always a seat |
| Cards.ParseSuit | server/server.js:1049-1050 | recognises exactly the four suit letters, returning the suit that letter names |
| Cards.ParseRank | server/server.js:74-78 | recognises exactly the eight rank names, returning the rank that name names |
| Cards.CardId | server/server.js:73 | an id is the rank name followed by the one-letter suit, 2 or 3 characters |
| Cards.ParseCardId | server/server.js:74-79 | parseCard yields a card exactly for the ids cardId produces, and yields that card (round trip both ways) |
| Cards.CardIdInjective | server/server.js:73 | distinct cards have distinct ids |
| Cards.RankIndex | server/server.js:82-91 | the position of the rank in TRUMP_ORDER or PLAIN_ORDER |
| Cards.RankIndexInjective | server/server.js:88-91 | two ranks share a position exactly when they are equal |
| Cards.IsHigherStrict | server/server.js:93-111 | "beats" is irreflexive, asymmetric and transitive in a fixed trick context |
| Cards.IsHigherShape | server/server.js:93-111 | trump beats non-trump; a card neither trump nor of the lead suit beats nothing; two distinct cards of the trump or lead suit are ordered one way |
| Cards.CardPoints | server/server.js:113-116 | a card is worth at most 20, and 20 only as the jack of trump |
| Cards.SumPointsAppend | server/server.js:971-976 | the points of two piles together are the sum of their points |
| Cards.RemoveOne | server/server.js:971-976 | removing one card from a pile removes exactly one copy of it |
| Cards.SumPointsRemoveOne | server/server.js:971-976 | a pile is worth one of its cards plus the rest |
| Cards.SumPointsPermutation | server/server.js:971-976 | the points of a pile do not depend on its order |
| Cards.FullDeck | server/server.js:651-657 | the deck built in startHand has 32 cards |
| Cards.FullDeckExact | server/server.js:651-657 | every card occurs exactly once in the deck |
| Cards.SuitPoints | server/server.js:85-86 | a suit is worth 62 as trump and 30 otherwise |
| Cards.DeckPoints | server/server.js:85-86 | the whole deck is worth 152 card points whatever the trump |
| Cards.DealtCardsPoints | server/server.js:971-976 | any arrangement of the 32 cards is worth 152 |
| Tricks.OfSuit | server/server.js:858 | the hand's cards of a suit, and nothing else; empty exactly when the hand has none |
| Tricks.Beating | server/server.js:864 | the cards that beat the winning card, and nothing else; empty exactly when none does |
| Tricks.PlayedCards | server/server.js:942-944 | the cards of a trick's plays, in play order |
| Tricks.TrickWinner | server/server.js:837-845 | the winner is one of the plays, of the lead suit or trump, and no play beats it |
| Tricks.TrickWinnerStep | server/server.js:841-843 | one more play takes the trick exactly when it beats the current winner |
| Tricks.CurrentTrickWinner | server/server.js:837-845 | null exactly for an empty trick, otherwise the trick's winner |
| Tricks.LegalPlays | server/server.js:847-889 | legal cards come from the hand (with no extra copies), and a non-empty hand always has a legal card |
| Tricks.LegalWhenFollowing | server/server.js:855-868 | holding the lead suit, a card is legal exactly when it is of the lead suit, and when trump is led and the hand can beat the winner, exactly when it also beats the winner |
| Tricks.LegalWhenFreeDiscard | server/server.js:870-882 | void in the lead suit, and void in trump or with the partner winning: the whole hand is legal |
| Tricks.LegalWhenForcedTrump | server/server.js:884-888 | void in the lead suit, holding trump, an opponent winning: a card is legal exactly when it is a trump, and beats the winner if some trump of the hand does |
| Melds.NatIndex | server/server.js:122 | the position of a rank in the natural order 7..A |
| Melds.NatRank | server/server.js:122 | the rank at a position of the natural order, inverse of NatIndex |
| Melds.SuitsInOrder | server/server.js:123-128 | the suits listed are exactly those present in the hand |
| Melds.RanksOf | server/server.js:124-128 | the ranks held in a suit are exactly those of the hand's cards of that suit |
| Melds.GroupBySuit | server/server.js:123-128 | the map holds each present suit with exactly its ranks, the suits in first-appearance order |
| Melds.GroupStep | server/server.js:123-128 | one card of the first loop keeps the suits in first-appearance order and each suit's rank set exact |
| Melds.ScanSuit | server/server.js:130-142 | the run scan over one suit equals the specification RunsFrom |
| Melds.LongestSequences | server/server.js:119-144 | the runs reported equal AllRuns of the hand, and a run is reported exactly when it is three or more consecutive ranks of the natural order, all held in its suit, that cannot be extended at either end |
| Melds.AllRunsSound | server/server.js:119-144 | every reported run is three or more consecutive ranks of the natural order, all held in its suit, and cannot be extended at either end |
| Melds.AllRunsComplete | server/server.js:119-144 | conversely, every such maximal run of held ranks is reported |
| Melds.SoundRunHeld | server/server.js:122-142 | a maximal run is the slice of the natural order from some start, of length three or more, over a suit the hand holds |
| Melds.RunsFromKeeps | server/server.js:132-140 | the scan never drops a run it has already pushed |
| Melds.RunsFromComplete | server/server.js:132-141 | a maximal block of held ranks is pushed by the scan once it reaches the block's end (or the end of the order) |
| Melds.RunsOfSuitsHas | server/server.js:129-142 | the runs of every suit scanned are among the runs reported |
| Melds.LowSpadesReported | server/server.js:119-144 | holding 7, 8 and 9 of spades without the 10, the run 7-8-9 of spades is reported |
| Melds.MeldValueForSequence | server/server.js:146-151 | 0 exactly below length 3, else 20 for 3, 50 for 4 and 100 for 5 or more |
| Melds.MeldValueMonotone | server/server.js:146-151 | a longer sequence never scores less |
| Melds.BestSequenceIndex | server/server.js:153-163 | the stable sort's front: no run sorts before it, and every earlier run sorts after it |
| Melds.BestSequence | server/server.js:153-163 | null exactly for no runs; otherwise a reported run that no run sorts before |
| Melds.FourOfAKind | server/server.js:165-190 | the loop equals the specification Quads |
| Melds.QuadsInMembers | server/server.js:173-185 | a four is reported for a rank exactly when it is held four times and scores |
| Melds.QuadsExact | server/server.js:165-190 | a four is reported exactly for a rank held four times and worth points (7s and 8s are not) |
| Melds.CmpMeansOutranks | server/server.js:755-773 | cmp(a, b) > 0 exactly when b outranks a (four above sequence, then points or length, then rank) |
| Melds.BestMeld | server/server.js:775-778 | null exactly for no candidates; otherwise a candidate that no candidate outranks |
| Melds.FoursDetail | server/server.js:747-750 | one "four" entry per reported four, in order, with its seat, rank and points |
| Melds.SeatDetailPositive | server/server.js:741-750 | every candidate of a seat is worth points |
| Melds.SumMeldPointsPositive | server/server.js:783 | a total of positive candidates is positive exactly when there is one |
| Melds.GatherSeat | server/server.js:740-751 | the candidates of a seat equal SeatDetail: its best sequence, then its fours |
| Melds.GatherSequence | server/server.js:740-745 | the sequence candidate of a seat is its best longest sequence, as SequenceDetail states, or nothing |
| Melds.BestOf | server/server.js:775-778 | the loop's best equals BestMeld |
| Melds.TotalOf | server/server.js:783 | the loop's total equals SumMeldPoints |
| Melds.BestMeldForTeam | server/server.js:733-785 | a team's best and total are those of its gathered candidates; the total is positive exactly when there is a best |
| Melds.TeamTotalPositive | server/server.js:733-785 | a team's meld total is positive exactly when it has a best meld |
| Melds.BetterRanks | server/server.js:790-809 | no winner only when neither team has a meld; a team alone with a meld wins; four beats sequence; otherwise the higher key wins, with team 1 winning ties |
| Melds.BeloteHolders | server/server.js:192-202 | the holders are exactly the seats whose hands hold both the king and the queen of trump |
| Melds.AwardMelds | server/server.js:811-821 | at most one team scores; a team scores exactly when its best meld wins, and then scores its whole total |
| Melds.FindBeloteHolders | server/server.js:823-832 | the loop's holders equal BeloteHolders |
| Melds.ComputeMelds | server/server.js:722-834 | only the team with the better best meld scores all of its meld points, the other 0; the belote holders are the seats with trump K and Q |
| Settlement.HandPointsTotal | server/server.js:966-983 | whichever way the 32 cards are split between the teams, the raw points sum to 162 plus both meld totals |
| Settlement.ContractMade | server/server.js:985-992 | a capot is made exactly with all 8 tricks, a points contract exactly when the declarers' raw points reach the bid |
| Settlement.AwardShares | server/server.js:994-1008 | whether the contract is made or failed, the two shares together are (raw0 + raw1) times contra: no point is created or lost (the shares themselves are Award's two branches) |
| State.InitialGameState | server/server.js:323-358 | a fresh state is in the lobby with nobody ready and totals 0 |
| State.SeatIndexForPlayer | server/server.js:477-479 | -1 exactly when no seat holds the player, otherwise the first seat that does |
| State.FirstEmptySeat | server/server.js:534 | -1 exactly when every seat is taken, otherwise the first empty seat |
| State.DealtLength | server/server.js:666-670 | after n cards dealt round-robin, a seat has its share of them |
| State.DealtPool | server/server.js:666-670 | the four seats together hold exactly the first n cards dealt |
| State.DealPartitions | server/server.js:660-670 | the deal gives each seat 8 cards, and the four hands together are exactly the deck |
| State.InitialValid | server/server.js:323-358 | a fresh state satisfies the room invariant whoever is seated |
| Rules.DeckSize | server/server.js:651-658 | a shuffle of the deck has 32 cards |
| Rules.DealStartsHand | server/server.js:643-699 | each seat gets 8 cards and all 32 are in the hands; the auction opens left of the dealer with no bid, no passes and no contra; the totals are kept; the dealer rotates on every hand but hand number 1 |
| Rules.AsciiUpper | server/server.js:1049 | same length; lower-case ASCII letters are upper-cased and every other character kept |
| Rules.CheckBidAccepts | server/server.js:1048-1075 | a bid is accepted exactly when its suit is a suit letter, and it is a capot or a points bid of 80..160 in tens above a current points bid (or none); the accepted bid has that suit, kind and amount |
| Rules.BidRaises | server/server.js:1065-1071 | every accepted bid is a capot or more points than the current points bid; only a capot follows a capot |
| Rules.BidKeeps | server/server.js:1072-1082 | a bid keeps the hand in the auction, records the bid and its bidder, and does not end the auction |
| Rules.PassKeeps | server/server.js:1092-1104 | a pass ends the auction exactly on the fourth pass with no bid or the third after a bid; the cards are untouched |
| Rules.ContraAllowed | server/server.js:1108-1116 | a contra stands exactly during the auction, after a bid, from the other team than the bidder's |
| Rules.RecontraAllowed | server/server.js:1124-1132 | a recontra stands exactly after a contra, from the declarers, while no card is on the table |
| Rules.RecontraKeeps | server/server.js:1133 | a recontra keeps the hand valid and doubles the multiplier |
| Rules.CloseAuctionKeeps | server/server.js:701-720 | closing the auction keeps the hands, the contra and the totals, and leaves a hand in progress waiting for the lead left of the dealer |
| Rules.AuctionEndKeeps | server/server.js:701-720 | the end of an auction is a redeal (phase bidding) exactly when nobody bid, otherwise the declarations under the highest bid; the hand stays valid and the totals are kept |
| Rules.ContraCloses | server/server.js:1117-1120 | a contra doubles, closes the auction, and the contra's team is the defence |
| Rules.PassResultKeeps | server/server.js:1087-1106 | after a pass the hand stays valid, in the auction or the declarations, with the totals untouched |
| Rules.Without | server/server.js:903 | removing a card from a hand drops every copy of it and nothing else |
| Rules.CardsOf | server/server.js:913-916 | the cards a seat played are exactly those the log records for it |
| Rules.BeloteOnce | server/server.js:908-928 | belote is credited at most once per holder, only to a holder that has played both trump K and Q, and adds exactly 20 when it is credited |
| Rules.CheckPlayAccepts | server/server.js:891-900 | a play is accepted exactly in the trick phase, on the seat's turn, for the id of a card in the seat's hand that the trick rules allow |
| Rules.HeldOnce | server/server.js:897 | while all 32 cards are in play, a held card is held once |
| Rules.PoolRemove | server/server.js:903 | taking a held card out of a hand takes one copy out of the four hands |
| Rules.PlayedCardsSnoc | server/server.js:906 | a new play adds its card to the end of the trick's cards |
| Rules.AfterPlayCards | server/server.js:902-906 | a play moves one card from the hand to the trick, so the 32 cards stay in play |
| Rules.MoveOne | server/server.js:902-906 | moving one card from the hands to the trick keeps the multiset of cards in play |
| Rules.AfterPlayShape | server/server.js:902-932 | the played card joins the trick in seat order, the hand shrinks by one, and only holders are awarded belote |
| Rules.AfterPlayState | server/server.js:902-932 | a play keeps the state's shape, all 32 cards in play, the lead seat and the contract, and adds one play to the trick |
| Rules.AfterPlayReady | server/server.js:934-936 | after a play the state has what the trick-taking step needs |
| Rules.TakeTrickKeeps | server/server.js:934-944 | taking a trick moves its cards to the winners; no card is lost |
| Rules.TakeTrickShape | server/server.js:934-944 | taking a trick changes only the trick tally, the won cards and the last-trick mark |
| Rules.EmptyHandsAllWon | server/server.js:946-953 | when no card is left in any hand, the two teams' won cards are the whole deck |
| Rules.SettlePays | server/server.js:966-1022 | the totals grow by exactly (162 + both meld totals) times contra; the game is finished exactly when a total reaches the target, otherwise it is back in the lobby with nobody ready |
| Rules.SettleShape | server/server.js:1014-1022 | settling leaves the lobby or a finished game |
| Rules.NextSeatMod | server/server.js:641 | the seat after (lead + k) mod 4 is (lead + k + 1) mod 4 |
| Rules.PlayMidTrick | server/server.js:961-963 | a play that does not complete the trick passes the turn to the next seat and keeps the hand valid |
| Rules.TurnMoves | server/server.js:961-963 | handing the turn to the seat after the trick's last player keeps a hand in play |
| Rules.WinnerSeated | server/server.js:936-937 | the winner of a trick played in seat order sits at one of the four seats |
| Rules.FreshTrick | server/server.js:955-958 | a fresh trick led by the winner continues a valid hand |
| Rules.PlayNextTrick | server/server.js:934-958 | the fourth play completes the trick; the taken trick keeps all 32 cards between the hands and the won tricks |
| Rules.PlayKeeps | server/server.js:891-964 | a legal play leaves a valid hand in the trick phase, or after the last trick a settled hand in the lobby or a finished game |
| Rules.AfterTrickKeeps | server/server.js:934-958 | after a full trick is taken, the winner leads a fresh trick of a valid hand, or the hand is settled into the lobby or a finished game |
| Rules.LastPlayPays | server/server.js:946-1012 | the play that ends the hand grows the totals by exactly (162 + the credited meld points) times contra |
| Rooms.JoinedPlaces | server/server.js:527-542 | joining never seats a player twice; the player is seated exactly when it had a seat or one was free, else it becomes a spectator |
| Rooms.WithoutSpectator | server/server.js:498 | drops exactly the spectators with that id |
| Rooms.AfterLeave | server/server.js:487-494 | the leaver is no longer ready; a game under way resets to a fresh lobby state; in the lobby only the ready mark goes |
| Rooms.LeaveValid | server/server.js:487-494 | emptying a seat keeps the room invariant in every phase |
| Rooms.StaysValid | server/server.js:1092-1120 | a hand in progress replacing one under way, with the same seats, keeps the room invariant |
| Rooms.PlayValid | server/server.js:902-963 | the state after a play, with the same seats, keeps the room invariant |
| Rooms.PassStep | server/server.js:1087-1106 | a pass in turn, in a valid room, leaves a valid room |
| Rooms.ContraStep | server/server.js:1108-1121 | an accepted contra, in a valid room, closes the auction into declarations with contra 2 and keeps the room valid |
| Rooms.PlayStep | server/server.js:902-963 | a legal play, in a valid room, leaves a valid room |
| Rooms.ToTricksValid | server/server.js:1360-1362 | moving out of the declarations into the trick phase keeps the room valid |
| Rooms.ToTricks | server/server.js:1360-1363 | the dispatcher's step out of the declarations keeps a hand in progress valid |
| Rooms.GameStartsFresh | server/server.js:1139-1147 | a new game's first hand is hand 1, dealt by seat 0, with totals 0 and the auction opening at seat 1 |
| Rooms.NextHandKeepsDealer | server/server.js:1428-1440 | game:next keeps the totals and the dealer; the state's hand number is reset to 0 and the new hand is hand 1, so the dealer does not rotate |
| Rooms.CardsPlayedBy | server/server.js:913-916 | the loop over the play log equals CardsOf |
| Rooms.TeamCardPoints | server/server.js:971-976 | the loop over a team's won cards equals SumPoints |
| Rooms.Collect | server/server.js:942-944 | the loop appends the trick's cards, in order, to the winners' pile |
| Rooms.Room.constructor | server/server.js:310-321 | four empty seats, no spectators, a fresh state |
| Rooms.FirstJoinerTakesSeatZero | server/server.js:527-542 | the first player to join a fresh room takes seat 0, with no spectators |
| Rooms.Room.Join | server/server.js:521-542 | "Wrong password." for a private room and another password; otherwise seats and spectators become Joined; the game state is untouched |
| Rooms.Room.Leave | server/server.js:487-503 | a seated player's seat is emptied with AfterLeave; a spectator is dropped; the answer is whether the room is now empty |
| Rooms.Room.MarkDisconnected | server/server.js:280-285 | the player's seat is kept and marked disconnected; nothing else changes |
| Rooms.Room.Disconnect | server/server.js:1466-1479 | a seated player's seat is kept and marked disconnected, with the spectators unchanged; a spectator is dropped |
| Rooms.Room.GraceExpired | server/server.js:289-304 | a player still seated and disconnected loses the seat (AfterLeave), with the answer whether the room is empty; otherwise nothing changes |
| Rooms.Room.StartHand | server/server.js:643-699 | the state after startHand is AfterDeal of the old state and the deck |
| Rooms.Room.SetReady | server/server.js:1303-1325 | "Spectators can't ready." for an unseated player; otherwise the mark is set or cleared, and a new game starts once all four seated are ready |
| Rooms.Room.StartGame | server/server.js:1139-1147 | the state is the first deal of a fresh game |
| Rooms.Room.NextHand | server/server.js:1428-1440 | "Not ready for next hand." outside the lobby; "Need 4 players." with a seat empty; otherwise a fresh state with the totals and dealer kept, dealt |
| Rooms.Room.CloseBidding | server/server.js:709-719 | the state becomes CloseAuction with computeMelds' result |
| Rooms.Room.EndBidding | server/server.js:701-720 | the state becomes AuctionEnd: a redeal or the close |
| Rooms.Room.HandleBid | server/server.js:1043-1085 | "Not in bidding." and "Not your turn." first, then CheckBid's error or the bid recorded (AfterBid); the room invariant is kept |
| Rooms.Room.HandlePass | server/server.js:1087-1106 | "Not in bidding." and "Not your turn." first, otherwise the state becomes PassResult; the invariant is kept |
| Rooms.Room.ApplyPass | server/server.js:1092-1104 | the pass is counted, the turn moves to the next seat, and the auction ends on the fourth pass with no bid or the third after one: the state becomes PassResult |
| Rooms.Room.PassMessage | server/server.js:1355-1363 | game:pass: outside the auction or out of turn the pass is refused and the state is unchanged; an accepted pass applies handlePass and the phase is never declarations (straight to the trick phase) |
| Rooms.Room.EnterTricks | server/server.js:1360-1362 | the dispatcher moves a hand from declarations to the trick phase and changes nothing else |
| Rooms.Room.HandleContra | server/server.js:1108-1121 | CheckContra's error, or the state becomes ContraResult (declarations, contra 2); the invariant is kept |
| Rooms.Room.ApplyContra | server/server.js:1117-1120 | contra becomes 2 and the auction closes: the state becomes ContraResult |
| Rooms.Room.ContraMessage | server/server.js:1373-1379 | game:contra: a refused contra returns handleContra's error and leaves the state unchanged; an accepted contra applies handleContra and the phase is never declarations |
| Rooms.Room.HandleRecontra | server/server.js:1124-1136 | CheckRecontra's error, or the multiplier becomes 4 and nothing else changes |
| Rooms.Room.PlayCard | server/server.js:891-964 | CheckPlay's error and no change, or the state becomes PlaySpec; the answer is a plain play, a completed trick with the winner to lead, or the end of the hand; the invariant is kept |
| Rooms.Room.ApplyPlay | server/server.js:902-963 | an accepted play makes the state PlaySpec of the old state and keeps the invariant |
| Rooms.Room.LayCard | server/server.js:902-963 | the card goes down; the fourth completes the trick, otherwise the turn passes on: the state becomes PlaySpec |
| Rooms.Room.PutDown | server/server.js:902-932 | the state becomes AfterPlay |
| Rooms.Room.CheckBelote | server/server.js:908-927 | the belote check of a play equals BeloteAfter: 20 for the holder's team once both trump king and queen are down, paid once |
| Rooms.Room.FinishTrick | server/server.js:934-958 | the state becomes AfterTrick; the answer names the next leader, or the end of the hand |
| Rooms.Room.TakeCurrentTrick | server/server.js:934-944 | the winner of the full trick is found and its team counts the trick, takes its cards and the last-trick mark: the state becomes TakeTrick |
| Rooms.Room.ScoreHand | server/server.js:966-1022 | the state becomes Settle of the old state with the room's target score |
| Rooms.RawScores | server/server.js:966-983 | each team's raw score is its card points, 10 for the last trick and its meld points (TeamRaw) |
| Lobby.Registry.constructor | server/server.js:248 | no rooms |
| Lobby.Registry.Create | server/server.js:1255-1264 | a fresh room stored under its own id, as makeRoom builds it: four empty seats, no spectators, the given settings and a fresh game state in the lobby; every room already there is unchanged |
| Lobby.Registry.Join | server/server.js:1267-1271 | the id is upper-cased; "Room not found." for an unknown id with every room unchanged; otherwise the room keeps its game state, a wrong password leaves its seats and spectators unchanged and a right one seats or adds the player as the room's Join does; no other room changes |
| Lobby.Registry.Leave | server/server.js:481-503 | a seated player's seat is emptied and the game state reset by AfterLeave, a spectator is dropped; the room is deleted exactly when no one is left in it; no other room changes |
| Lobby.Registry.Purge | server/server.js:288-304 | a player still seated and disconnected loses the seat and the game state is reset by AfterLeave, otherwise the room is unchanged; the room is deleted exactly when that seat was emptied and no one is left; no other room changes |
| Bots.FirstTopIsBest | server/server.js:235-239 | the chosen suit scores the top score, at least every suit's, and strictly more than every suit before it |
| Bots.ScoreSuit | server/server.js:222-234 | the loop over the hand equals SuitScore |
| Bots.BestSuit | server/server.js:235-239 | the loop over S, H, D, C keeping the first strictly better suit yields FirstTop and TopScore |
| Bots.FirstTopAt | server/server.js:235-239 | a suit that scores the top and beats every suit before it is the first top suit |
| Bots.BotChooseBid | server/server.js:217-246 | the method equals ChooseBid |
| Bots.ChooseBidShape | server/server.js:240-245 | the bot passes exactly when no suit scores 6, and otherwise bids 80..120 in tens on a best-scoring suit |
| Bots.BotDecideBid | server/server.js:398-431 | the method equals DecideBid |
| Bots.SuitNameUpper | server/server.js:1049 | upper-casing a suit letter keeps it |
| Bots.BotBidAccepted | server/server.js:424-430 | over no bid or a points bid, the bot's bid is accepted by handleBid as the points bid it names; over a capot it is refused |

## Left out

- Transport: the WebSocket connection, JSON parsing, `send`, `broadcastRoom`, and the per-viewer views `publicGameState`, `roomSummary` and `listPublicRooms`. The model stops at the state change and the handler's answer.
- Timers: `turnDeadline`/`setTurn` deadlines, `now()` timestamps (`createdAt`, `joinedAt`), and the three-minute purge delay. The purge is an operation (`GraceExpired`, `Purge`) the caller may run at any time.
- Randomness: `shuffle` and `randInt` become the `deck` parameter (any permutation of the 32 cards); `nanoid` room ids become the `id` parameter.
- Chat, voice signalling, `profile:set`, `auth:hello`, the identity tokens and `getOrCreateIdentity`: not part of the game rules.
- `quickMatch`: it joins the first open public room in `Map` iteration order, which the model does not represent.
- The bot driver: `maybeBotAct`, `botDecidePlay`, `fillRoomWithBots`, `makeBot` and `botDelay`. They are timers and random names around the modelled rules.
- `bidLog`, `s.bidLog` entries and the meld `detail` lists sent to clients: logs for display. Meld points, best melds and holders are modelled.
- `game:legal` for a player who is not seated: `legalPlays` reads `room.seats[-1].id` and throws.
- Rooms.Room.Join: the reconnect/token bookkeeping and the purge-timer cancellation are left out. The seat is marked reconnected.
- Lobby.Registry.Create: the `Number(...)||301` and `Boolean(...)` coercions and the 32-character password cut of `room:create` are left to the caller; the settings arrive already converted.
- Bots: the bot's hand is a parameter. In the server the bidding bot reads `state.hands?.[pid]?.cards`, which is undefined on the `Map` of card arrays (server/server.js:220, 401), and `botDecideBid` is reached only through `maybeBotAct`, which nothing calls; the model states the heuristics as they would act on the bot's actual hand.
- Rules.AsciiUpper: `toUpperCase` is modelled on ASCII letters only; other characters are kept as they are.
- Rules.CheckBid: `Number(bidMsg.bid)` on arbitrary JSON is modelled as an optional integer amount; fractional amounts (which fail `% 10`) are not represented.
- Cards.NextSeat and TeamOfSeat: seats are naturals below 4 wherever JavaScript's `%` could see a negative seat, so truncating and Euclidean remainder agree.
