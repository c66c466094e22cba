# Chinese Standard Mahjong rules engine, modelled in Dafny

This project models `ChineseStandardMahjongEnv`, the rules engine of a
four-player Chinese Standard Mahjong environment. The engine is a
deterministic state machine. It works over 34 tile kinds, 4 seats and 4
winds, and the model covers:

- **Catalogue** (`catalogue.dfy`, module `Catalogue`):
  - the 34 tile names, F1-F4, J1-J3, then W, T and B 1-9;
  - the 21 tiles that can centre a Chi (the numerals of rank 2 to 8);
  - the 193 action names;
  - the name/id lookups and the prefix split `action_to_tuple`.

  Tiles are ids `0..33` and actions are the datatype `Action`. The string
  tables are proved to be bijections with these ids, and the prefix split
  is proved to round-trip.
- **Seat and wind rotation** (`winds.dfy`, module `Winds`): `_next_wind`,
  `_next_player`, and the initial and next seat winds.
- **Wall** (`wall.dfy`, module `Wall`):
  - the legality test of a supplied wall;
  - the deal of 13 tiles per seat and four equal private walls.
- **Scoring gateway** (`scoring.dfy`, module `Scoring`):
  - the fan total;
  - the calculator's input (packs and hand);
  - the score distribution for a win.
- **Engine** (`env.dfy`, module `Env`, class `MahjongEnv`):
  - the state of one hand;
  - the draw `_deal_card`;
  - the five-phase action-space generator `_update_action_space_and_fan` with its `_add_*` helpers;
  - the bookkeeping helpers;
  - `step`, including the resolution of a full round of four responses;
  - construction and `reset`.

The engine updates its fields in place, so it is a class. Its methods are
proved to keep the invariant `Valid`, which says:

- every wall pointer lies within its wall;
- no hand count is ever negative;
- the response queue (`_unprocessed_actions`) holds a discard or an added
  kong, followed by one legal response per seat that has answered;
- while the hand is running, the action space is exactly the set the
  generator's phase prescribes (`Offered`);
- while the hand is running, in the four phases that may offer Hu the fan
  held is the calculator's answer for the active seat's hand (`FanOk`);
  after a Chi or Peng the source does not recompute it, and neither does
  the model;
- scores are zero until there is a winner, and then they sum to zero.

The external fan calculator is a function value of type
`FanInput -> Option<seq<FanEntry>>`, fixed when the engine is built.
`None` stands for both "not a winning hand" and the `TypeError` the engine
catches.

What a move does to the table is stated against `Snap()`, a value holding
every field a move may change (the wall pointers and flags, melds,
concealed kongs, hand counters, rivers, visible counts, the current tile
and its source, and the kong flag). Four predicates of the class name the
outcomes, and the contracts up to `Step` are stated with them:

- `OwnMoved`: the effect of AnGang, Play or BuGang by the active seat;
- `Settled`: the end of a full round after a discard, for each `Taker`
  (Peng, Gang, Chi, or none);
- `KongStood`: the end of a full round after an added kong nobody robbed;
- `RoundEnded`: which of the two applies, or the end of the hand when the
  last tile was discarded and nobody won it.

`Drew` states what a draw does to the wall state, and `Held` and
`RunShown` give the hand after the current tile joins it and the visible
counts after a Chi.

Randomness is replaced by parameters. The constructor takes the wall (any
arrangement of the 136 tiles) and the prevalent wind. `Reset` takes the new
wall, if there is one, and whether the winds rotate.

## Model

| member | source | states |
|---|---|---|
| Catalogue.CardNameInjective | chinese_standard_mahjong_env.py:67-77 | two tile ids with the same name are the same id, so the 34 names are distinct |
| Catalogue.Block | chinese_standard_mahjong_env.py:61 | one type followed by each of its details: as many names as details |
| Catalogue.Combine | chinese_standard_mahjong_env.py:61 | `_type_detail_combiner`: every type, followed by each of its own details, appears in the result |
| Catalogue.CardTypeNames | chinese_standard_mahjong_env.py:67 | the five suit letters F, J, W, T, B |
| Catalogue.Digits | chinese_standard_mahjong_env.py:70-74 | the n rank details of a suit |
| Catalogue.CardDetails | chinese_standard_mahjong_env.py:70-74 | five detail lists: 4 winds, 3 dragons, 9 ranks for each numeral suit |
| Catalogue.CardNames | chinese_standard_mahjong_env.py:77 | `_card_names` (with `CardName` for one entry): 34 names; `CardNamesCombine` proves it is the combiner of the card types and details |
| Catalogue.CardNamesCombine | chinese_standard_mahjong_env.py:67-77 | the tile-name table equals `_type_detail_combiner(_card_types, _card_details)` entry for entry |
| Catalogue.IndexOf | chinese_standard_mahjong_env.py:64 | the name-to-id dictionary: a found index holds the key and no later position does (later duplicates win); None exactly when the key is absent |
| Catalogue.CardIdOfCardName | chinese_standard_mahjong_env.py:117-128 | `card_id(card_name(i)) == i` for every tile id, and `card_name` of an id in range is that tile's name |
| Catalogue.CardNameOfCardId | chinese_standard_mahjong_env.py:117-128 | a known name maps back to itself through its id; `card_id` gives None exactly for strings that are not tile names |
| Catalogue.CardNameOf | chinese_standard_mahjong_env.py:117-119 | `card_name` gives None exactly for ids outside 0..33; its round trip with `card_id` is `CardIdOfCardName` |
| Catalogue.CardIdOf | chinese_standard_mahjong_env.py:126-128 | `card_id` of a found name gives an id whose `card_name` is that name, and None exactly for strings outside the name table; `CardNameOfCardId` adds that these are the strings no tile is called |
| Catalogue.ChiableCardName | chinese_standard_mahjong_env.py:121-123 | `_chiable` of a tile name holds exactly for numerals of rank 2 to 8 |
| Catalogue.ChiableSuitLetter | chinese_standard_mahjong_env.py:121-123 | `_chiable` of a tile's one-letter suit, which is what the Chi test passes, holds exactly for W, T and B tiles |
| Catalogue.Chiable | chinese_standard_mahjong_env.py:121-123 | the `_chiable` test itself; what it accepts is stated by `ChiableCardName` and `ChiableSuitLetter` |
| Catalogue.ChiRun | chinese_standard_mahjong_env.py:79-82 | a Chi centre has both neighbours in its own suit, with consecutive ranks |
| Catalogue.ChiCard | chinese_standard_mahjong_env.py:82 | every entry of the chiable table is a rank 2-8 numeral |
| Catalogue.ChiableNames | chinese_standard_mahjong_env.py:82 | `_chiable_card_names`: 21 names, the filter of the tile names by `_chiable` (`ChiableNamesAreFilter`) |
| Catalogue.ChiIndex | chinese_standard_mahjong_env.py:82 | every Chi centre has a position in the chiable table that holds it |
| Catalogue.ChiableNamesAreFilter | chinese_standard_mahjong_env.py:79-82 | the chiable table is increasing and holds exactly the tiles whose names pass `_chiable` |
| Catalogue.SplitPrefix | chinese_standard_mahjong_env.py:146-151 | a successful split yields one of the type prefixes, which concatenated with the rest gives back the input; the split fails exactly when no type prefixes the input |
| Catalogue.SplitPrefixFirst | chinese_standard_mahjong_env.py:146-151 | the split picks the first type, in table order, that the name starts with |
| Catalogue.ActionToTuple | chinese_standard_mahjong_env.py:146-151 | `action_to_tuple` splits a name into an action type and a rest that concatenate back to it, and gives None exactly when no action type prefixes the name |
| Catalogue.ActionToTupleRoundTrip | chinese_standard_mahjong_env.py:146-151 | `action_to_tuple(t + d) == (t, d)` for every action type t and any detail d: no type is a prefix of an earlier one in the table |
| Catalogue.ActionNameSplits | chinese_standard_mahjong_env.py:146-151 | every generated action name splits into its own type and tile |
| Catalogue.ActionNameInjective | chinese_standard_mahjong_env.py:88-103 | two actions with the same name are the same action |
| Catalogue.ActionNames | chinese_standard_mahjong_env.py:103 | `_action_names` (with `ActionName` for one entry): 193 names; `ActionNamesCombine` proves it is the combiner of the action types and details |
| Catalogue.ActionDetails | chinese_standard_mahjong_env.py:91-100 | eight detail lists: none for Pass and Hu, the chiable tiles for Chi, every tile otherwise |
| Catalogue.ActionNamesCombine | chinese_standard_mahjong_env.py:88-103 | the action-name table equals `_type_detail_combiner(_action_types, _action_details)` entry for entry |
| Catalogue.ActionId | chinese_standard_mahjong_env.py:103-106 | every well-formed action has an id below 193 |
| Catalogue.ActionOfId | chinese_standard_mahjong_env.py:103-106 | every id below 193 denotes a well-formed action (a Chi only on a centre tile) |
| Catalogue.ActionIdBijection | chinese_standard_mahjong_env.py:88-106 | action ids and well-formed actions are in bijection, both ways |
| Catalogue.ActionTableRoundTrip | chinese_standard_mahjong_env.py:131-138 | `action_id(action_name(i)) == i` for all 193 ids, and the name at id i is the name of the action with that id |
| Catalogue.ActionIdOfActionName | chinese_standard_mahjong_env.py:136-138 | `action_id` maps each action's name to that action's id, and gives None exactly for strings that are not action names |
| Catalogue.ActionNameOf | chinese_standard_mahjong_env.py:131-133 | `action_name` gives None exactly for ids outside 0..192; the round trip with `action_id` is `ActionTableRoundTrip` |
| Catalogue.ActionIdOf | chinese_standard_mahjong_env.py:136-138 | `action_id` of a found name gives an id whose `action_name` is that name, and None exactly for strings outside the action table |
| Winds.NextWind | chinese_standard_mahjong_env.py:154-156 | the next wind lies in 1..4 and is congruent to wind + n modulo 4 |
| Winds.NextPlayer | chinese_standard_mahjong_env.py:159-161 | the next seat lies in 0..3 and is congruent to player + n modulo 4 |
| Winds.NextWindCompose | chinese_standard_mahjong_env.py:154-156 | moving a wind by a and then by b equals moving it by a + b |
| Winds.NextPlayerCompose | chinese_standard_mahjong_env.py:159-161 | moving a seat by a and then by b equals moving it by a + b |
| Winds.FullCircle | chinese_standard_mahjong_env.py:154-161 | four single steps bring any wind in 1..4 and any seat back to the start |
| Winds.NextPlayerMoves | chinese_standard_mahjong_env.py:159-161 | one to three steps never return to the same seat |
| Winds.InitialSeatWinds | chinese_standard_mahjong_env.py:251-260 | there are four seat winds; how they rotate is `InitialSeatWindsRotate` |
| Winds.InitialSeatWindsRotate | chinese_standard_mahjong_env.py:251-260 | seat i's wind is `_next_wind(seat 0's wind, i)`, and seat 0 has the prevalent wind when that wind lies in 1..4 |
| Winds.NextWinds | chinese_standard_mahjong_env.py:263-268 | four seat winds again; the rotation rule is `NextWindsRotate` |
| Winds.NextWindsRotate | chinese_standard_mahjong_env.py:263-268 | the rotation keeps seat i's wind at seat 0's plus i; the prevalent wind changes exactly when seat 0's next wind would equal it, and then it advances by one and seat 0 restarts at the new prevalent wind; otherwise every seat wind advances by one |
| Wall.LegalWallIsDeckPermutation | chinese_standard_mahjong_env.py:164-172 | `_is_legal_wall` holds iff the wall is a permutation of four copies of each of the 34 names, so a legal wall has 136 tiles |
| Wall.LegalWallOfIds | chinese_standard_mahjong_env.py:164-172 | a wall of tile ids is legal iff each of the 34 ids occurs exactly four times |
| Wall.IsLegalWall | chinese_standard_mahjong_env.py:164-172 | the `_is_legal_wall` test; `LegalWallIsDeckPermutation` proves it means "a permutation of the 136-tile deck" |
| Wall.CardNamesDistinct | chinese_standard_mahjong_env.py:77 | the 34 tile names are pairwise distinct |
| Wall.FixedWallDeal | chinese_standard_mahjong_env.py:288-304 | the deal yields four hands and four walls; their contents are `DealHands`, `DealWalls` and `DealRoundTrip` |
| Wall.DealHands | chinese_standard_mahjong_env.py:293-297 | hand i is `cards[13i .. 13i+13]`, and the four hands are the first 52 tiles |
| Wall.DealWalls | chinese_standard_mahjong_env.py:299-304 | when the remainder splits evenly, each private wall holds a quarter of it and the walls concatenate back to the remainder |
| Wall.DealRoundTrip | chinese_standard_mahjong_env.py:288-304 | the four hands followed by the four walls concatenate back to the input |
| Wall.LegalWallDeal | chinese_standard_mahjong_env.py:288-304 | for a legal wall every hand has 13 tiles, every private wall 21, and hands plus walls give back the wall |
| Scoring.SumEntriesAppend | chinese_standard_mahjong_env.py:211-213 | the fan total of two lists is the sum of their totals |
| Scoring.SumFanBounds | chinese_standard_mahjong_env.py:211-213 | `sum_fan(None)` is 0, below the 8-fan minimum; with non-negative entries every entry's points times count is at most the total |
| Scoring.SumEntriesNonNegative | chinese_standard_mahjong_env.py:211-213 | entries with non-negative points and counts total at least 0 |
| Scoring.SumFan | chinese_standard_mahjong_env.py:211-213 | `sum_fan`: the fan total; its additivity and bounds are `SumEntriesAppend` and `SumFanBounds` |
| Scoring.CombinePacks | chinese_standard_mahjong_env.py:549-563 | one calculator pack per shown and per concealed pack, in order. Each shown pack keeps its tile, is marked exposed, and is CHI exactly for a Chi, PENG exactly for a Peng and GANG exactly for a Gang or BuGang; each concealed kong is (GANG, tile, 0) |
| Scoring.Repeat | chinese_standard_mahjong_env.py:566 | `(card,) * n` has max(n, 0) elements, all equal to the card |
| Scoring.GenerateHandCounts | chinese_standard_mahjong_env.py:565-567 | the generated hand holds each tile exactly as often as its counter says (none for a non-positive count) |
| Scoring.GenerateHand | chinese_standard_mahjong_env.py:565-567 | `_generate_hand`; each tile's multiplicity in it is `GenerateHandCounts` |
| Scoring.Scores | chinese_standard_mahjong_env.py:588-620 | there are four scores, one per seat; their values are `ScoresDistribution` |
| Scoring.ScoresDistribution | chinese_standard_mahjong_env.py:588-620 | the scores sum to 0. Self-drawn: the winner gets 3·(8+F) and every other seat −(8+F). Off a discard: the winner gets 3·8+F, the discarder −(8+F) and the others −8 |
| Scoring.ScoreOf | chinese_standard_mahjong_env.py:588-620 | one seat's score in `_generate_scores`; the values and the zero sum are `ScoresDistribution` |
| Env.FirstPeng | chinese_standard_mahjong_env.py:521-526 | the position of the first Peng of the tile in the list, or None exactly when there is none |
| Env.FirstClaim | chinese_standard_mahjong_env.py:752-778 | the first Peng or Gang of the round after the discard, in seat order, or None exactly when no response claims |
| Env.Taker | chinese_standard_mahjong_env.py:750-799 | the response that takes the discard: the first Peng/Gang; without one, a Chi, but only from the next seat; None exactly when neither exists |
| Env.ChiTest | chinese_standard_mahjong_env.py:485-499 | the per-candidate test of `_add_chi_actions`, with the claimed tile temporarily added to the hand, holds exactly for the Chi candidates; a candidate whose name is not chiable, or is out of range, is never one |
| Env.NoChiOnHonour | chinese_standard_mahjong_env.py:488-489 | a wind or dragon tile admits no Chi at all |
| Env.RemoveAt | chinese_standard_mahjong_env.py:737 | `del s[i]`: one element shorter, with the elements before i kept and those after it moved down by one |
| Env.MahjongEnv.WallRemain | chinese_standard_mahjong_env.py:410-411 | the tiles left in a seat's wall lie between 0 and the wall's length |
| Env.MahjongEnv.FanInputNow | chinese_standard_mahjong_env.py:569-585 | the win tile is the current tile; the hand is self-drawn exactly when the tile has no source; there is one calculator pack per shown or concealed pack |
| Env.MahjongEnv.DealCard | chinese_standard_mahjong_env.py:414-430 | `Drew`. With its wall empty, the hand ends and the current tile and source become None. Otherwise only the active seat's pointer advances by one, the current tile becomes that wall tile with no source, and the last-tile flag is set when the next seat's wall is empty and is never cleared |
| Env.MahjongEnv.AddHandCard | chinese_standard_mahjong_env.py:654-655 | only the active seat's count of the tile changes, by n |
| Env.MahjongEnv.AddDiscardHistory | chinese_standard_mahjong_env.py:623-630 | the tile is appended to the active seat's discards, and its visible count rises by one |
| Env.MahjongEnv.AddShownPack | chinese_standard_mahjong_env.py:633-645 | the pack (type, tile, source) is appended to the receiving seat. Visibility: +1 for each tile of a Chi's run (`RunShown`), +3 for a Peng, +4 for a Gang, +1 for a BuGang |
| Env.MahjongEnv.AddHiddenPack | chinese_standard_mahjong_env.py:648-651 | the kong's tile is appended to the active seat's concealed kongs |
| Env.MahjongEnv.PengPackIndexOf | chinese_standard_mahjong_env.py:521-526 | the loop returns the first Peng of the tile among the active seat's packs (`FirstPeng`) |
| Env.MahjongEnv.AddPlayActions | chinese_standard_mahjong_env.py:477-483 | adds exactly the Play of every tile with a positive count, plus the current tile |
| Env.MahjongEnv.AddChiActions | chinese_standard_mahjong_env.py:485-499 | adds exactly the Chi of every candidate centre: a 2-8 numeral within one of the claimed tile whose three-tile run is in hand once the claimed tile is counted. The hand counters are left as they were |
| Env.MahjongEnv.AddPengActions | chinese_standard_mahjong_env.py:501-504 | adds Peng of the claimed tile exactly when the hand holds two of it |
| Env.MahjongEnv.AddGangActions | chinese_standard_mahjong_env.py:506-509 | adds Gang of the claimed tile exactly when the hand holds three of it |
| Env.MahjongEnv.AddAnGangActions | chinese_standard_mahjong_env.py:511-519 | adds AnGang exactly for tiles held four times, or held three times when that tile is the current one |
| Env.MahjongEnv.AddBuGangActions | chinese_standard_mahjong_env.py:528-536 | adds BuGang exactly for tiles with an own Peng that are held once or are the current tile |
| Env.MahjongEnv.AddHuActionsAndUpdateFan | chinese_standard_mahjong_env.py:538-542 | the fan becomes the calculator's answer for the current state, and Hu is added exactly when the fan total is at least 8 |
| Env.MahjongEnv.DiscardResponses | chinese_standard_mahjong_env.py:441-452 | the response to a discard offers exactly: Pass; Hu at 8 fan; and, unless it is the last round, Peng with two in hand, Chi only for the first responder, Gang with three in hand and a non-empty own wall |
| Env.MahjongEnv.AddClaimActions | chinese_standard_mahjong_env.py:445-451 | adds exactly the Peng, Chi and Gang claims above, and none in the last round |
| Env.MahjongEnv.KongResponses | chinese_standard_mahjong_env.py:454-456 | a robbed added kong offers exactly Pass and Hu at 8 fan |
| Env.MahjongEnv.DrawActions | chinese_standard_mahjong_env.py:459-470 | after a draw the space is exactly: Play; Hu at 8 fan; and, only after a normal draw (not a kong replacement) with a non-empty own wall, AnGang and BuGang |
| Env.MahjongEnv.AddKongActions | chinese_standard_mahjong_env.py:468-470 | adds exactly the AnGang and BuGang of `KongOk`, never after a kong draw or with an empty own wall |
| Env.MahjongEnv.DiscardSpace | chinese_standard_mahjong_env.py:441-452 | the discard-response space is the one `Offered` prescribes |
| Env.MahjongEnv.RobKongSpace | chinese_standard_mahjong_env.py:454-456 | the added-kong response space is the one `Offered` prescribes |
| Env.MahjongEnv.DrawSpace | chinese_standard_mahjong_env.py:459-470 | the spaces after either kind of draw are the ones `Offered` prescribes |
| Env.MahjongEnv.MustPlaySpace | chinese_standard_mahjong_env.py:473-474 | after a Chi or a Peng only Play is offered |
| Env.MahjongEnv.IdleSpace | chinese_standard_mahjong_env.py:434-438 | an ended hand offers nothing |
| Env.MahjongEnv.UpdateActionSpaceAndFan | chinese_standard_mahjong_env.py:432-475 | the new action space is exactly `Offered` for the current phase, and is empty once the hand is over. The fan is recomputed in the four phases that call the calculator and kept in the others |
| Env.MahjongEnv.ResponseSpace | chinese_standard_mahjong_env.py:440-455 | answering a discard or an added kong: the space is exactly `Offered` and the fan is the calculator's answer |
| Env.MahjongEnv.TurnSpace | chinese_standard_mahjong_env.py:457-474 | the seat's own turn (after either kind of draw, or after a Chi or Peng) or the ended hand: the space is exactly `Offered`, empty once the hand is over; the fan is the calculator's answer after a draw and kept otherwise |
| Env.MahjongEnv.Phase | chinese_standard_mahjong_env.py:432-474 | which of the five branches of the generator applies; what each branch offers is `Offered`, proved of the generated space by `UpdateActionSpaceAndFan` |
| Env.MahjongEnv.Offered | chinese_standard_mahjong_env.py:432-474 | the action space each phase prescribes, as a membership test; `UpdateActionSpaceAndFan` proves the generated space is exactly it, and `OfferedMove` that each offered action meets its branch's precondition |
| Env.MahjongEnv.UpgradePeng | chinese_standard_mahjong_env.py:733-741 | the seat's first Peng of the tile is deleted and a BuGang pack of the tile appended, so the pack count is unchanged. Visibility rises by one and the tile leaves the hand |
| Env.MahjongEnv.CompleteAddedKong | chinese_standard_mahjong_env.py:733-743 | `KongStood`: the seat's first Peng of the tile gives way to a BuGang pack, visibility of the tile rises by one, the tile leaves the hand, the kong flag is set, and the seat draws a replacement (`Drew`); rivers and concealed kongs are untouched |
| Env.MahjongEnv.TakeMeld | chinese_standard_mahjong_env.py:754-776 | the claimer becomes active. Its pack (Peng or Gang, tile, discarder) is appended. Visibility rises by 3 or 4, and the hand loses 2 or 3 of the tile, leaving none |
| Env.MahjongEnv.AwardClaim | chinese_standard_mahjong_env.py:754-778 | the first Peng/Gang responder, seat `next(discarder, k)`, takes the discard as above. After a Gang it draws a replacement with the kong flag set; after a Peng it must discard, with no current tile and the wall untouched |
| Env.MahjongEnv.AfterClaim | chinese_standard_mahjong_env.py:764-776 | after a Gang the claimer draws; after a Peng the current tile and source are cleared and the rest is unchanged |
| Env.MahjongEnv.AwardChi | chinese_standard_mahjong_env.py:786-796 | the next seat takes the Chi: it becomes active, its pack (Chi, centre, discarder) is appended, each run tile's visibility rises by one (`RunShown`), the discard enters its hand and the three run tiles leave it, and the current tile is cleared |
| Env.MahjongEnv.TakeRun | chinese_standard_mahjong_env.py:793-794 | the loop removes one tile of each of c−1, c and c+1 from the active hand |
| Env.MahjongEnv.DiscardUnclaimed | chinese_standard_mahjong_env.py:798-804 | the discard joins the discarder's history with visibility +1, and the following seat becomes active and draws |
| Env.MahjongEnv.RoundClaimsHold | chinese_standard_mahjong_env.py:720-722 | every claim in a full round after a discard is one its seat's hand could make (two or three of the tile, or the Chi run) |
| Env.MahjongEnv.ResolveDiscard | chinese_standard_mahjong_env.py:750-804 | a full round after a discard (not in the last round) ends as `Settled` says. The `Taker` becomes active with its meld (source: the discarder) and the kong flag exactly for a Gang. A Peng or Gang raises visibility by 3 or 4 and takes 2 or 3 of the tile from the hand; a Chi raises each run tile by one and swaps the run for the discard. After a Peng or Chi the current tile is cleared and the wall untouched; after a Gang the taker draws. Without a taker the tile joins the discarder's river with visibility +1, and the next seat draws. Concealed kongs are untouched in every case |
| Env.MahjongEnv.ResolveUnclaimed | chinese_standard_mahjong_env.py:780-804 | without Peng or Gang, a Chi from the next seat is honoured and otherwise the tile is discarded, with every effect that `Settled` lists (see ResolveDiscard) |
| Env.MahjongEnv.SettleChi | chinese_standard_mahjong_env.py:786-796 | the next seat's Chi takes the discard, as `Settled` says for a Chi |
| Env.MahjongEnv.SettleUnclaimed | chinese_standard_mahjong_env.py:798-804 | nobody takes the discard: it joins the discarder's river with visibility +1, the kong flag is cleared and the next seat draws, as `Settled` says |
| Env.MahjongEnv.FindClaim | chinese_standard_mahjong_env.py:752-778 | the loop finds the first Peng or Gang responder (`FirstClaim`), or reports that there is none |
| Env.MahjongEnv.ResolveRound | chinese_standard_mahjong_env.py:725-806 | `RoundEnded`: an added kong nobody robbed stands (`KongStood`) and the queue is cleared; a discard in the last round ends the hand with the table and the queue left as they were; otherwise the discard is `Settled` and the queue cleared. It stops exactly in the second case, and never clears the last-round flag |
| Env.MahjongEnv.FinishAddedKong | chinese_standard_mahjong_env.py:733-743 | the added kong of the round's source stands as `KongStood` says (the source seat is active again), and the queue is cleared |
| Env.MahjongEnv.SettleDiscard | chinese_standard_mahjong_env.py:750-804 | a full round after a discard, not in the last round, ends as `Settled` says, and the queue is cleared |
| Env.MahjongEnv.GenerateScores | chinese_standard_mahjong_env.py:588-620 | with a winner the scores are the distribution of `Scores` and sum to 0; without one they are unchanged |
| Env.MahjongEnv.ResponderIsNotSource | chinese_standard_mahjong_env.py:704-722 | during a round the seat to answer is never the seat that discarded |
| Env.MahjongEnv.RoundOpened | chinese_standard_mahjong_env.py:704-716 | a discard or added kong just queued opens a well-formed round |
| Env.MahjongEnv.NoRound | chinese_standard_mahjong_env.py:806 | an empty queue with no tile source is a well-formed state outside any round |
| Env.MahjongEnv.HuOffered | chinese_standard_mahjong_env.py:538-542 | if Hu is in the action space, the fan total is at least 8 |
| Env.MahjongEnv.HuByCalculator | chinese_standard_mahjong_env.py:432-474 | while the hand runs, an offered Hu means the fan held is the calculator's answer for the active seat's hand, and that answer reaches 8 |
| Env.MahjongEnv.DeclareHu | chinese_standard_mahjong_env.py:679-683 | Hu ends the hand with the active seat as winner and a fan of at least 8, and the scores are `Scores` of that win |
| Env.MahjongEnv.Win | chinese_standard_mahjong_env.py:679-683 | the active seat becomes the winner, the hand is over, the scores are `Scores` of the win and the engine invariant holds |
| Env.MahjongEnv.DeclareConcealedKong | chinese_standard_mahjong_env.py:686-694 | AnGang sets the kong flag and records the concealed kong. The current tile joins the hand (`Held`), four of the tile leave it, and the seat draws a replacement |
| Env.MahjongEnv.ConcealKong | chinese_standard_mahjong_env.py:689-692 | the concealed kong is recorded, the current tile joins the hand and four of the kong tile leave it |
| Env.MahjongEnv.PlayTile | chinese_standard_mahjong_env.py:697-706 | Play clears the kong flag, puts the current tile (if any) into the hand (`Held`) and removes the played one, makes the played tile current with the player as source, opens the queue with the action, and passes the turn to the next seat |
| Env.MahjongEnv.DeclareAddedKong | chinese_standard_mahjong_env.py:709-716 | BuGang sets the kong flag, puts the drawn tile into the hand, makes the kong tile current with the player as source, opens the queue, and passes the turn |
| Env.MahjongEnv.OpenRound | chinese_standard_mahjong_env.py:704-716 | the tile becomes current with its source, the queue holds just the action, and the next seat is to answer |
| Env.MahjongEnv.Respond | chinese_standard_mahjong_env.py:720-722 | a response is appended to the queue and the turn passes to the next seat |
| Env.MahjongEnv.OfferedMove | chinese_standard_mahjong_env.py:673 | an offered action meets the precondition of the branch that handles it |
| Env.MahjongEnv.Step | chinese_standard_mahjong_env.py:668-808 | `step` keeps the engine invariant (so the next fan is the calculator's answer wherever Hu may be offered) and leaves an ended hand untouched; its modifies clause keeps walls, winds and initial hands fixed, and the last-round flag is never cleared. A winner appears exactly on Hu, scored from the fan the calculator gave for the winning hand; a Hu changes nothing else: the fan (the winner's breakdown), the active seat, the queue, the action space and the table (`Snap`) stay as they were, except that the hand is over. An own move acts as `OwnMoved` says; a response that does not complete the round joins the queue, passes the turn and leaves the table (`Snap`) as it was; the fourth response ends the round as `RoundEnded` says |
| Env.MahjongEnv.Act | chinese_standard_mahjong_env.py:673-808 | the same promises as `Step` for a hand that is still running, including Hu scored from the calculator's answer with everything but the outcome left as it was |
| Env.MahjongEnv.Move | chinese_standard_mahjong_env.py:686-808 | every action other than Hu keeps the invariant and never clears the last-round flag; own moves act as `OwnMoved` says, responses as in `Step` |
| Env.MahjongEnv.OwnMove | chinese_standard_mahjong_env.py:686-717 | AnGang, Play and BuGang are taken only outside a round, keep the invariant, and act as `OwnMoved` says: AnGang records the kong, takes the current tile into the hand and four of the kong tile out, and draws with the kong flag set; Play and BuGang take the current tile into the hand (Play also removes the played tile) and open a round for the next seat on the played or added tile; melds, visibility and rivers do not change |
| Env.MahjongEnv.ConcealedKongMove | chinese_standard_mahjong_env.py:686-694 | an AnGang followed by the next action space, as `OwnMoved` says |
| Env.MahjongEnv.PlayMove | chinese_standard_mahjong_env.py:697-706 | a Play followed by the next action space, as `OwnMoved` says |
| Env.MahjongEnv.AddedKongMove | chinese_standard_mahjong_env.py:709-716 | a BuGang followed by the next action space, as `OwnMoved` says |
| Env.MahjongEnv.Answer | chinese_standard_mahjong_env.py:720-808 | a Pass, Chi, Peng or Gang that is not the fourth answer joins the queue and passes the turn, leaving the table (`Snap`) as it was; the fourth answer ends the round as `RoundEnded` says |
| Env.MahjongEnv.Close | chinese_standard_mahjong_env.py:725-808 | after an action, a full queue ends the round as `RoundEnded` says; with fewer than four entries only the space is regenerated and the table, queue and turn are unchanged |
| Env.MahjongEnv.CloseRound | chinese_standard_mahjong_env.py:725-808 | a full round ends as `RoundEnded` says; the invariant is restored either way |
| Env.MahjongEnv.Refresh | chinese_standard_mahjong_env.py:808 | regenerating the action space restores the engine invariant, including `FanOk`: in the phases that may offer Hu the fan is the calculator's answer for the new active seat |
| Env.MahjongEnv.RefreshAfterRound | chinese_standard_mahjong_env.py:808 | regenerating the action space after a round restores the invariant and leaves the round's outcome (`RoundEnded`) as it was |
| Env.MahjongEnv.constructor | chinese_standard_mahjong_env.py:225-234 | builds the engine from a legal wall and a prevalent wind: the deal, the initial seat winds, the opening state, and the first tile of seat 0's 21-tile wall drawn |
| Env.MahjongEnv.Reset | chinese_standard_mahjong_env.py:237-248 | a new wall is dealt if given (else the deal is kept), and the winds rotate if asked (else they are kept); then the state is that of a new hand |
| Env.MahjongEnv.SetInitialWinds | chinese_standard_mahjong_env.py:251-260 | the prevalent wind is set and the seat winds are its four successors |
| Env.MahjongEnv.SetNextWinds | chinese_standard_mahjong_env.py:263-268 | the winds become `NextWinds` of the old ones |
| Env.MahjongEnv.ValidatedDeal | chinese_standard_mahjong_env.py:271-304 | a wall given in the configuration is validated, then dealt into hands of 13 and walls of 21 |
| Env.MahjongEnv.FixedWallInitializer | chinese_standard_mahjong_env.py:288-304 | the hands and walls are the deal of the wall, of sizes 13 and 21 when validation is asked for |
| Env.MahjongEnv.GameStateInitializer | chinese_standard_mahjong_env.py:307-350 | a new hand: no winner, zero scores, seat 0 to act, empty histories and packs, and hand counts from the initial hands. Seat 0 has drawn its first tile, or the hand is over if its wall is empty. The last-tile flag is clear and the invariant holds |
| Env.MahjongEnv.FirstDraw | chinese_standard_mahjong_env.py:332-348 | seat 0 draws its first tile and the last-tile flag is then cleared |
| Env.MahjongEnv.ClearTable | chinese_standard_mahjong_env.py:310-346 | every per-hand field takes its opening value |
| Env.MahjongEnv.ClearOutcome | chinese_standard_mahjong_env.py:310-316 | not done, zero scores, no fan, no winner |
| Env.MahjongEnv.ClearTurn | chinese_standard_mahjong_env.py:322-346 | wall pointers at 0, seat 0 active, empty action space and queue, no current tile or source, kong flag clear |
| Env.MahjongEnv.ClearPlayers | chinese_standard_mahjong_env.py:336-344 | empty discards and packs, hand counters from the initial hands, and no visible tiles |
| Env.Counts | chinese_standard_mahjong_env.py:342 | `Counter(hand)`: 34 counts, each equal to the tile's multiplicity in the hand; `GenerateHandOfCounts` and `CountsOfGenerateHand` prove it inverse to `_generate_hand` |
| Env.GenerateHandOfCounts | chinese_standard_mahjong_env.py:565-567 | `_generate_hand` of a hand's counters holds the same tiles as the hand, as a multiset |
| Env.CountsOfGenerateHand | chinese_standard_mahjong_env.py:565-567 | the counters of the hand generated from non-negative counters are those counters |

## Left out

- Randomness: `np.random` chooses the wind when none is configured, and `_seed_wall_initializer` shuffles the wall. The model takes the wind and the wall as parameters. A shuffled wall is any permutation of the deck, which the constructor's precondition admits.
- Env.MahjongEnv.constructor: requires the wall as tile ids with each id exactly four times. `Wall.LegalWallOfIds` proves this equivalent to `_is_legal_wall` on the names. An illegal configured wall, which the source rejects with an `assert`, is therefore a precondition violation.
- Env.MahjongEnv.Reset: a reset that re-deals takes the new wall as an argument (`Some`), and one that keeps the wall takes `None`. A fixed configured wall is not re-validated. Its legality was established at construction, so this does not matter.
- The observation, state and history projections and `_add_history` are left out: they are `deepcopy` reporting with no rule logic.
- Also left out: `render` and `close`; `generate_log` and the `__main__` block (console output and random play); and the other files of the repository (agents, model pools, the trainer, the Botzone adapter).
- The fan calculator is a function value the model cannot inspect. Its fan names and its `flowerCount` and `verbose` arguments are left out, and so is `is4thTile` beyond its definition in `FanInputNow`.
- Scoring.GenerateHand: lists the tiles by id, while `_generate_hand` lists them in the `Counter`'s insertion order. The calculator is an opaque function value, so the model hands it the same tiles in a possibly different order; a calculator that depends on the order could answer differently.
- Order of the action space: the source lists tiles in the `Counter`'s insertion order, and the model lists them by tile id. `step` only tests membership, so every contract speaks of membership.
- Env.MahjongEnv.Step: the source's `assert action in action_space` is the precondition `a in actionSpace`.
- Env.MahjongEnv.CompleteAddedKong: the kong flag is set after the replacement draw instead of before it. Neither the Peng upgrade nor the draw reads the flag, so the resulting state is the same.
- Env.MahjongEnv.PlayTile: the kong flag is cleared after the round is opened instead of before. Nothing in between reads the flag, so the resulting state is the same.
- After Hu, and after the last-round end, the source returns before regenerating the action space. The model does the same, so the stale space is kept and `Valid` constrains it only while the hand runs.
- Env.MahjongEnv.AddChiActions: the source increments the hand counter for the test and decrements it again. The model tests on a local copy and never writes the counter, so "the counter is unchanged" holds by the frame.
- Env.MahjongEnv.ResolveRound: the resolution loop is written as "find the first Peng or Gang, then act" (`FindClaim`, `AwardClaim`). The `for … else` of the source becomes the case where no claim is found.
- Tile conservation across the whole game is not proved. That would mean hands, walls, discards and packs always summing to the full deck. The invariant proves only that no hand count is ever negative.
- The per-seat wall pointers and hand counters are sequence fields that the methods reassign, not arrays. Their length is fixed by the invariant.
