/**
 * The game engine of ChineseStandardMahjongEnv: the state of one hand, the
 * five-phase generator of the active seat's legal actions, and `step`,
 * including the resolution of a full round of responses to a discard or an
 * added kong.
 *
 * The engine mutates its fields in place, so it is a class. The hand
 * counters (one per seat) are sequences of 34 counts indexed by tile id,
 * the history lists are sequences the methods reassign, and the external
 * fan calculator is a function value fixed at construction.
 */
module Env {
  import opened Wrappers
  import opened Catalogue
  import opened Winds
  import opened Wall
  import opened Scoring

  /** The external fan calculator: None when the hand is not a winning hand
      (or when the calculator raises the error the engine catches). */
  type FanCalculator = FanInput -> Option<seq<FanEntry>>

  /** The five branches of `_update_action_space_and_fan`, plus the finished
      hand and the state none of them matches. */
  datatype Phase =
    | Ended
    | RespondDiscard   // someone discarded: Pass, Hu, Peng, Chi, Gang
    | RobKong          // someone added a kong: Pass, Hu
    | AfterKongDraw    // replacement tile after a kong: Play, Hu
    | Drawn            // tile drawn from the wall: Play, Hu, AnGang, BuGang
    | MustPlay         // after Chi or Peng: Play only
    | NoPhase

  predicate IsPengOf(p: Pack, c: Card) { p.kind == PengMeld && p.tile == c }

  ghost predicate HasPeng(packs: seq<Pack>, c: Card)
  {
    exists i :: 0 <= i < |packs| && IsPengOf(packs[i], c)
  }

  /** The position of the first Peng of c at or after position `from`. */
  function FirstPeng(packs: seq<Pack>, c: Card, from: nat): (r: Option<nat>)
    requires from <= |packs|
    ensures r.Some? ==> from <= r.value < |packs| && IsPengOf(packs[r.value], c)
    ensures r.Some? ==> forall j :: from <= j < r.value ==> !IsPengOf(packs[j], c)
    ensures r.None? <==> forall j :: from <= j < |packs| ==> !IsPengOf(packs[j], c)
    decreases |packs| - from
  {
    if from == |packs| then None
    else if IsPengOf(packs[from], c) then Some(from)
    else FirstPeng(packs, c, from + 1)
  }

  /** A Chi on centre c can take the claimed tile `cur` with this hand: the
      three tiles c-1, c, c+1 include `cur`, and the hand holds each of the
      other ones. */
  ghost predicate ChiCandidate(hand: seq<int>, cur: Card, c: Card)
    requires |hand| == NumCards
  {
    IsChiCenter(c) && 1 <= c - 1 && c + 1 < NumCards && c - 1 <= cur <= c + 1 &&
    forall d :: c - 1 <= d <= c + 1 ==> hand[d] + (if d == cur then 1 else 0) > 0
  }

  /** The three tiles of a Chi on x are present in `hand`. */
  predicate RunPresent(hand: seq<int>, x: Card)
    requires |hand| == NumCards && 1 <= x < NumCards - 1
  {
    hand[x - 1] > 0 && hand[x] > 0 && hand[x + 1] > 0
  }

  /** Play: a tile in hand or the current tile. */
  ghost predicate PlayOk(a: Action, hand: seq<int>, cur: Option<Card>)
    requires |hand| == NumCards
  {
    a.Play? && (hand[a.card] > 0 || cur == Some(a.card))
  }

  /** Hu: the calculator's answer reaches the minimum fan. */
  ghost predicate HuOk(a: Action, fan: Option<seq<FanEntry>>)
  {
    a == Hu && SumFan(fan) >= MinWinFan
  }

  /** Claims of a discarded tile `cur`: Peng with exactly two in hand, Chi
      by the next seat only, Gang with exactly three and a non-empty wall. */
  ghost predicate ClaimOk(a: Action, hand: seq<int>, cur: Card, nextSeat: bool, wallRemain: int)
    requires |hand| == NumCards
  {
    (a == Peng(cur) && hand[cur] == 2) ||
    (a.Chi? && nextSeat && ChiCandidate(hand, cur, a.card)) ||
    (a == Gang(cur) && wallRemain > 0 && hand[cur] == 3)
  }

  /** Kongs after a draw of `cur`: a concealed kong of four tiles (the drawn
      one counted), or an added kong on an own Peng with the tile in hand
      (exactly one) or just drawn. */
  ghost predicate KongOk(a: Action, hand: seq<int>, packs: seq<Pack>, cur: Option<Card>)
    requires |hand| == NumCards
  {
    (a.AnGang? && (hand[a.card] == 4 || (cur == Some(a.card) && hand[a.card] == 3))) ||
    (a.BuGang? && HasPeng(packs, a.card) && (hand[a.card] == 1 || cur == Some(a.card)))
  }

  predicate IsClaim(a: Action) { a.Peng? || a.Gang? }

  /** The first Peng or Gang of the round at or after position `from`. */
  function FirstClaim(q: seq<Action>, from: nat): (r: Option<nat>)
    requires from <= |q|
    ensures r.Some? ==> from <= r.value < |q| && IsClaim(q[r.value])
    ensures r.Some? ==> forall j :: from <= j < r.value ==> !IsClaim(q[j])
    ensures r.None? <==> forall j :: from <= j < |q| ==> !IsClaim(q[j])
    decreases |q| - from
  {
    if from == |q| then None
    else if IsClaim(q[from]) then Some(from)
    else FirstClaim(q, from + 1)
  }

  /** The position in a full round of the response that takes the discard:
      the first Peng or Gang in seat order after the discarder, otherwise a
      Chi by the next seat, otherwise none (the tile is discarded). */
  function Taker(q: seq<Action>): (r: Option<nat>)
    requires |q| == 4
    ensures r.Some? ==> 1 <= r.value < 4
    ensures r.Some? && IsClaim(q[r.value]) ==> forall j :: 1 <= j < r.value ==> !IsClaim(q[j])
    ensures r.Some? && !IsClaim(q[r.value]) ==>
      r.value == 1 && q[1].Chi? && forall j :: 1 <= j < 4 ==> !IsClaim(q[j])
    ensures r.None? <==> !q[1].Chi? && forall j :: 1 <= j < 4 ==> !IsClaim(q[j])
  {
    match FirstClaim(q, 1)
    case Some(k) => Some(k)
    case None => if q[1].Chi? then Some(1) else None
  }

  /** The Chi test of `_add_chi_actions` for one candidate centre x (a tile
      id that may fall outside the table): x is chiable and, with the claimed
      tile added to the hand, the hand holds x-1, x and x+1. It holds
      exactly for the Chi candidates. */
  lemma ChiTest(hand: seq<int>, cur: Card, x: int)
    requires |hand| == NumCards && cur - 1 <= x <= cur + 1
    ensures Chiable(CardNameOf(x)) ==>
      8 <= x <= 32 &&
      (RunPresent(hand[cur := hand[cur] + 1], x) <==> ChiCandidate(hand, cur, x))
    ensures !Chiable(CardNameOf(x)) && 0 <= x < NumCards ==> !ChiCandidate(hand, cur, x)
  {
    if 0 <= x < NumCards {
      CardIdOfCardName(x);
      ChiableCardName(x);
      if IsChiCenter(x) {
        ChiRun(x);
      }
    }
  }

  /** A tile outside the numeral suits is never claimed by a Chi. */
  lemma NoChiOnHonour(hand: seq<int>, cur: Card, c: Card)
    requires |hand| == NumCards && !IsNumeral(cur)
    ensures !ChiCandidate(hand, cur, c)
  {
    if IsChiCenter(c) && c - 1 <= cur <= c + 1 {
      ChiRun(c);
    }
  }

  /** The state a draw changes: wall pointers, end and last-round flags. */
  datatype WallState = WallState(pointers: seq<int>, done: bool, wallLast: bool)

  /** The table as a move leaves it: the wall state, melds, hands,
      discards, visible counts, the tile being answered and the kong flag. */
  datatype Snapshot = Snapshot(
    wall: WallState, shownPacks: seq<seq<Pack>>, hiddenPacks: seq<seq<Card>>, hands: seq<seq<int>>,
    discards: seq<seq<Card>>, shownCounter: seq<int>,
    currentCard: Option<Card>, currentFrom: Option<Seat>, aboutKong: bool)

  /** The hand counters with seat p's count of tile c changed by n. */
  function Bumped(hands: seq<seq<int>>, p: Seat, c: Card, n: int): (r: seq<seq<int>>)
    requires |hands| == 4 && |hands[p]| == NumCards
    ensures |r| == 4 && |r[p]| == NumCards && r[p][c] == hands[p][c] + n
  {
    hands[p := hands[p][c := hands[p][c] + n]]
  }

  /** The hand counters once seat p's current tile, if it holds one, joins
      its hand. */
  function Held(hands: seq<seq<int>>, p: Seat, cur: Option<Card>): (r: seq<seq<int>>)
    requires |hands| == 4 && |hands[p]| == NumCards
    ensures |r| == 4 && |r[p]| == NumCards
  {
    if cur.None? then hands else Bumped(hands, p, cur.value, 1)
  }

  /** s without its element at position i (`del s[i]`). */
  function RemoveAt<T>(s: seq<T>, i: nat): (r: seq<T>)
    requires i < |s|
    ensures |r| == |s| - 1
    ensures forall j :: 0 <= j < i ==> r[j] == s[j]
    ensures forall j :: i <= j < |r| ==> r[j] == s[j + 1]
  {
    s[..i] + s[i + 1..]
  }

  /** A hand without one tile of each of c-1, c and c+1. */
  function RunTaken(hand: seq<int>, c: Card): (r: seq<int>)
    requires |hand| == NumCards
    ensures |r| == NumCards
  {
    seq(NumCards, t requires 0 <= t < NumCards => hand[t] - (if c - 1 <= t <= c + 1 then 1 else 0))
  }

  /** The visible counts with one more copy of each tile of the Chi run on
      centre c. */
  function RunShown(counter: seq<int>, c: Card): (r: seq<int>)
    requires |counter| == NumCards
    ensures |r| == NumCards
  {
    seq(NumCards, t requires 0 <= t < NumCards => counter[t] + (if c - 1 <= t <= c + 1 then 1 else 0))
  }

  /** The hand of the seat that wins a Chi on centre c of the discarded
      tile `cur`: the discard joins the hand and the three tiles of the run
      leave it. */
  function ChiTaken(hand: seq<int>, cur: Card, c: Card): (r: seq<int>)
    requires |hand| == NumCards
    ensures |r| == NumCards
  {
    RunTaken(hand[cur := hand[cur] + 1], c)
  }

  class MahjongEnv {
    const calculator: FanCalculator

    var prevalentWind: int
    var seatWinds: seq<int>
    var initialHands: seq<seq<Card>>
    var walls: seq<seq<Card>>
    var pointers: seq<int>

    var done: bool
    var scores: seq<int>
    var fan: Option<seq<FanEntry>>
    var winner: Option<Seat>
    var active: Seat
    var actionSpace: seq<Action>
    var currentFrom: Option<Seat>
    var currentCard: Option<Card>
    /** The actions of the round in progress, the discard or added kong first. */
    var queue: seq<Action>
    var discards: seq<seq<Card>>
    var shownPacks: seq<seq<Pack>>
    /** Concealed kongs, one tile each. */
    var hiddenPacks: seq<seq<Card>>
    /** hands[p][c]: how many tiles c seat p holds. */
    var hands: seq<seq<int>>
    /** How many copies of each tile are exposed in discards and melds. */
    var shownCounter: seq<int>
    var aboutKong: bool
    var wallLast: bool

    ghost predicate Shape()
      reads this`seatWinds, this`initialHands, this`walls, this`pointers, this`scores
      reads this`discards, this`shownPacks, this`hiddenPacks, this`hands, this`shownCounter
    {
      |seatWinds| == 4 && |initialHands| == 4 && |walls| == 4 && |pointers| == 4 &&
      |scores| == 4 && |discards| == 4 && |shownPacks| == 4 && |hiddenPacks| == 4 &&
      |hands| == 4 && (forall p :: 0 <= p < 4 ==> |hands[p]| == NumCards) &&
      |shownCounter| == NumCards
    }

    /** Every wall pointer stays inside its wall and no count is negative. */
    ghost predicate Core()
      reads this`seatWinds, this`initialHands, this`walls, this`pointers, this`scores
      reads this`discards, this`shownPacks, this`hiddenPacks, this`hands, this`shownCounter
    {
      Shape() &&
      (forall p :: 0 <= p < 4 ==> 0 <= pointers[p] <= |walls[p]|) &&
      (forall p, c :: 0 <= p < 4 && 0 <= c < NumCards ==> hands[p][c] >= 0)
    }

    /** `wall_remain`. */
    function WallRemain(p: Seat): (n: int)
      reads this`seatWinds, this`initialHands, this`walls, this`pointers, this`scores
      reads this`discards, this`shownPacks, this`hiddenPacks, this`hands, this`shownCounter
      requires Core()
      ensures 0 <= n <= |walls[p]|
    {
      |walls[p]| - pointers[p]
    }

    function Phase(): Phase
      reads this`done, this`queue, this`aboutKong, this`currentCard, this`currentFrom
    {
      if done then Ended
      else if |queue| > 0 && queue[0].Play? then RespondDiscard
      else if |queue| > 0 && queue[0].BuGang? then RobKong
      else if aboutKong && currentCard.Some? && currentFrom.None? then AfterKongDraw
      else if currentCard.Some? && currentFrom.None? then Drawn
      else if currentCard.None? && currentFrom.None? then MustPlay
      else NoPhase
    }

    /** The invariant of a round of responses: the queue holds the discard (or
        added kong) of `currentFrom` followed by one legal response per seat
        that has answered so far, and the active seat is the next to answer. */
    ghost predicate RoundOk()
      reads this`seatWinds, this`initialHands, this`walls, this`pointers, this`scores
      reads this`discards, this`shownPacks, this`hiddenPacks, this`hands, this`shownCounter
      reads this`queue, this`currentFrom, this`currentCard, this`active
      requires Core()
    {
      |queue| <= 4 &&
      (|queue| == 0 ==> currentFrom.None?) &&
      (|queue| > 0 ==>
        currentFrom.Some? && currentCard.Some? &&
        (queue[0] == Play(currentCard.value) || queue[0] == BuGang(currentCard.value)) &&
        active == NextPlayer(currentFrom.value, |queue|) &&
        (queue[0].BuGang? ==>
          hands[currentFrom.value][currentCard.value] >= 1 &&
          HasPeng(shownPacks[currentFrom.value], currentCard.value)) &&
        forall k :: 1 <= k < |queue| ==> ResponseOk(queue[k], k))
    }

    /** The k-th response of the round was legal for the seat that gave it. */
    ghost predicate ResponseOk(a: Action, k: int)
      reads this`seatWinds, this`initialHands, this`walls, this`pointers, this`scores
      reads this`discards, this`shownPacks, this`hiddenPacks, this`hands, this`shownCounter
      reads this`queue, this`currentFrom, this`currentCard, this`active
      requires Core() && |queue| > 0 && currentFrom.Some? && currentCard.Some?
    {
      var seat := NextPlayer(currentFrom.value, k);
      a == Pass ||
      (queue[0].Play? && ClaimOk(a, hands[seat], currentCard.value, k == 1, WallRemain(seat)))
    }

    /** The action space `_update_action_space_and_fan` builds, as a set. */
    ghost predicate Offered(a: Action)
      reads this
      requires Core()
    {
      var hand := hands[active];
      match Phase()
      case Ended => false
      case RespondDiscard =>
        a == Pass || HuOk(a, fan) ||
        (!wallLast && currentCard.Some? &&
         ClaimOk(a, hand, currentCard.value, |queue| == 1, WallRemain(active)))
      case RobKong => a == Pass || HuOk(a, fan)
      case AfterKongDraw => PlayOk(a, hand, currentCard) || HuOk(a, fan)
      case Drawn =>
        PlayOk(a, hand, currentCard) || HuOk(a, fan) ||
        (WallRemain(active) > 0 && KongOk(a, hand, shownPacks[active], currentCard))
      case MustPlay => PlayOk(a, hand, currentCard)
      case NoPhase => false
    }

    ghost predicate SpaceOk()
      reads this
      requires Core()
    {
      forall a :: a in actionSpace <==> Offered(a)
    }

    /** In every phase that may offer Hu, the fan held is the calculator's
        answer for the active seat's hand; after a Chi or Peng it is left
        over from the seat's previous turn. */
    ghost predicate FanOk()
      reads this
      requires Core()
    {
      Phase() in {RespondDiscard, RobKong, AfterKongDraw, Drawn} ==> fan == calculator(FanInputNow())
    }

    /** The engine invariant kept by every public operation. */
    ghost predicate Valid()
      reads this
    {
      Core() && RoundOk() &&
      (!done ==> |queue| < 4 && winner.None? && SpaceOk() && FanOk()) &&
      (winner.None? ==> scores == [0, 0, 0, 0]) &&
      (winner.Some? ==> done && Total(scores) == 0)
    }

    /** The calculator's input for the active seat (`_call_fan_calculator`). */
    function FanInputNow(): (r: FanInput)
      reads this`shownPacks, this`hiddenPacks, this`hands, this`active, this`currentCard
      reads this`currentFrom, this`shownCounter, this`aboutKong, this`wallLast
      reads this`seatWinds, this`prevalentWind
      requires |shownPacks| == 4 && |hiddenPacks| == 4 && |hands| == 4 && |seatWinds| == 4
      requires |hands[active]| == NumCards && |shownCounter| == NumCards
      ensures r.winTile == currentCard && (r.isSelfDrawn <==> currentFrom.None?)
      ensures |r.packs| == |shownPacks[active]| + |hiddenPacks[active]|
    {
      var shown := if currentCard.None? then 0 else shownCounter[currentCard.value];
      FanInput(CombinePacks(shownPacks[active], hiddenPacks[active]),
               GenerateHand(hands[active]),
               currentCard,
               currentFrom.None?,
               shown + 1 == Copies,
               aboutKong,
               wallLast,
               seatWinds[active] - 1,
               prevalentWind - 1)
    }

    // ----- state updates -----

    /** The part of the state a round's resolution changes, as it was
        before. */
    function Snap(): Snapshot
      reads this`pointers, this`done, this`wallLast, this`shownPacks, this`hiddenPacks, this`hands
      reads this`discards, this`shownCounter, this`currentCard, this`currentFrom, this`aboutKong
    {
      Snapshot(WallNow(), shownPacks, hiddenPacks, hands, discards, shownCounter,
               currentCard, currentFrom, aboutKong)
    }

    function WallNow(): WallState
      reads this`pointers, this`done, this`wallLast
    {
      WallState(pointers, done, wallLast)
    }

    /** The effect of `_deal_card` for seat p, from state s: with its wall
        empty the hand is over; otherwise p holds the next tile of its wall
        as the current tile, and the last round begins (for good) once the
        next seat's wall is empty. */
    predicate Drew(p: Seat, s: WallState)
      reads this`walls, this`pointers, this`done, this`currentCard, this`currentFrom, this`wallLast
    {
      |walls| == 4 && |pointers| == 4 && |s.pointers| == 4 &&
      currentFrom.None? &&
      if s.pointers[p] >= |walls[p]| then
        done && currentCard.None? && pointers == s.pointers && wallLast == s.wallLast
      else
        0 <= s.pointers[p] && done == s.done &&
        pointers == s.pointers[p := s.pointers[p] + 1] &&
        currentCard == Some(walls[p][s.pointers[p]]) &&
        wallLast == (s.wallLast || s.pointers[NextPlayer(p, 1)] >= |walls[NextPlayer(p, 1)]|)
    }

    /** `_deal_card`: the active seat draws from its own wall; an empty wall
        ends the hand, and an empty wall of the next seat starts the last
        round (which is never cleared). */
    method DealCard()
      requires Core()
      modifies this`done, this`currentCard, this`currentFrom, this`wallLast, this`pointers
      ensures Core() && Drew(active, old(WallNow()))
    {
      if WallRemain(active) == 0 {
        done := true;
        currentCard, currentFrom := None, None;
        return;
      }
      if WallRemain(NextPlayer(active, 1)) == 0 {
        wallLast := true;
      }
      var card := walls[active][pointers[active]];
      pointers := pointers[active := pointers[active] + 1];
      currentCard, currentFrom := Some(card), None;
    }

    /** `_add_hand_card`: change the active seat's count of one tile. */
    method AddHandCard(card: Card, n: int)
      requires Core() && hands[active][card] + n >= 0
      modifies this`hands
      ensures Core()
      ensures hands == Bumped(old(hands), active, card, n)
    {
      hands := hands[active := hands[active][card := hands[active][card] + n]];
    }

    /** `_add_discard_history`: the tile joins the active seat's discards and
        becomes visible. */
    method AddDiscardHistory(card: Card)
      requires Core()
      modifies this`discards, this`shownCounter
      ensures Core()
      ensures discards == old(discards)[active := old(discards[active]) + [card]]
      ensures shownCounter == old(shownCounter)[card := old(shownCounter[card]) + 1]
    {
      shownCounter := shownCounter[card := shownCounter[card] + 1];
      discards := discards[active := discards[active] + [card]];
    }

    /** `_add_shown_pack`: the meld is appended to seat `to`'s exposed melds
        and its tiles become visible (three for a Chi, three for a Peng,
        four for a Gang, one more for an added kong). */
    method AddShownPack(a: Action, from: Option<Seat>, to: Seat)
      requires Core()
      requires a.Chi? || a.Peng? || a.Gang? || a.BuGang?
      requires a.Chi? ==> IsChiCenter(a.card)
      modifies this`shownPacks, this`shownCounter
      ensures Core()
      ensures shownPacks == old(shownPacks)[to := old(shownPacks[to]) + [Pack(MeldOf(a), a.card, from)]]
      ensures a.Chi? ==> shownCounter == RunShown(old(shownCounter), a.card)
      ensures !a.Chi? ==>
        shownCounter == old(shownCounter)[a.card := old(shownCounter[a.card]) + Exposed(a)]
    {
      shownPacks := shownPacks[to := shownPacks[to] + [Pack(MeldOf(a), a.card, from)]];
      if a.Chi? {
        ChiRun(a.card);
        var i := -1;
        while i < 2
          invariant -1 <= i <= 2 && |shownCounter| == NumCards
          invariant shownPacks == old(shownPacks)[to := old(shownPacks[to]) + [Pack(MeldOf(a), a.card, from)]]
          invariant forall d :: 0 <= d < NumCards ==>
            shownCounter[d] == old(shownCounter[d]) + (if a.card - 1 <= d < a.card + i then 1 else 0)
        {
          shownCounter := shownCounter[a.card + i := shownCounter[a.card + i] + 1];
          i := i + 1;
        }
        assert shownCounter == RunShown(old(shownCounter), a.card);
      } else {
        shownCounter := shownCounter[a.card := shownCounter[a.card] + Exposed(a)];
      }
    }

    /** `_add_hidden_pack`: a concealed kong is recorded by its tile. */
    method AddHiddenPack(a: Action)
      requires Core() && a.AnGang?
      modifies this`hiddenPacks
      ensures Core()
      ensures hiddenPacks == old(hiddenPacks)[active := old(hiddenPacks[active]) + [a.card]]
    {
      hiddenPacks := hiddenPacks[active := hiddenPacks[active] + [a.card]];
    }

    /** `_peng_pack_index_of`: the position of the active seat's first Peng
        of `card`, None when it has none. */
    method PengPackIndexOf(card: Card) returns (r: Option<nat>)
      requires Shape()
      ensures r == FirstPeng(shownPacks[active], card, 0)
    {
      var packs := shownPacks[active];
      var i := 0;
      while i < |packs|
        invariant 0 <= i <= |packs|
        invariant FirstPeng(packs, card, 0) == FirstPeng(packs, card, i)
      {
        if IsPengOf(packs[i], card) {
          return Some(i);
        }
        i := i + 1;
      }
      return None;
    }

    // ----- the action-space generator -----

    /** `_add_play_actions`: a Play of every tile in hand and of the current tile. */
    method AddPlayActions()
      requires Shape()
      modifies this`actionSpace
      ensures forall a :: a in actionSpace <==>
        a in old(actionSpace) || PlayOk(a, hands[active], currentCard)
    {
      var c := 0;
      while c < NumCards
        invariant 0 <= c <= NumCards
        invariant forall a :: a in actionSpace <==>
          a in old(actionSpace) || (a.Play? && a.card < c && hands[active][a.card] > 0)
      {
        if hands[active][c] > 0 {
          actionSpace := actionSpace + [Play(c)];
        }
        c := c + 1;
      }
      if currentCard.Some? {
        actionSpace := actionSpace + [Play(currentCard.value)];
      }
    }

    /** `_add_chi_actions`: with the discarded tile counted in the hand for
        the duration of the test, every chiable centre within one of it whose
        three tiles the hand holds. A tile of a non-numeral suit gives none. */
    method AddChiActions()
      requires Core() && currentCard.Some?
      modifies this`actionSpace
      ensures forall a :: a in actionSpace <==>
        a in old(actionSpace) || (a.Chi? && ChiCandidate(hands[active], currentCard.value, a.card))
    {
      var cur := currentCard.value;
      ChiableSuitLetter(cur);
      if !Chiable(Some(CardName(cur)[..1])) {
        forall a: Action | a.Chi?
          ensures !ChiCandidate(hands[active], cur, a.card)
        {
          NoChiOnHonour(hands[active], cur, a.card);
        }
        return;
      }
      var hand := hands[active][cur := hands[active][cur] + 1];
      var found: seq<Action> := [];
      var i := -1;
      while i < 2
        invariant -1 <= i <= 2 && actionSpace == old(actionSpace)
        invariant forall a :: a in found <==>
          a.Chi? && cur - 1 <= a.card < cur + i && ChiCandidate(hands[active], cur, a.card)
      {
        var x := cur + i;
        ChiTest(hands[active], cur, x);
        if Chiable(CardNameOf(x)) && RunPresent(hand, x) {
          found := found + [Chi(x)];
        }
        i := i + 1;
      }
      actionSpace := actionSpace + found;
    }

    /** `_add_peng_actions`: Peng when the hand holds exactly two of the tile. */
    method AddPengActions()
      requires Shape() && currentCard.Some?
      modifies this`actionSpace
      ensures forall a :: a in actionSpace <==>
        a in old(actionSpace) || (a == Peng(currentCard.value) && hands[active][currentCard.value] == 2)
    {
      if hands[active][currentCard.value] + 1 == 3 {
        actionSpace := actionSpace + [Peng(currentCard.value)];
      }
    }

    /** `_add_gang_actions`: Gang when the hand holds exactly three of the tile. */
    method AddGangActions()
      requires Shape() && currentCard.Some?
      modifies this`actionSpace
      ensures forall a :: a in actionSpace <==>
        a in old(actionSpace) || (a == Gang(currentCard.value) && hands[active][currentCard.value] == 3)
    {
      if hands[active][currentCard.value] + 1 == 4 {
        actionSpace := actionSpace + [Gang(currentCard.value)];
      }
    }

    /** `_add_angang_actions`: a concealed kong of every tile held four
        times, and of the drawn tile when it makes the fourth. */
    method AddAnGangActions()
      requires Shape()
      modifies this`actionSpace
      ensures forall a :: a in actionSpace <==>
        a in old(actionSpace) ||
        (a.AnGang? && (hands[active][a.card] == 4 || (currentCard == Some(a.card) && hands[active][a.card] == 3)))
    {
      var c := 0;
      while c < NumCards
        invariant 0 <= c <= NumCards
        invariant forall a :: a in actionSpace <==>
          a in old(actionSpace) || (a.AnGang? && a.card < c && hands[active][a.card] == 4)
      {
        if hands[active][c] == 4 {
          actionSpace := actionSpace + [AnGang(c)];
        }
        c := c + 1;
      }
      if currentCard.Some? && hands[active][currentCard.value] + 1 == 4 {
        actionSpace := actionSpace + [AnGang(currentCard.value)];
      }
    }

    /** `_add_bugang_actions`: an added kong on every own Peng whose tile the
        hand holds exactly once, and on the one of the drawn tile. */
    method AddBuGangActions()
      requires Shape()
      modifies this`actionSpace
      ensures forall a :: a in actionSpace <==>
        a in old(actionSpace) ||
        (a.BuGang? && HasPeng(shownPacks[active], a.card) &&
         (hands[active][a.card] == 1 || currentCard == Some(a.card)))
    {
      var c := 0;
      while c < NumCards
        invariant 0 <= c <= NumCards
        invariant forall a :: a in actionSpace <==>
          a in old(actionSpace) ||
          (a.BuGang? && a.card < c && HasPeng(shownPacks[active], a.card) && hands[active][a.card] == 1)
      {
        if hands[active][c] == 1 {
          var k := PengPackIndexOf(c);
          if k.Some? {
            actionSpace := actionSpace + [BuGang(c)];
          }
        }
        c := c + 1;
      }
      if currentCard.Some? {
        var k := PengPackIndexOf(currentCard.value);
        if k.Some? {
          actionSpace := actionSpace + [BuGang(currentCard.value)];
        }
      }
    }

    /** `_add_hu_actions_and_update_fan`: ask the calculator about the
        current position and offer Hu when its answer reaches 8 fan. */
    method AddHuActionsAndUpdateFan()
      requires Shape()
      modifies this`fan, this`actionSpace
      ensures fan == calculator(old(FanInputNow()))
      ensures forall a :: a in actionSpace <==> a in old(actionSpace) || HuOk(a, fan)
    {
      fan := calculator(FanInputNow());
      if SumFan(fan) >= MinWinFan {
        actionSpace := actionSpace + [Hu];
      }
    }

    /** The first phase of the generator: another seat's discard may be
        passed, won on, or (unless it is the last tile) claimed. */
    method DiscardResponses()
      requires Core() && actionSpace == [] && Phase() == RespondDiscard && currentCard.Some?
      modifies this`actionSpace, this`fan
      ensures SpaceOk()
      ensures fan == calculator(old(FanInputNow()))
      ensures forall a :: a in actionSpace <==>
        a == Pass || HuOk(a, fan) ||
        (!wallLast && ClaimOk(a, hands[active], currentCard.value, |queue| == 1, WallRemain(active)))
    {
      actionSpace := actionSpace + [Pass];
      AddHuActionsAndUpdateFan();
      AddClaimActions();
      DiscardSpace();
    }

    /** The claims of the first phase: none on the last tile; Peng; Chi for
        the next seat only; Gang while the claimer's wall is not empty. */
    method AddClaimActions()
      requires Core() && currentCard.Some?
      modifies this`actionSpace
      ensures forall a :: a in actionSpace <==>
        a in old(actionSpace) ||
        (!wallLast && ClaimOk(a, hands[active], currentCard.value, |queue| == 1, WallRemain(active)))
    {
      if !wallLast {
        AddPengActions();
        if |queue| == 1 {
          AddChiActions();
        }
        if WallRemain(active) > 0 {
          AddGangActions();
        }
      }
    }

    /** The second phase: another seat's added kong may only be passed or
        robbed. */
    method KongResponses()
      requires Core() && actionSpace == [] && Phase() == RobKong
      modifies this`actionSpace, this`fan
      ensures SpaceOk()
      ensures fan == calculator(old(FanInputNow()))
      ensures forall a :: a in actionSpace <==> a == Pass || HuOk(a, fan)
    {
      actionSpace := actionSpace + [Pass];
      AddHuActionsAndUpdateFan();
      RobKongSpace();
    }

    /** The third and fourth phases: the active seat holds a tile it drew
        (after a kong, only Play and Hu; otherwise also kongs while its wall
        is not empty). */
    method DrawActions()
      requires Core() && actionSpace == [] && Phase() in {AfterKongDraw, Drawn}
      modifies this`actionSpace, this`fan
      ensures SpaceOk()
      ensures fan == calculator(old(FanInputNow()))
      ensures forall a :: a in actionSpace <==>
        PlayOk(a, hands[active], currentCard) || HuOk(a, fan) ||
        (!aboutKong && WallRemain(active) > 0 && KongOk(a, hands[active], shownPacks[active], currentCard))
    {
      AddPlayActions();
      AddHuActionsAndUpdateFan();
      AddKongActions();
      DrawSpace();
    }

    /** The kongs of the fourth phase: only outside a kong's replacement
        draw, and only while the active seat's wall is not empty. */
    method AddKongActions()
      requires Core()
      modifies this`actionSpace
      ensures forall a :: a in actionSpace <==>
        a in old(actionSpace) ||
        (!aboutKong && WallRemain(active) > 0 && KongOk(a, hands[active], shownPacks[active], currentCard))
    {
      if !aboutKong && WallRemain(active) > 0 {
        AddAnGangActions();
        AddBuGangActions();
      }
    }

    // The action space of each phase, written out: a space that lists
    // exactly these actions is the one `Offered` describes.

    lemma DiscardSpace()
      requires Core() && Phase() == RespondDiscard && currentCard.Some?
      requires forall a :: a in actionSpace <==>
        a == Pass || HuOk(a, fan) ||
        (!wallLast && ClaimOk(a, hands[active], currentCard.value, |queue| == 1, WallRemain(active)))
      ensures SpaceOk()
    {
    }

    lemma RobKongSpace()
      requires Core() && Phase() == RobKong
      requires forall a :: a in actionSpace <==> a == Pass || HuOk(a, fan)
      ensures SpaceOk()
    {
    }

    lemma DrawSpace()
      requires Core() && Phase() in {AfterKongDraw, Drawn}
      requires forall a :: a in actionSpace <==>
        PlayOk(a, hands[active], currentCard) || HuOk(a, fan) ||
        (!aboutKong && WallRemain(active) > 0 && KongOk(a, hands[active], shownPacks[active], currentCard))
      ensures SpaceOk()
    {
    }

    lemma MustPlaySpace()
      requires Core() && Phase() == MustPlay
      requires forall a :: a in actionSpace <==> PlayOk(a, hands[active], currentCard)
      ensures SpaceOk()
    {
    }

    lemma IdleSpace()
      requires Core() && Phase() in {Ended, NoPhase} && actionSpace == []
      ensures SpaceOk()
    {
    }

    /** `_update_action_space_and_fan`: rebuild the active seat's action
        space for the current phase (empty once the hand is over); the fan
        is recomputed in the four phases that may offer Hu. */
    method UpdateActionSpaceAndFan()
      requires Core() && (Phase() == RespondDiscard ==> currentCard.Some?)
      modifies this`actionSpace, this`fan
      ensures Core() && SpaceOk()
      ensures done ==> actionSpace == []
      ensures Phase() in {RespondDiscard, RobKong, AfterKongDraw, Drawn} ==>
        fan == calculator(old(FanInputNow()))
      ensures Phase() in {Ended, MustPlay, NoPhase} ==> fan == old(fan)
    {
      actionSpace := [];
      if Phase() in {RespondDiscard, RobKong} {
        ResponseSpace();
      } else {
        TurnSpace();
      }
    }

    /** The space of a seat answering a discard or an added kong. */
    method ResponseSpace()
      requires Core() && actionSpace == [] && Phase() in {RespondDiscard, RobKong}
      requires Phase() == RespondDiscard ==> currentCard.Some?
      modifies this`actionSpace, this`fan
      ensures Core() && SpaceOk()
      ensures fan == calculator(old(FanInputNow()))
    {
      if Phase() == RespondDiscard {
        DiscardResponses();
      } else {
        KongResponses();
      }
    }

    /** The space of the seat whose turn it is, or none once the hand is over. */
    method TurnSpace()
      requires Core() && actionSpace == [] && Phase() !in {RespondDiscard, RobKong}
      modifies this`actionSpace, this`fan
      ensures Core() && SpaceOk()
      ensures done ==> actionSpace == []
      ensures Phase() in {AfterKongDraw, Drawn} ==> fan == calculator(old(FanInputNow()))
      ensures Phase() in {Ended, MustPlay, NoPhase} ==> fan == old(fan)
    {
      match Phase()
      case AfterKongDraw =>
        DrawActions();
      case Drawn =>
        DrawActions();
      case MustPlay =>
        AddPlayActions();
        MustPlaySpace();
      case _ =>
        IdleSpace();
    }

    // ----- resolution of a round of responses -----

    /** An added kong nobody robbed: the seat's first Peng of the tile gives
        way to the kong, the tile leaves its hand, and it draws a
        replacement. */
    method CompleteAddedKong(c: Card)
      requires Core() && hands[active][c] >= 1 && HasPeng(shownPacks[active], c)
      modifies this`aboutKong, this`shownPacks, this`shownCounter, this`hands
      modifies this`done, this`currentCard, this`currentFrom, this`wallLast, this`pointers
      ensures Core() && KongStood(active, c, old(Snap()))
    {
      UpgradePeng(c);
      DealCard();
      aboutKong := true;
    }

    /** The Peng of `c` leaves the active seat's melds, the added kong joins
        them, and the fourth tile leaves the hand. */
    method UpgradePeng(c: Card)
      requires Core() && hands[active][c] >= 1 && HasPeng(shownPacks[active], c)
      modifies this`shownPacks, this`shownCounter, this`hands
      ensures Core()
      ensures FirstPeng(old(shownPacks)[active], c, 0).Some?
      ensures shownPacks == old(shownPacks)[active :=
        RemoveAt(old(shownPacks)[active], FirstPeng(old(shownPacks)[active], c, 0).value) +
        [Pack(BuGangMeld, c, None)]]
      ensures shownCounter == old(shownCounter)[c := old(shownCounter)[c] + 1]
      ensures hands == Bumped(old(hands), active, c, -1)
    {
      var index := PengPackIndexOf(c);
      shownPacks := shownPacks[active := RemoveAt(shownPacks[active], index.value)];
      AddShownPack(BuGang(c), None, active);
      AddHandCard(c, -1);
    }

    /** Seat `seat` takes seat d's discard with a Peng or Gang: it becomes
        the active seat, the meld is exposed, and the tiles of the meld
        leave its hand. */
    method TakeMeld(d: Seat, seat: Seat, a: Action)
      requires Core() && IsClaim(a) && hands[seat][a.card] == Exposed(a) - 1
      modifies this`active, this`shownPacks, this`shownCounter, this`hands
      ensures Core() && active == seat
      ensures shownPacks == old(shownPacks)[seat := old(shownPacks)[seat] + [Pack(MeldOf(a), a.card, Some(d))]]
      ensures shownCounter == old(shownCounter)[a.card := old(shownCounter)[a.card] + Exposed(a)]
      ensures hands == Bumped(old(hands), seat, a.card, 1 - Exposed(a)) && hands[seat][a.card] == 0
    {
      active := seat;
      AddShownPack(a, Some(d), seat);
      AddHandCard(a.card, 1 - Exposed(a));
    }

    /** A Peng or Gang of seat d's discard, by the seat k places after d:
        that seat takes the turn and exposes the meld; after a Gang it draws
        a replacement, after a Peng it must play. */
    method AwardClaim(d: Seat, k: nat, a: Action)
      requires Core() && IsClaim(a) && 1 <= k <= 3
      requires hands[NextPlayer(d, k)][a.card] == Exposed(a) - 1
      modifies this`active, this`aboutKong, this`shownPacks, this`shownCounter, this`hands
      modifies this`done, this`currentCard, this`currentFrom, this`wallLast, this`pointers
      ensures Core()
      ensures active == NextPlayer(d, k) && aboutKong == a.Gang?
      ensures shownPacks == old(shownPacks)[active := old(shownPacks)[active] + [Pack(MeldOf(a), a.card, Some(d))]]
      ensures shownCounter == old(shownCounter)[a.card := old(shownCounter)[a.card] + Exposed(a)]
      ensures hands == Bumped(old(hands), active, a.card, 1 - Exposed(a)) && hands[active][a.card] == 0
      ensures a.Peng? ==>
        currentCard.None? && currentFrom.None? && pointers == old(pointers) &&
        done == old(done) && wallLast == old(wallLast)
      ensures a.Gang? ==> Drew(active, old(WallNow()))
    {
      aboutKong := a.Gang?;
      TakeMeld(d, NextPlayer(d, k), a);
      AfterClaim(a.Gang?);
    }

    /** After a Gang the claimer draws a replacement; after a Peng no tile
        is pending and it must play. */
    method AfterClaim(gang: bool)
      requires Core()
      modifies this`done, this`currentCard, this`currentFrom, this`wallLast, this`pointers
      ensures Core()
      ensures !gang ==>
        currentCard.None? && currentFrom.None? && pointers == old(pointers) &&
        done == old(done) && wallLast == old(wallLast)
      ensures gang ==> Drew(active, old(WallNow()))
    {
      if gang {
        DealCard();
      } else {
        currentCard, currentFrom := None, None;
      }
    }

    /** A Chi of seat d's discard by the next seat: it takes the turn, the
        discard joins its hand, the run leaves it as an exposed meld, and it
        must play. */
    method AwardChi(d: Seat, a: Action)
      requires Core() && a.Chi? && currentCard.Some?
      requires ChiCandidate(hands[NextPlayer(d, 1)], currentCard.value, a.card)
      modifies this`active, this`shownPacks, this`shownCounter, this`hands, this`currentCard, this`currentFrom
      ensures Core()
      ensures active == NextPlayer(d, 1) && currentCard.None? && currentFrom.None?
      ensures shownPacks == old(shownPacks)[active := old(shownPacks)[active] + [Pack(ChiMeld, a.card, Some(d))]]
      ensures shownCounter == RunShown(old(shownCounter), a.card)
      ensures hands == old(hands)[active := ChiTaken(old(hands)[active], old(currentCard).value, a.card)]
    {
      var cur, seat := currentCard.value, NextPlayer(d, 1);
      ChiRun(a.card);
      active := seat;
      AddShownPack(a, Some(d), seat);
      AddHandCard(cur, 1);
      TakeRun(a.card);
      currentCard, currentFrom := None, None;
    }

    /** The tiles of a Chi run leave the active seat's hand, which now
        holds the claimed tile. */
    method TakeRun(c: Card)
      requires Core() && IsChiCenter(c) && 1 <= c - 1 && c + 1 < NumCards
      requires forall d :: c - 1 <= d <= c + 1 ==> hands[active][d] > 0
      modifies this`hands
      ensures Core()
      ensures hands == old(hands)[active := RunTaken(old(hands)[active], c)]
    {
      var i := -1;
      while i < 2
        invariant -1 <= i <= 2 && Core()
        invariant forall p :: 0 <= p < 4 && p != active ==> hands[p] == old(hands)[p]
        invariant forall t :: 0 <= t < NumCards ==>
          hands[active][t] == old(hands)[active][t] - (if c - 1 <= t < c + i then 1 else 0)
      {
        AddHandCard(c + i, -1);
        i := i + 1;
      }
      assert hands[active] == RunTaken(old(hands)[active], c);
    }

    /** Nobody claimed the discard of the active seat: it joins that seat's
        discards, and the next seat draws. */
    method DiscardUnclaimed()
      requires Core() && currentCard.Some?
      modifies this`discards, this`shownCounter, this`active
      modifies this`done, this`currentCard, this`currentFrom, this`wallLast, this`pointers
      ensures Core() && active == NextPlayer(old(active), 1) && Drew(active, old(WallNow()))
      ensures discards == old(discards)[old(active) := old(discards)[old(active)] + [old(currentCard).value]]
      ensures shownCounter == old(shownCounter)[old(currentCard).value := old(shownCounter)[old(currentCard).value] + 1]
    {
      AddDiscardHistory(currentCard.value);
      active := NextPlayer(active, 1);
      DealCard();
    }

    /** The responses of a full round after seat d's discard of `cur`, as
        `ResolveDiscard` relies on them: every Peng or Gang claims `cur` with
        two or three copies in hand, and a Chi by the next seat is one its
        hand allows. */
    ghost predicate ClaimsHold(d: Seat, cur: Card)
      reads this`seatWinds, this`initialHands, this`walls, this`pointers, this`scores
      reads this`discards, this`shownPacks, this`hiddenPacks, this`hands, this`shownCounter, this`queue
      requires Core() && |queue| == 4
    {
      (forall j :: 1 <= j < 4 && IsClaim(queue[j]) ==>
        queue[j].card == cur && hands[NextPlayer(d, j)][cur] == Exposed(queue[j]) - 1) &&
      (queue[1].Chi? ==> ChiCandidate(hands[NextPlayer(d, 1)], cur, queue[1].card))
    }

    lemma RoundClaimsHold()
      requires Core() && RoundOk() && |queue| == 4 && queue[0].Play?
      ensures ClaimsHold(currentFrom.value, currentCard.value)
    {
      forall j | 1 <= j < 4
        ensures ResponseOk(queue[j], j)
      {
      }
    }

    /** How a full round of responses to seat d's discard of `cur` was
        settled: the taker gets the turn and exposes its meld (drawing a
        replacement after a Gang, taking the discard into its hand and
        the run out of it after a Chi); without a taker the tile joins d's
        discards and the next seat draws. */
    predicate Settled(q: seq<Action>, d: Seat, cur: Card, s: Snapshot)
      reads this`walls, this`pointers, this`discards, this`shownPacks, this`hands, this`shownCounter
      reads this`hiddenPacks
      reads this`active, this`aboutKong, this`done, this`currentCard, this`currentFrom, this`wallLast
      requires |q| == 4 && |s.shownPacks| == 4 && |s.hands| == 4 && |s.discards| == 4
      requires (forall p :: 0 <= p < 4 ==> |s.hands[p]| == NumCards) && |s.shownCounter| == NumCards
    {
      match Taker(q)
      case Some(k) =>
        var a := q[k];
        active == NextPlayer(d, k) && aboutKong == a.Gang? &&
        shownPacks == s.shownPacks[active := s.shownPacks[active] + [Pack(MeldOf(a), a.card, Some(d))]] &&
        discards == s.discards && hiddenPacks == s.hiddenPacks &&
        (a.Gang? ==> Drew(active, s.wall)) &&
        (!a.Gang? ==> currentCard.None? && currentFrom.None? && WallNow() == s.wall) &&
        (IsClaim(a) ==>
          hands == Bumped(s.hands, active, a.card, 1 - Exposed(a)) &&
          shownCounter == s.shownCounter[a.card := s.shownCounter[a.card] + Exposed(a)]) &&
        (a.Chi? ==>
          hands == s.hands[active := ChiTaken(s.hands[active], cur, a.card)] &&
          shownCounter == RunShown(s.shownCounter, a.card))
      case None =>
        !aboutKong && active == NextPlayer(d, 1) && Drew(active, s.wall) &&
        shownPacks == s.shownPacks && hands == s.hands && hiddenPacks == s.hiddenPacks &&
        discards == s.discards[d := s.discards[d] + [cur]] &&
        shownCounter == s.shownCounter[cur := s.shownCounter[cur] + 1]
    }

    /** How a round after seat d's added kong of `c` ends when nobody robs
        it: d's first Peng of c becomes the kong (d keeps as many melds),
        one more copy of c is visible, the tile leaves d's hand, and d
        draws a replacement with the kong flag set. */
    predicate KongStood(d: Seat, c: Card, s: Snapshot)
      reads this`walls, this`pointers, this`discards, this`shownPacks, this`hands, this`shownCounter
      reads this`hiddenPacks
      reads this`active, this`aboutKong, this`done, this`currentCard, this`currentFrom, this`wallLast
      requires |s.shownPacks| == 4 && |s.hands| == 4 && |s.shownCounter| == NumCards
      requires forall p :: 0 <= p < 4 ==> |s.hands[p]| == NumCards
    {
      FirstPeng(s.shownPacks[d], c, 0).Some? &&
      active == d && aboutKong && Drew(d, s.wall) && discards == s.discards &&
      hiddenPacks == s.hiddenPacks &&
      shownPacks == s.shownPacks[d :=
        RemoveAt(s.shownPacks[d], FirstPeng(s.shownPacks[d], c, 0).value) + [Pack(BuGangMeld, c, None)]] &&
      shownCounter == s.shownCounter[c := s.shownCounter[c] + 1] &&
      hands == Bumped(s.hands, d, c, -1)
    }

    /** How the round q on seat d's tile `cur` ends, from the table s its
        last answer left: an unrobbed added kong stands; a discard of the
        last tile that nobody won ends the hand, leaving the table and the
        round as they were; any other discard is settled. Unless the hand
        ended, the round is cleared. */
    predicate RoundEnded(q: seq<Action>, d: Seat, cur: Card, s: Snapshot)
      reads this`walls, this`pointers, this`discards, this`shownPacks, this`hands, this`shownCounter
      reads this`active, this`aboutKong, this`done, this`currentCard, this`currentFrom, this`wallLast
      reads this`hiddenPacks, this`queue
      requires |q| == 4 && |s.shownPacks| == 4 && |s.hands| == 4 && |s.discards| == 4
      requires (forall p :: 0 <= p < 4 ==> |s.hands[p]| == NumCards) && |s.shownCounter| == NumCards
    {
      if q[0].BuGang? then queue == [] && KongStood(d, cur, s)
      else if s.wall.wallLast then done && queue == q && Snap() == s.(wall := s.wall.(done := true))
      else queue == [] && Settled(q, d, cur, s)
    }

    /** What the active seat p's own move a does to the table s it was
        made on. AnGang: the kong is recorded, the current tile joins the
        hand, the four tiles leave it, and p draws a replacement with the
        kong flag set. Play: the current tile joins the hand, the played
        one leaves it and opens a round for the next seat. BuGang: the
        current tile joins the hand and the kong's tile opens a round that
        may rob it. Nothing else on the table changes. */
    predicate OwnMoved(a: Action, p: Seat, s: Snapshot)
      reads this`walls, this`pointers, this`discards, this`shownPacks, this`hands, this`shownCounter
      reads this`active, this`aboutKong, this`done, this`currentCard, this`currentFrom, this`wallLast
      reads this`hiddenPacks, this`queue
      requires |s.hiddenPacks| == 4 && |s.hands| == 4 && |s.hands[p]| == NumCards
    {
      shownPacks == s.shownPacks && shownCounter == s.shownCounter && discards == s.discards &&
      match a
      case AnGang(c) =>
        queue == [] && active == p && aboutKong && Drew(p, s.wall) &&
        hiddenPacks == s.hiddenPacks[p := s.hiddenPacks[p] + [c]] &&
        hands == Bumped(Held(s.hands, p, s.currentCard), p, c, -4)
      case Play(c) =>
        queue == [a] && active == NextPlayer(p, 1) && !aboutKong && WallNow() == s.wall &&
        currentCard == Some(c) && currentFrom == Some(p) && hiddenPacks == s.hiddenPacks &&
        hands == Bumped(Held(s.hands, p, s.currentCard), p, c, -1)
      case BuGang(c) =>
        queue == [a] && active == NextPlayer(p, 1) && aboutKong && WallNow() == s.wall &&
        currentCard == Some(c) && currentFrom == Some(p) && hiddenPacks == s.hiddenPacks &&
        hands == Held(s.hands, p, s.currentCard)
      case _ => false
    }

    /** A full round after a discard of the active seat, not on the last
        tile, settled as `Settled` says. */
    method ResolveDiscard()
      requires Core() && |queue| == 4 && currentCard.Some? && currentFrom == Some(active)
      requires ClaimsHold(active, currentCard.value)
      modifies this`active, this`aboutKong, this`shownPacks, this`shownCounter, this`hands, this`discards
      modifies this`done, this`currentCard, this`currentFrom, this`wallLast, this`pointers
      ensures Core() && currentFrom.None?
      ensures Settled(queue, old(currentFrom).value, old(currentCard).value, old(Snap()))
    {
      var k := FindClaim();
      if k < 4 {
        AwardClaim(active, k, queue[k]);
      } else {
        ResolveUnclaimed();
      }
    }

    /** The settlement of a round without Peng or Gang. */
    method ResolveUnclaimed()
      requires Core() && |queue| == 4 && currentCard.Some? && currentFrom == Some(active)
      requires ClaimsHold(active, currentCard.value) && FirstClaim(queue, 1).None?
      modifies this`active, this`aboutKong, this`shownPacks, this`shownCounter, this`hands, this`discards
      modifies this`done, this`currentCard, this`currentFrom, this`wallLast, this`pointers
      ensures Core() && currentFrom.None?
      ensures Settled(queue, old(currentFrom).value, old(currentCard).value, old(Snap()))
    {
      if queue[1].Chi? {
        SettleChi();
      } else {
        SettleUnclaimed();
      }
    }

    /** The next seat's Chi takes the discard. */
    method SettleChi()
      requires Core() && |queue| == 4 && currentCard.Some? && currentFrom == Some(active)
      requires ClaimsHold(active, currentCard.value) && FirstClaim(queue, 1).None?
      requires queue[1].Chi?
      modifies this`active, this`aboutKong, this`shownPacks, this`shownCounter, this`hands, this`discards
      modifies this`done, this`currentCard, this`currentFrom, this`wallLast, this`pointers
      ensures Core() && currentFrom.None?
      ensures Settled(queue, old(currentFrom).value, old(currentCard).value, old(Snap()))
    {
      aboutKong := false;
      AwardChi(active, queue[1]);
    }

    /** Nobody takes the discard: it joins the discarder's river. */
    method SettleUnclaimed()
      requires Core() && |queue| == 4 && currentCard.Some? && currentFrom == Some(active)
      requires ClaimsHold(active, currentCard.value) && FirstClaim(queue, 1).None?
      requires !queue[1].Chi?
      modifies this`active, this`aboutKong, this`shownPacks, this`shownCounter, this`hands, this`discards
      modifies this`done, this`currentCard, this`currentFrom, this`wallLast, this`pointers
      ensures Core() && currentFrom.None?
      ensures Settled(queue, old(currentFrom).value, old(currentCard).value, old(Snap()))
    {
      aboutKong := false;
      DiscardUnclaimed();
    }

    /** The scan of the responses in seat order for the first Peng or Gang:
        its position, or 4 when there is none. */
    method FindClaim() returns (k: nat)
      requires |queue| == 4
      ensures 1 <= k <= 4
      ensures k < 4 ==> IsClaim(queue[k])
      ensures forall j :: 1 <= j < k ==> !IsClaim(queue[j])
      ensures FirstClaim(queue, 1) == if k < 4 then Some(k) else None
    {
      k := 1;
      while k < 4 && !IsClaim(queue[k])
        invariant 1 <= k <= 4
        invariant forall j :: 1 <= j < k ==> !IsClaim(queue[j])
        invariant FirstClaim(queue, 1) == FirstClaim(queue, k)
      {
        k := k + 1;
      }
    }

    /** The end of a round, once every other seat has answered the discard
        or added kong of `currentFrom`: an unrobbed added kong completes; a
        discard of the last tile nobody won ends the hand (the round is left
        as it is); otherwise the discard is resolved. */
    method ResolveRound() returns (stop: bool)
      requires Core() && RoundOk() && |queue| == 4
      modifies this`active, this`aboutKong, this`shownPacks, this`shownCounter, this`hands, this`discards
      modifies this`done, this`currentCard, this`currentFrom, this`wallLast, this`pointers, this`queue
      ensures Core() && RoundOk()
      ensures stop <==> old(queue)[0].Play? && old(wallLast)
      ensures if stop then done else queue == []
      ensures old(wallLast) ==> wallLast
      ensures RoundEnded(old(queue), old(currentFrom).value, old(currentCard).value, old(Snap()))
    {
      if queue[0].BuGang? {
        FinishAddedKong();
      } else if wallLast {
        done := true;
        return true;
      } else {
        SettleDiscard();
      }
      return false;
    }

    /** The added kong of `currentFrom` survived the round. */
    method FinishAddedKong()
      requires Core() && RoundOk() && |queue| == 4 && queue[0].BuGang?
      modifies this`aboutKong, this`shownPacks, this`shownCounter, this`hands
      modifies this`done, this`currentCard, this`currentFrom, this`wallLast, this`pointers, this`queue
      ensures Core() && queue == [] && currentFrom.None?
      ensures KongStood(old(currentFrom).value, old(currentCard).value, old(Snap()))
    {
      ModCongruent(active, currentFrom.value);
      CompleteAddedKong(queue[0].card);
      queue := [];
    }

    /** The discard of `currentFrom` (not the last tile) is settled. */
    method SettleDiscard()
      requires Core() && RoundOk() && |queue| == 4 && queue[0].Play?
      modifies this`active, this`aboutKong, this`shownPacks, this`shownCounter, this`hands, this`discards
      modifies this`done, this`currentCard, this`currentFrom, this`wallLast, this`pointers, this`queue
      ensures Core() && queue == [] && currentFrom.None?
      ensures Settled(old(queue), old(currentFrom).value, old(currentCard).value, old(Snap()))
    {
      RoundClaimsHold();
      ResolveDiscard();
      queue := [];
    }

    // ----- scoring and step -----

    /** `_generate_scores`: nothing changes without a winner; otherwise
        every seat gets the score of the win, and the scores sum to zero. */
    method GenerateScores()
      requires Shape()
      requires winner.Some? && currentFrom.Some? ==> currentFrom.value != winner.value
      modifies this`scores
      ensures Shape()
      ensures winner.None? ==> scores == old(scores)
      ensures winner.Some? ==>
        scores == Scores(winner.value, currentFrom, SumFan(fan)) && Total(scores) == 0
    {
      if winner.None? {
        return;
      }
      ScoresDistribution(winner.value, currentFrom, SumFan(fan), 0);
      scores := Scores(winner.value, currentFrom, SumFan(fan));
    }

    /** During a round the seat to answer is never the one whose tile is
        answered. */
    lemma ResponderIsNotSource()
      requires Core() && RoundOk() && 1 <= |queue| <= 3
      ensures currentFrom.value != active
    {
      NextPlayerMoves(currentFrom.value, |queue|);
    }

    /** A round that has just opened with a discard or an added kong is a
        valid round. */
    lemma RoundOpened()
      requires Core() && |queue| == 1 && currentFrom.Some? && currentCard.Some?
      requires queue[0] == Play(currentCard.value) || queue[0] == BuGang(currentCard.value)
      requires active == NextPlayer(currentFrom.value, 1)
      requires queue[0].BuGang? ==>
        hands[currentFrom.value][currentCard.value] >= 1 &&
        HasPeng(shownPacks[currentFrom.value], currentCard.value)
      ensures RoundOk()
    {
    }

    /** Outside a round the round invariant only asks that no tile is being
        answered. */
    lemma NoRound()
      requires Core() && queue == [] && currentFrom.None?
      ensures RoundOk()
    {
    }

    /** Hu is offered only when the calculator's answer reaches the minimum. */
    lemma HuOffered()
      requires Core() && SpaceOk() && Hu in actionSpace
      ensures SumFan(fan) >= MinWinFan
    {
      assert Offered(Hu);
    }

    /** When Hu is offered, the fan held is the calculator's answer for
        the active seat's hand, and that answer reaches the minimum. */
    lemma HuByCalculator()
      requires Valid() && !done && Hu in actionSpace
      ensures fan == calculator(FanInputNow()) && SumFan(calculator(FanInputNow())) >= MinWinFan
    {
      HuOffered();
      assert Offered(Hu);
    }

    /** Hu: the active seat wins, the hand is over and is scored. */
    method DeclareHu()
      requires Valid() && !done && Hu in actionSpace
      modifies this`done, this`winner, this`scores
      ensures Valid()
      ensures done && winner == Some(active) && SumFan(fan) >= MinWinFan
      ensures scores == Scores(active, currentFrom, SumFan(fan))
    {
      HuOffered();
      if |queue| > 0 {
        ResponderIsNotSource();
      }
      Win();
    }

    /** The active seat wins: the hand is over and is scored. */
    method Win()
      requires Core() && RoundOk() && winner.None?
      requires currentFrom.Some? ==> currentFrom.value != active
      modifies this`done, this`winner, this`scores
      ensures Valid() && done && winner == Some(active)
      ensures scores == Scores(active, currentFrom, SumFan(fan))
    {
      done := true;
      winner := Some(active);
      GenerateScores();
    }

    /** AnGang: the concealed kong is recorded, the drawn tile joins the
        hand, the four tiles leave it, and the seat draws a replacement. */
    method DeclareConcealedKong(a: Action)
      requires Core() && queue == [] && currentCard.Some? && a.AnGang?
      requires hands[active][a.card] + (if currentCard == Some(a.card) then 1 else 0) >= 4
      modifies this`aboutKong, this`hiddenPacks, this`hands
      modifies this`done, this`currentCard, this`currentFrom, this`wallLast, this`pointers
      ensures Core() && RoundOk() && aboutKong && Drew(active, old(WallNow()))
      ensures hiddenPacks == old(hiddenPacks)[active := old(hiddenPacks)[active] + [a.card]]
      ensures hands == Bumped(Held(old(hands), active, old(currentCard)), active, a.card, -4)
    {
      aboutKong := true;
      ConcealKong(a);
      DealCard();
      NoRound();
    }

    /** The tile changes of a concealed kong: the kong is recorded, the drawn
        tile joins the hand and the four tiles leave it. */
    method ConcealKong(a: Action)
      requires Core() && currentCard.Some? && a.AnGang?
      requires hands[active][a.card] + (if currentCard == Some(a.card) then 1 else 0) >= 4
      modifies this`hiddenPacks, this`hands
      ensures Core()
      ensures hiddenPacks == old(hiddenPacks)[active := old(hiddenPacks)[active] + [a.card]]
      ensures hands == Bumped(Bumped(old(hands), active, currentCard.value, 1), active, a.card, -4)
    {
      AddHiddenPack(a);
      AddHandCard(currentCard.value, 1);
      AddHandCard(a.card, -4);
    }

    /** Play: the held current tile (if any) joins the hand, the played tile
        leaves it and becomes the tile the other seats answer, starting with
        the next seat. */
    method PlayTile(a: Action)
      requires Core() && queue == [] && PlayOk(a, hands[active], currentCard)
      modifies this`aboutKong, this`hands, this`currentCard, this`currentFrom, this`queue, this`active
      ensures Core() && RoundOk() && !aboutKong
      ensures queue == [a] && currentCard == Some(a.card) && currentFrom == Some(old(active))
      ensures active == NextPlayer(old(active), 1)
      ensures hands == Bumped(Held(old(hands), old(active), old(currentCard)), old(active), a.card, -1)
    {
      if currentCard.Some? {
        AddHandCard(currentCard.value, 1);
      }
      AddHandCard(a.card, -1);
      OpenRound(a);
      aboutKong := false;
    }

    /** BuGang: the drawn tile joins the hand and the added kong's tile
        becomes the tile the other seats may rob, starting with the next
        seat. */
    method DeclareAddedKong(a: Action)
      requires Core() && queue == [] && currentCard.Some?
      requires KongOk(a, hands[active], shownPacks[active], currentCard) && a.BuGang?
      modifies this`aboutKong, this`hands, this`currentCard, this`currentFrom, this`queue, this`active
      ensures Core() && RoundOk() && aboutKong
      ensures queue == [a] && currentCard == Some(a.card) && currentFrom == Some(old(active))
      ensures active == NextPlayer(old(active), 1)
      ensures hands == Bumped(old(hands), old(active), old(currentCard).value, 1)
    {
      aboutKong := true;
      AddHandCard(currentCard.value, 1);
      OpenRound(a);
    }

    /** The discarded or added tile becomes the one the other seats answer,
        starting with the next seat. */
    method OpenRound(a: Action)
      requires Core() && queue == [] && (a.Play? || a.BuGang?)
      requires a.BuGang? ==> hands[active][a.card] >= 1 && HasPeng(shownPacks[active], a.card)
      modifies this`currentCard, this`currentFrom, this`queue, this`active
      ensures RoundOk()
      ensures queue == [a] && currentCard == Some(a.card) && currentFrom == Some(old(active))
      ensures active == NextPlayer(old(active), 1)
    {
      currentCard, currentFrom := Some(a.card), Some(active);
      queue := queue + [a];
      active := NextPlayer(active, 1);
      RoundOpened();
    }

    /** Pass, Chi, Peng or Gang in answer to the round's tile: it joins the
        round and the next seat answers. */
    method Respond(a: Action)
      requires Core() && RoundOk() && 1 <= |queue| < 4
      requires ResponseOk(a, |queue|)
      modifies this`queue, this`active
      ensures Core() && RoundOk()
      ensures queue == old(queue) + [a] && active == NextPlayer(old(active), 1)
    {
      NextPlayerCompose(currentFrom.value, |queue|, 1);
      queue := queue + [a];
      active := NextPlayer(active, 1);
      assert forall k :: 1 <= k < |queue| - 1 ==> queue[k] == old(queue)[k];
    }

    /** What an offered action other than Hu tells about the state it was
        offered in: the active seat's own moves come outside a round, and
        an answer in a round is a legal response of the seat to answer. */
    lemma OfferedMove(a: Action)
      requires Core() && RoundOk() && |queue| < 4 && Offered(a) && a != Hu
      ensures a.AnGang? ==>
        queue == [] && currentCard.Some? &&
        hands[active][a.card] + (if currentCard == Some(a.card) then 1 else 0) >= 4
      ensures a.Play? ==> queue == [] && PlayOk(a, hands[active], currentCard)
      ensures a.BuGang? ==>
        queue == [] && currentCard.Some? && KongOk(a, hands[active], shownPacks[active], currentCard)
      ensures !a.AnGang? && !a.Play? && !a.BuGang? ==> 1 <= |queue| && ResponseOk(a, |queue|)
    {
    }

    /** `step`: nothing happens once the hand is over; otherwise the active
        seat takes one of the actions offered to it. Hu ends and scores the
        hand; AnGang, Play and BuGang are the active seat's own moves; Pass,
        Chi, Peng and Gang answer the round's tile, and the fourth answer
        closes the round. Unless that ended the hand, the next action space
        is built. */
    method Step(a: Action)
      requires Valid() && (!done ==> a in actionSpace)
      modifies this`active, this`aboutKong, this`shownPacks, this`shownCounter, this`hands, this`discards
      modifies this`done, this`currentCard, this`currentFrom, this`wallLast, this`pointers, this`queue
      modifies this`hiddenPacks, this`actionSpace, this`fan, this`winner, this`scores
      ensures Valid()
      ensures old(done) ==> unchanged(this)
      ensures old(wallLast) ==> wallLast
      ensures winner.Some? <==> old(winner).Some? || (!old(done) && a == Hu)
      ensures !old(done) && a == Hu ==>
        done && winner == Some(old(active)) && SumFan(old(fan)) >= MinWinFan &&
        old(fan) == calculator(old(FanInputNow())) &&
        scores == Scores(old(active), old(currentFrom), SumFan(old(fan)))
      ensures !old(done) && a == Hu ==>
        fan == old(fan) && active == old(active) && queue == old(queue) && actionSpace == old(actionSpace) &&
        Snap() == old(Snap()).(wall := old(Snap()).wall.(done := true))
      ensures !old(done) && (a.AnGang? || a.Play? || a.BuGang?) ==> OwnMoved(a, old(active), old(Snap()))
      ensures !old(done) && (a.Pass? || a.Chi? || a.Peng? || a.Gang?) && |old(queue)| < 3 ==>
        queue == old(queue) + [a] && active == NextPlayer(old(active), 1) && Snap() == old(Snap())
      ensures !old(done) && a != Hu && |old(queue)| == 3 ==>
        RoundEnded(old(queue) + [a], old(currentFrom).value, old(currentCard).value, old(Snap()))
    {
      if !done {
        Act(a);
      }
    }

    /** An offered action while the hand is still on. */
    method Act(a: Action)
      requires Valid() && !done && a in actionSpace
      modifies this`active, this`aboutKong, this`shownPacks, this`shownCounter, this`hands, this`discards
      modifies this`done, this`currentCard, this`currentFrom, this`wallLast, this`pointers, this`queue
      modifies this`hiddenPacks, this`actionSpace, this`fan, this`winner, this`scores
      ensures Valid() && (old(wallLast) ==> wallLast)
      ensures winner.Some? <==> a == Hu
      ensures a == Hu ==>
        done && winner == Some(old(active)) && SumFan(old(fan)) >= MinWinFan &&
        old(fan) == calculator(old(FanInputNow())) &&
        scores == Scores(old(active), old(currentFrom), SumFan(old(fan)))
      ensures a == Hu ==>
        fan == old(fan) && active == old(active) && queue == old(queue) && actionSpace == old(actionSpace) &&
        Snap() == old(Snap()).(wall := old(Snap()).wall.(done := true))
      ensures a.AnGang? || a.Play? || a.BuGang? ==> OwnMoved(a, old(active), old(Snap()))
      ensures (a.Pass? || a.Chi? || a.Peng? || a.Gang?) && |old(queue)| < 3 ==>
        queue == old(queue) + [a] && active == NextPlayer(old(active), 1) && Snap() == old(Snap())
      ensures a != Hu && |old(queue)| == 3 ==>
        RoundEnded(old(queue) + [a], old(currentFrom).value, old(currentCard).value, old(Snap()))
    {
      if a == Hu {
        HuByCalculator();
        DeclareHu();
      } else {
        Move(a);
      }
    }

    /** An offered action other than Hu, followed by the end of the round
        when it was the fourth answer, and the next action space. */
    method Move(a: Action)
      requires Valid() && !done && a in actionSpace && a != Hu
      modifies this`active, this`aboutKong, this`shownPacks, this`shownCounter, this`hands, this`discards
      modifies this`done, this`currentCard, this`currentFrom, this`wallLast, this`pointers, this`queue
      modifies this`hiddenPacks, this`actionSpace, this`fan
      ensures Valid() && (old(wallLast) ==> wallLast)
      ensures a.AnGang? || a.Play? || a.BuGang? ==> OwnMoved(a, old(active), old(Snap()))
      ensures (a.Pass? || a.Chi? || a.Peng? || a.Gang?) && |old(queue)| < 3 ==>
        queue == old(queue) + [a] && active == NextPlayer(old(active), 1) && Snap() == old(Snap())
      ensures |old(queue)| == 3 ==>
        RoundEnded(old(queue) + [a], old(currentFrom).value, old(currentCard).value, old(Snap()))
    {
      if a.AnGang? || a.Play? || a.BuGang? {
        OwnMove(a);
      } else {
        Answer(a);
      }
    }

    /** AnGang, Play or BuGang by the active seat. */
    method OwnMove(a: Action)
      requires Valid() && !done && a in actionSpace && (a.AnGang? || a.Play? || a.BuGang?)
      modifies this`active, this`aboutKong, this`shownPacks, this`shownCounter, this`hands, this`discards
      modifies this`done, this`currentCard, this`currentFrom, this`wallLast, this`pointers, this`queue
      modifies this`hiddenPacks, this`actionSpace, this`fan
      ensures Valid() && old(queue) == [] && (old(wallLast) ==> wallLast)
      ensures OwnMoved(a, old(active), old(Snap()))
    {
      match a {
        case AnGang(_) => ConcealedKongMove(a);
        case Play(_) => PlayMove(a);
        case BuGang(_) => AddedKongMove(a);
      }
    }

    /** AnGang by the active seat, then the next action space. */
    method ConcealedKongMove(a: Action)
      requires Valid() && !done && a in actionSpace && a.AnGang?
      modifies this`active, this`aboutKong, this`shownPacks, this`shownCounter, this`hands, this`discards
      modifies this`done, this`currentCard, this`currentFrom, this`wallLast, this`pointers, this`queue
      modifies this`hiddenPacks, this`actionSpace, this`fan
      ensures Valid() && old(queue) == [] && (old(wallLast) ==> wallLast)
      ensures OwnMoved(a, old(active), old(Snap()))
    {
      OfferedMove(a);
      ghost var p, t := active, Snap();
      DeclareConcealedKong(a);
      assert OwnMoved(a, p, t);
      Refresh();
    }

    /** Play by the active seat, then the next action space. */
    method PlayMove(a: Action)
      requires Valid() && !done && a in actionSpace && a.Play?
      modifies this`active, this`aboutKong, this`shownPacks, this`shownCounter, this`hands, this`discards
      modifies this`done, this`currentCard, this`currentFrom, this`wallLast, this`pointers, this`queue
      modifies this`hiddenPacks, this`actionSpace, this`fan
      ensures Valid() && old(queue) == [] && (old(wallLast) ==> wallLast)
      ensures OwnMoved(a, old(active), old(Snap()))
    {
      OfferedMove(a);
      ghost var p, t := active, Snap();
      PlayTile(a);
      assert OwnMoved(a, p, t);
      Close();
    }

    /** BuGang by the active seat, then the next action space. */
    method AddedKongMove(a: Action)
      requires Valid() && !done && a in actionSpace && a.BuGang?
      modifies this`active, this`aboutKong, this`shownPacks, this`shownCounter, this`hands, this`discards
      modifies this`done, this`currentCard, this`currentFrom, this`wallLast, this`pointers, this`queue
      modifies this`hiddenPacks, this`actionSpace, this`fan
      ensures Valid() && old(queue) == [] && (old(wallLast) ==> wallLast)
      ensures OwnMoved(a, old(active), old(Snap()))
    {
      OfferedMove(a);
      ghost var p, t := active, Snap();
      DeclareAddedKong(a);
      assert OwnMoved(a, p, t);
      Close();
    }

    /** Pass, Chi, Peng or Gang by the seat to answer. */
    method Answer(a: Action)
      requires Valid() && !done && a in actionSpace && !a.AnGang? && !a.Play? && !a.BuGang? && a != Hu
      modifies this`active, this`aboutKong, this`shownPacks, this`shownCounter, this`hands, this`discards
      modifies this`done, this`currentCard, this`currentFrom, this`wallLast, this`pointers, this`queue
      modifies this`actionSpace, this`fan
      ensures Valid() && (old(wallLast) ==> wallLast)
      ensures |old(queue)| < 3 ==>
        queue == old(queue) + [a] && active == NextPlayer(old(active), 1) && Snap() == old(Snap())
      ensures |old(queue)| == 3 ==>
        RoundEnded(old(queue) + [a], old(currentFrom).value, old(currentCard).value, old(Snap()))
    {
      OfferedMove(a);
      Respond(a);
      Close();
    }

    /** After a move: a round with every answer in is resolved; unless that
        ended the hand, the next action space is built. */
    method Close()
      requires Core() && RoundOk() && !done && winner.None? && scores == [0, 0, 0, 0]
      modifies this`active, this`aboutKong, this`shownPacks, this`shownCounter, this`hands, this`discards
      modifies this`done, this`currentCard, this`currentFrom, this`wallLast, this`pointers, this`queue
      modifies this`actionSpace, this`fan
      ensures Valid() && (old(wallLast) ==> wallLast)
      ensures |old(queue)| < 4 ==> queue == old(queue) && active == old(active) && Snap() == old(Snap())
      ensures |old(queue)| == 4 ==>
        RoundEnded(old(queue), old(currentFrom).value, old(currentCard).value, old(Snap()))
    {
      if |queue| == 4 {
        CloseRound();
      } else {
        UpdateActionSpaceAndFan();
      }
    }

    /** The fourth answer is in: the round is resolved and, unless that
        ended the hand, the next action space is built. */
    method CloseRound()
      requires Core() && RoundOk() && |queue| == 4 && !done && winner.None? && scores == [0, 0, 0, 0]
      modifies this`active, this`aboutKong, this`shownPacks, this`shownCounter, this`hands, this`discards
      modifies this`done, this`currentCard, this`currentFrom, this`wallLast, this`pointers, this`queue
      modifies this`actionSpace, this`fan
      ensures Valid() && (old(wallLast) ==> wallLast)
      ensures RoundEnded(old(queue), old(currentFrom).value, old(currentCard).value, old(Snap()))
    {
      ghost var q, d, c, t := queue, currentFrom.value, currentCard.value, Snap();
      var stop := ResolveRound();
      if !stop {
        RefreshAfterRound(q, d, c, t);
      }
    }

    /** Builds the next action space between rounds, restoring `Valid`. */
    method Refresh()
      requires Core() && RoundOk() && queue == [] && winner.None? && scores == [0, 0, 0, 0]
      modifies this`actionSpace, this`fan
      ensures Valid()
    {
      UpdateActionSpaceAndFan();
    }

    /** Builds the next action space after the round q ended, restoring
        `Valid`; how the round ended stays as it was. */
    method RefreshAfterRound(ghost q: seq<Action>, ghost d: Seat, ghost c: Card, ghost t: Snapshot)
      requires Core() && RoundOk() && queue == [] && winner.None? && scores == [0, 0, 0, 0]
      requires |q| == 4 && |t.shownPacks| == 4 && |t.hands| == 4 && |t.discards| == 4
      requires (forall p :: 0 <= p < 4 ==> |t.hands[p]| == NumCards) && |t.shownCounter| == NumCards
      requires RoundEnded(q, d, c, t)
      modifies this`actionSpace, this`fan
      ensures Valid() && RoundEnded(q, d, c, t)
    {
      Refresh();
    }

    /** `__init__`: `wall` is the configured `cards` (validated) or the
        shuffled deck of the seeded or random initializer, and `wind` the
        configured or randomly drawn prevalent wind. */
    constructor (wall: seq<Card>, wind: int, calculator: FanCalculator)
      requires forall c: Card :: multiset(wall)[c] == Copies
      ensures this.calculator == calculator
      ensures initialHands == FixedWallDeal(wall).hands && walls == FixedWallDeal(wall).walls
      ensures prevalentWind == wind && seatWinds == InitialSeatWinds(wind)
      ensures Valid() && Opening()
      ensures !done && |walls[0]| == 21 && currentCard == Some(walls[0][0])
    {
      this.calculator := calculator;
      new;
      ValidatedDeal(wall);
      SetInitialWinds(wind);
      GameStateInitializer();
    }

    /** `reset`: `wall` is the new deal the configured card mode yields
        (None when that mode deals nothing new), and the winds rotate when
        the wind mode is `next`. A `fixed` mode re-deals the configured
        cards, which construction already validated, and a `random` mode
        deals a shuffle without validation, so nothing is required of it. */
    method Reset(wall: Option<seq<Card>>, nextWinds: bool)
      requires Valid()
      modifies this
      ensures wall.Some? ==>
        initialHands == FixedWallDeal(wall.value).hands && walls == FixedWallDeal(wall.value).walls
      ensures wall.None? ==> initialHands == old(initialHands) && walls == old(walls)
      ensures nextWinds ==> (prevalentWind, seatWinds) == NextWinds(old(prevalentWind), old(seatWinds))
      ensures !nextWinds ==> prevalentWind == old(prevalentWind) && seatWinds == old(seatWinds)
      ensures Valid() && Opening()
    {
      if wall.Some? {
        FixedWallInitializer(wall.value, false);
      }
      if nextWinds {
        SetNextWinds();
      }
      GameStateInitializer();
    }

    /** `_set_initial_winds`: seat i's wind is i steps after the prevalent
        wind. */
    method SetInitialWinds(wind: int)
      modifies this`prevalentWind, this`seatWinds
      ensures prevalentWind == wind && seatWinds == InitialSeatWinds(wind)
    {
      prevalentWind := wind;
      seatWinds := InitialSeatWinds(wind);
    }

    /** `_set_next_winds`. */
    method SetNextWinds()
      requires |seatWinds| == 4
      modifies this`prevalentWind, this`seatWinds
      ensures (prevalentWind, seatWinds) == NextWinds(old(prevalentWind), old(seatWinds))
    {
      var winds := seatWinds;
      if NextWind(winds[0], 1) == prevalentWind {
        SetInitialWinds(NextWind(prevalentWind, 1));
      } else {
        seatWinds := seq(4, i requires 0 <= i < 4 => NextWind(winds[i], 1));
      }
    }

    /** `_fixed_wall_initializer` with validation, for a wall that holds
        every tile id four times: by `LegalWallOfIds` that is exactly a
        wall `_is_legal_wall` accepts. */
    method ValidatedDeal(wall: seq<Card>)
      requires forall c: Card :: multiset(wall)[c] == Copies
      modifies this`initialHands, this`walls
      ensures initialHands == FixedWallDeal(wall).hands && walls == FixedWallDeal(wall).walls
      ensures forall i :: 0 <= i < 4 ==> |initialHands[i]| == 13 && |walls[i]| == 21
    {
      LegalWallOfIds(wall);
      FixedWallInitializer(wall, true);
    }

    /** `_fixed_wall_initializer`: a wall that must be validated is legal. */
    method FixedWallInitializer(wall: seq<Card>, needValidation: bool)
      requires needValidation ==> IsLegalWall(Names(wall))
      modifies this`initialHands, this`walls
      ensures initialHands == FixedWallDeal(wall).hands && walls == FixedWallDeal(wall).walls
      ensures needValidation ==> forall i :: 0 <= i < 4 ==> |initialHands[i]| == 13 && |walls[i]| == 21
    {
      if needValidation {
        LegalWallDeal(wall);
      }
      var deal := FixedWallDeal(wall);
      initialHands := deal.hands;
      walls := deal.walls;
    }

    /** The state `_game_state_initializer` leaves: seat 0 has drawn the first
        tile of its wall (or the hand is over at once when that wall is
        empty), every hand counter counts the seat's initial tiles, and
        nothing has been discarded, exposed or scored. */
    ghost predicate Opening()
      reads this`seatWinds, this`initialHands, this`walls, this`pointers, this`scores
      reads this`discards, this`shownPacks, this`hiddenPacks, this`hands, this`shownCounter
      reads this`winner, this`active, this`queue, this`currentFrom, this`aboutKong, this`wallLast
      reads this`done, this`currentCard
    {
      Cleared() && !wallLast &&
      (|walls[0]| == 0 ==> done && currentCard.None? && pointers == [0, 0, 0, 0]) &&
      (|walls[0]| > 0 ==> !done && currentCard == Some(walls[0][0]) && pointers == [1, 0, 0, 0])
    }

    /** Everything but the first draw: seat 0 to act, empty histories, and
        hand counters equal to the initial hands. */
    ghost predicate Cleared()
      reads this`seatWinds, this`initialHands, this`walls, this`pointers, this`scores
      reads this`discards, this`shownPacks, this`hiddenPacks, this`hands, this`shownCounter
      reads this`winner, this`active, this`queue, this`currentFrom, this`aboutKong
    {
      Shape() && winner.None? && scores == [0, 0, 0, 0] && active == 0 && queue == [] &&
      currentFrom.None? && !aboutKong &&
      discards == [[], [], [], []] && shownPacks == [[], [], [], []] && hiddenPacks == [[], [], [], []] &&
      shownCounter == seq(NumCards, c => 0) &&
      (forall p, c: Card :: 0 <= p < 4 ==> hands[p][c] == multiset(initialHands[p])[c])
    }

    /** `_game_state_initializer`. The first draw happens before the
        last-round flag is cleared, so the flag is false after it whatever
        the draw set. */
    method GameStateInitializer()
      requires |seatWinds| == 4 && |initialHands| == 4 && |walls| == 4
      modifies this`done, this`scores, this`fan, this`winner, this`pointers, this`active
      modifies this`actionSpace, this`currentFrom, this`currentCard, this`queue, this`discards
      modifies this`shownPacks, this`hiddenPacks, this`hands, this`shownCounter, this`aboutKong
      modifies this`wallLast
      ensures Valid() && Opening()
    {
      ClearTable();
      FirstDraw();
      Refresh();
    }

    /** Seat 0 draws, then the last-round flag is cleared. */
    method FirstDraw()
      requires Core() && Cleared() && !done && pointers == [0, 0, 0, 0] && currentCard.None?
      modifies this`done, this`currentCard, this`currentFrom, this`wallLast, this`pointers
      ensures Core() && Opening() && RoundOk()
    {
      DealCard();
      wallLast := false;
    }

    /** The assignments of `_game_state_initializer` other than the draw. */
    method ClearTable()
      requires |seatWinds| == 4 && |initialHands| == 4 && |walls| == 4
      modifies this`done, this`scores, this`fan, this`winner, this`pointers, this`active
      modifies this`actionSpace, this`currentFrom, this`currentCard, this`queue, this`discards
      modifies this`shownPacks, this`hiddenPacks, this`hands, this`shownCounter, this`aboutKong
      ensures Core() && Cleared() && !done && pointers == [0, 0, 0, 0] && currentCard.None?
    {
      ClearOutcome();
      ClearTurn();
      ClearPlayers();
    }

    /** No result yet. */
    method ClearOutcome()
      modifies this`done, this`scores, this`fan, this`winner
      ensures !done && scores == [0, 0, 0, 0] && fan.None? && winner.None?
    {
      done := false;
      scores := [0, 0, 0, 0];
      fan := None;
      winner := None;
    }

    /** Seat 0 to act, no pointer moved, no tile pending, no round open. */
    method ClearTurn()
      modifies this`pointers, this`active, this`actionSpace, this`currentFrom, this`currentCard
      modifies this`queue, this`aboutKong
      ensures pointers == [0, 0, 0, 0] && active == 0 && actionSpace == []
      ensures currentFrom.None? && currentCard.None? && queue == [] && !aboutKong
    {
      pointers := [0, 0, 0, 0];
      active := 0;
      actionSpace := [];
      currentFrom, currentCard := None, None;
      queue := [];
      aboutKong := false;
    }

    /** Empty histories and melds; each hand counter counts the seat's
        initial tiles. */
    method ClearPlayers()
      requires |initialHands| == 4
      modifies this`discards, this`shownPacks, this`hiddenPacks, this`hands, this`shownCounter
      ensures discards == [[], [], [], []] && shownPacks == [[], [], [], []] && hiddenPacks == [[], [], [], []]
      ensures hands == [Counts(initialHands[0]), Counts(initialHands[1]), Counts(initialHands[2]), Counts(initialHands[3])]
      ensures shownCounter == seq(NumCards, c => 0)
    {
      discards := [[], [], [], []];
      shownPacks := [[], [], [], []];
      hiddenPacks := [[], [], [], []];
      hands := [Counts(initialHands[0]), Counts(initialHands[1]), Counts(initialHands[2]), Counts(initialHands[3])];
      shownCounter := seq(NumCards, c => 0);
    }
  }

  /** `Counter(hand)` as 34 counts indexed by tile id. */
  function Counts(hand: seq<Card>): (r: seq<int>)
    ensures |r| == NumCards && forall c: Card :: r[c] == multiset(hand)[c] >= 0
  {
    seq(NumCards, c requires 0 <= c < NumCards => multiset(hand)[c])
  }

  /** `_generate_hand` undoes `Counter`: the hand rebuilt from a hand's
      counts holds the same tiles. */
  lemma GenerateHandOfCounts(hand: seq<Card>)
    ensures multiset(GenerateHand(Counts(hand))) == multiset(hand)
  {
    forall c: Card
      ensures multiset(GenerateHand(Counts(hand)))[c] == multiset(hand)[c]
    {
      GenerateHandCounts(Counts(hand), c);
    }
  }

  /** `Counter` undoes `_generate_hand` on counts that are not negative. */
  lemma CountsOfGenerateHand(counts: seq<int>)
    requires |counts| == NumCards && forall c :: 0 <= c < NumCards ==> counts[c] >= 0
    ensures Counts(GenerateHand(counts)) == counts
  {
    forall c: Card
      ensures Counts(GenerateHand(counts))[c] == counts[c]
    {
      GenerateHandCounts(counts, c);
    }
  }

  /** The meld an action exposes. */
  function MeldOf(a: Action): MeldKind
    requires a.Chi? || a.Peng? || a.Gang? || a.BuGang?
  {
    match a
    case Chi(_) => ChiMeld
    case Peng(_) => PengMeld
    case Gang(_) => GangMeld
    case BuGang(_) => BuGangMeld
  }

  /** How many copies of its tile a Peng, Gang or added kong exposes. */
  function Exposed(a: Action): nat
    requires a.Peng? || a.Gang? || a.BuGang?
  {
    if a.Peng? then 3 else if a.Gang? then 4 else 1
  }
}
