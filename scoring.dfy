/**
 * The scoring gateway of ChineseStandardMahjongEnv: the fan total of the
 * fan calculator's answer, the calculator's input built from the melds and
 * the hand, and the distribution of points once a seat has won.
 *
 * The fan calculator itself (an external library) is not modelled: the
 * engine receives it as a function value (see module Env). Its answer is
 * None for "not a winning hand" and also for the TypeError the engine
 * catches.
 */
module Scoring {
  import opened Wrappers
  import opened Catalogue
  import opened Winds

  /** The least fan total that allows Hu. */
  const MinWinFan: int := 8

  /** One fan of the calculator's answer: its value and how often it occurs
      (the names the calculator also returns are not modelled). */
  datatype FanEntry = FanEntry(points: int, count: int)

  function SumEntries(entries: seq<FanEntry>): int
  {
    if entries == [] then 0 else entries[0].points * entries[0].count + SumEntries(entries[1..])
  }

  /** `sum_fan`: 0 for no answer, else the sum of value * count. */
  function SumFan(fan: Option<seq<FanEntry>>): int
  {
    if fan.None? then 0 else SumEntries(fan.value)
  }

  /** The total is additive over the calculator's list, so the order in which
      it lists the fans does not matter for a split into two parts. */
  lemma {:induction false} SumEntriesAppend(a: seq<FanEntry>, b: seq<FanEntry>)
    ensures SumEntries(a + b) == SumEntries(a) + SumEntries(b)
  {
    if a == [] {
      assert a + b == b;
    } else {
      assert (a + b)[1..] == a[1..] + b;
      SumEntriesAppend(a[1..], b);
    }
  }

  /** No answer totals 0 (so never allows Hu); an answer whose values and
      counts are non-negative totals at least each of its entries. */
  lemma {:induction false} SumFanBounds(fan: Option<seq<FanEntry>>, i: nat)
    requires fan.Some? ==> forall e :: e in fan.value ==> e.points >= 0 && e.count >= 0
    ensures fan.None? ==> SumFan(fan) == 0 && SumFan(fan) < MinWinFan
    ensures fan.Some? && i < |fan.value| ==> SumFan(fan) >= fan.value[i].points * fan.value[i].count >= 0
  {
    if fan.Some? && i < |fan.value| {
      var s := fan.value;
      assert s == s[..i] + s[i..];
      SumEntriesAppend(s[..i], s[i..]);
      SumEntriesNonNegative(s[..i]);
      SumEntriesNonNegative(s[i + 1..]);
      assert s[i..] == [s[i]] + s[i + 1..];
    }
  }

  lemma {:induction false} SumEntriesNonNegative(entries: seq<FanEntry>)
    requires forall e :: e in entries ==> e.points >= 0 && e.count >= 0
    ensures SumEntries(entries) >= 0
  {
    if entries != [] {
      assert entries[0] in entries;
      SumEntriesNonNegative(entries[1..]);
    }
  }

  // ----- melds and the calculator's input -----

  /** The kind of an exposed meld as the engine records it. */
  datatype MeldKind = ChiMeld | PengMeld | GangMeld | BuGangMeld

  /** An exposed meld: kind, tile (the centre tile for a Chi), and the seat
      that supplied the claimed tile (None for an added kong). */
  datatype Pack = Pack(kind: MeldKind, tile: Card, from: Option<Seat>)

  /** The meld kinds the calculator distinguishes. */
  datatype PackType = GANG | CHI | PENG

  /** One meld of the calculator's input: type, tile, and 1 for an exposed
      meld or 0 for a concealed kong. */
  datatype PackInput = PackInput(packType: PackType, tile: Card, exposed: int)

  /** The calculator's full input (flower count 0 and the verbose flag are
      constants of the call and left out). */
  datatype FanInput = FanInput(
    packs: seq<PackInput>,
    hand: seq<Card>,
    winTile: Option<Card>,
    isSelfDrawn: bool,
    is4thTile: bool,
    isAboutKong: bool,
    isWallLast: bool,
    seatWind: int,
    prevalentWind: int)

  /** `_reformat_packs` on an exposed meld: a kong (claimed or added) becomes
      GANG, a Chi or Peng keeps its kind. */
  function ReformatShown(p: Pack): PackInput
  {
    match p.kind
    case GangMeld => PackInput(GANG, p.tile, 1)
    case BuGangMeld => PackInput(GANG, p.tile, 1)
    case ChiMeld => PackInput(CHI, p.tile, 1)
    case PengMeld => PackInput(PENG, p.tile, 1)
  }

  /** `_reformat_packs` on a concealed kong (stored as a bare tile). */
  function ReformatHidden(c: Card): PackInput
  {
    PackInput(GANG, c, 0)
  }

  /** `_combine_packs`: the exposed melds, then the concealed kongs, reformatted. */
  function CombinePacks(shown: seq<Pack>, hidden: seq<Card>): (r: seq<PackInput>)
    ensures |r| == |shown| + |hidden|
    ensures forall i :: 0 <= i < |shown| ==>
      r[i].tile == shown[i].tile && r[i].exposed == 1 &&
      (r[i].packType == GANG <==> shown[i].kind in {GangMeld, BuGangMeld}) &&
      (r[i].packType == CHI <==> shown[i].kind == ChiMeld) &&
      (r[i].packType == PENG <==> shown[i].kind == PengMeld)
    ensures forall j :: 0 <= j < |hidden| ==> r[|shown| + j] == PackInput(GANG, hidden[j], 0)
  {
    seq(|shown|, i requires 0 <= i < |shown| => ReformatShown(shown[i])) +
    seq(|hidden|, j requires 0 <= j < |hidden| => ReformatHidden(hidden[j]))
  }

  /** `(card,) * n`: n copies of a tile, none when n <= 0. */
  function Repeat(c: Card, n: int): (r: seq<Card>)
    ensures |r| == if n <= 0 then 0 else n
    ensures forall x :: x in r ==> x == c
  {
    if n <= 0 then [] else [c] + Repeat(c, n - 1)
  }

  function Max0(n: int): nat { if n <= 0 then 0 else n }

  /** The tiles of the hand with an id below n, in id order. */
  function HandBelow(counts: seq<int>, n: nat): seq<Card>
    requires n <= |counts| == 34
  {
    if n == 0 then [] else HandBelow(counts, n - 1) + Repeat(n - 1, counts[n - 1])
  }

  lemma {:induction false} RepeatCount(c: Card, n: int)
    ensures multiset(Repeat(c, n)) == multiset{}[c := Max0(n)]
  {
    if n > 0 {
      RepeatCount(c, n - 1);
    }
  }

  lemma {:induction false} HandBelowCount(counts: seq<int>, n: nat, c: Card)
    requires n <= |counts| == 34
    ensures multiset(HandBelow(counts, n))[c] == if c < n then Max0(counts[c]) else 0
  {
    if n > 0 {
      HandBelowCount(counts, n - 1, c);
      RepeatCount(n - 1, counts[n - 1]);
    }
  }

  /** `_generate_hand`: the hand as a list of tiles, each tile as often as its
      count says. (The engine lists them in its counter's insertion order;
      this model lists them by tile id.) */
  function GenerateHand(counts: seq<int>): seq<Card>
    requires |counts| == 34
  {
    HandBelow(counts, |counts|)
  }

  /** Every tile occurs in the generated hand as often as its count says
      (never, for a count of 0 or less). */
  lemma GenerateHandCounts(counts: seq<int>, c: Card)
    requires |counts| == 34
    ensures multiset(GenerateHand(counts))[c] == Max0(counts[c])
  {
    HandBelowCount(counts, |counts|, c);
  }

  // ----- score distribution -----

  /** The score of one seat once `winner` has won with `fanSum` fan;
      `from` is the seat that discarded the winning tile, None if self-drawn. */
  function ScoreOf(player: Seat, winner: Seat, from: Option<Seat>, fanSum: int): int
  {
    var selfDrawnWinner := (MinWinFan + fanSum) * (NumPlayers - 1);
    var selfDrawnLoser := -(MinWinFan + fanSum);
    var offerLoser := selfDrawnLoser;
    var nonOfferLoser := -MinWinFan;
    var offeredWinner := -offerLoser - nonOfferLoser * (NumPlayers - 1 - 1);
    if from.None? then
      (if player == winner then selfDrawnWinner else selfDrawnLoser)
    else
      (if player == winner then offeredWinner
       else if player == from.value then offerLoser
       else nonOfferLoser)
  }

  /** `_generate_scores` for a hand with a winner. */
  function Scores(winner: Seat, from: Option<Seat>, fanSum: int): (r: seq<int>)
    ensures |r| == 4
  {
    seq(4, p requires 0 <= p < 4 => ScoreOf(p, winner, from, fanSum))
  }

  function Total(s: seq<int>): int
  {
    if s == [] then 0 else s[0] + Total(s[1..])
  }

  lemma Total4(s: seq<int>)
    requires |s| == 4
    ensures Total(s) == s[0] + s[1] + s[2] + s[3]
  {
    var s1 := s[1..];
    var s2 := s1[1..];
    var s3 := s2[1..];
    assert s3[1..] == [];
    assert Total(s3) == s[3];
  }

  /** Self-drawn: the winner collects 3 * (8 + F) and every other seat pays
      8 + F. Off a discard: the discarder pays 8 + F, the two others pay 8
      each, and the winner collects 24 + F. Either way the scores sum to 0. */
  lemma ScoresDistribution(winner: Seat, from: Option<Seat>, fanSum: int, p: Seat)
    requires from.Some? ==> from.value != winner
    ensures Total(Scores(winner, from, fanSum)) == 0
    ensures from.None? ==>
      Scores(winner, from, fanSum)[p] ==
        (if p == winner then 3 * (MinWinFan + fanSum) else -(MinWinFan + fanSum))
    ensures from.Some? ==>
      Scores(winner, from, fanSum)[p] ==
        (if p == winner then 3 * MinWinFan + fanSum
         else if p == from.value then -(MinWinFan + fanSum)
         else -MinWinFan)
  {
    var s := Scores(winner, from, fanSum);
    Total4(s);
    if from.Some? {
      var d := from.value;
      assert s[0] + s[1] + s[2] + s[3] == s[winner] + s[d] - 2 * MinWinFan;
    }
  }
}
