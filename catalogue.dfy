/**
 * The static catalogue of ChineseStandardMahjongEnv: the 34 tile names, the
 * 21 tiles that can be the centre of a Chi, the 193 action names, the
 * name/id lookups and the prefix split of an action name.
 *
 * A tile is modelled by its id 0..33 (its position in the name table); an
 * action by the datatype `Action`. The Python tables are built by a
 * comprehension over (type, detail) pairs; here each table is the same
 * sequence written in closed form by index arithmetic, and the lemmas below
 * prove that the lookups are inverse bijections over it.
 */
module Catalogue {
  import opened Wrappers

  const NumCards: nat := 34
  const NumActions: nat := 193

  /** A tile kind, identified by its index in the name table. */
  type Card = c: int | 0 <= c < 34

  /** Suit letters in table order: winds, dragons, characters, bamboos, dots. */
  const CardTypes: seq<char> := ['F', 'J', 'W', 'T', 'B']
  /** Number of ranks of each suit: 4 winds, 3 dragons, 9 of each numeral suit. */
  const SuitSizes: seq<nat> := [4, 3, 9, 9, 9]
  /** Id of the first tile of each suit. */
  const SuitStart: seq<nat> := [0, 4, 7, 16, 25]

  function SuitOf(c: Card): (s: nat)
    ensures s < 5 && SuitStart[s] <= c < SuitStart[s] + SuitSizes[s]
  {
    if c < 4 then 0 else if c < 7 then 1 else if c < 16 then 2 else if c < 25 then 3 else 4
  }

  /** The 1-based rank within the suit (the digit of the tile name). */
  function RankOf(c: Card): (r: nat)
    ensures 1 <= r <= SuitSizes[SuitOf(c)]
  {
    c - SuitStart[SuitOf(c)] + 1
  }

  function DigitChar(d: nat): char
    requires d <= 9
  {
    ('0' as int + d) as char
  }

  /** The two-character tile name: "F1".."F4", "J1".."J3", "W1".."W9", "T1".."T9", "B1".."B9". */
  function CardName(c: Card): string
  {
    [CardTypes[SuitOf(c)], DigitChar(RankOf(c))]
  }

  /** The tile-name table, in id order. */
  function CardNames(): (t: seq<string>)
    ensures |t| == 34
  {
    seq(34, (c: int) requires 0 <= c < 34 => CardName(c))
  }

  lemma {:induction false} CardNameInjective(a: Card, b: Card)
    requires CardName(a) == CardName(b)
    ensures a == b
  {
    assert CardName(a)[0] == CardName(b)[0];
    assert CardName(a)[1] == CardName(b)[1];
    assert SuitOf(a) == SuitOf(b);
  }

  // ----- the (type, detail) combiner -----

  /** One type followed by each of its details, in order. */
  function Block(t: string, details: seq<string>): (r: seq<string>)
    ensures |r| == |details|
  {
    seq(|details|, j requires 0 <= j < |details| => t + details[j])
  }

  /** `_type_detail_combiner`: every type followed by each of its own
      details, type by type, in table order. */
  function Combine(types: seq<string>, details: seq<seq<string>>): (r: seq<string>)
    requires |types| == |details|
    ensures forall i, j :: 0 <= i < |types| && 0 <= j < |details[i]| ==> types[i] + details[i][j] in r
  {
    if types == [] then []
    else
      var first, rest := Block(types[0], details[0]), Combine(types[1..], details[1..]);
      assert forall j :: 0 <= j < |details[0]| ==> first[j] == types[0] + details[0][j];
      assert forall i :: 1 <= i < |types| ==> types[1..][i - 1] == types[i] && details[1..][i - 1] == details[i];
      first + rest
  }

  /** Entries s.. of table r are type t followed by each detail of d. */
  predicate BlockAt(r: seq<string>, t: string, d: seq<string>, s: int)
  {
    0 <= s && s + |d| <= |r| && r[s..s + |d|] == Block(t, d)
  }

  /** A table laid out in blocks, block i starting at `starts[i]` and
      holding type i followed by each of its details, is the combination
      of the types and details from block k on. */
  lemma {:induction false} CombineByBlocks(r: seq<string>, types: seq<string>, details: seq<seq<string>>,
                                           starts: seq<int>, k: nat)
    requires |types| == |details| && |starts| == |types| + 1 && k <= |types|
    requires 0 <= starts[k] && starts[|types|] == |r|
    requires forall i :: k <= i < |types| ==>
               starts[i] + |details[i]| == starts[i + 1] && BlockAt(r, types[i], details[i], starts[i])
    ensures starts[k] <= |r| && r[starts[k]..] == Combine(types[k..], details[k..])
    decreases |types| - k
  {
    if k < |types| {
      CombineByBlocks(r, types, details, starts, k + 1);
      assert types[k..][1..] == types[k + 1..];
      assert details[k..][1..] == details[k + 1..];
      assert r[starts[k]..] == r[starts[k]..starts[k + 1]] + r[starts[k + 1]..];
    }
  }

  /** `_card_types` as one-letter strings. */
  function CardTypeNames(): (t: seq<string>)
    ensures |t| == 5
  {
    seq(5, s requires 0 <= s < 5 => [CardTypes[s]])
  }

  /** The details "1".."n" of a suit of n ranks. */
  function Digits(n: nat): (d: seq<string>)
    requires n <= 9
    ensures |d| == n
  {
    seq(n, i requires 0 <= i < n => [DigitChar(i + 1)])
  }

  /** `_card_details`: 4 winds, 3 dragons, then 9 ranks for each numeral suit. */
  function CardDetails(): (d: seq<seq<string>>)
    ensures |d| == 5
  {
    [Digits(4), Digits(3), Digits(9), Digits(9), Digits(9)]
  }

  /** The tile-name table is `_type_detail_combiner(_card_types, _card_details)`. */
  lemma CardNamesCombine()
    ensures CardNames() == Combine(CardTypeNames(), CardDetails())
  {
    var r, types, details, starts := CardNames(), CardTypeNames(), CardDetails(), SuitStart + [34];
    forall i | 0 <= i < 5
      ensures starts[i] + |details[i]| == starts[i + 1] && BlockAt(r, types[i], details[i], starts[i])
    {
      forall j | 0 <= j < |details[i]|
        ensures r[starts[i] + j] == types[i] + details[i][j]
      {
        assert SuitOf(starts[i] + j) == i;
      }
    }
    CombineByBlocks(r, types, details, starts, 0);
  }

  /** The dictionary lookup of a name: the last index holding `x` (a dict
      comprehension keeps the last key), or None when `x` is absent. */
  function IndexOf<T(==)>(s: seq<T>, x: T): (r: Option<nat>)
    ensures r.Some? ==> r.value < |s| && s[r.value] == x
    ensures r.Some? ==> forall j :: r.value < j < |s| ==> s[j] != x
    ensures r.None? <==> x !in s
  {
    if |s| == 0 then None
    else if s[|s| - 1] == x then Some(|s| - 1)
    else
      assert s == s[..|s| - 1] + [s[|s| - 1]];
      IndexOf(s[..|s| - 1], x)
  }

  /** `card_name`: the name of a tile id, None outside 0..33. */
  function CardNameOf(id: int): (r: Option<string>)
    ensures r.None? <==> !(0 <= id < NumCards)
  {
    if 0 <= id < NumCards then Some(CardNames()[id]) else None
  }

  /** `card_id`: the id of a tile name, None for an unknown name. */
  function CardIdOf(name: string): (r: Option<Card>)
    ensures r.Some? ==> CardNameOf(r.value) == Some(name)
    ensures r.None? <==> name !in CardNames()
  {
    var r := IndexOf(CardNames(), name);
    if r.None? then None else Some(r.value)
  }

  lemma CardIdOfCardName(c: Card)
    ensures CardIdOf(CardName(c)) == Some(c)
    ensures CardNameOf(c) == Some(CardName(c))
  {
    assert CardNames()[c] == CardName(c);
    var r := IndexOf(CardNames(), CardName(c));
    CardNameInjective(r.value, c);
  }

  lemma CardNameOfCardId(name: string)
    ensures CardIdOf(name).Some? ==> CardNameOf(CardIdOf(name).value) == Some(name)
    ensures CardIdOf(name).None? <==> forall c: Card :: CardName(c) != name
  {
    if CardIdOf(name).None? {
      forall c: Card ensures CardName(c) != name {
        assert CardNames()[c] == CardName(c);
      }
    }
  }

  // ----- chiable tiles -----

  function StartsWith(s: string, p: string): bool { p <= s }

  function EndsWith(s: string, ch: char): bool { |s| > 0 && s[|s| - 1] == ch }

  /** `_chiable`: not None and neither a wind, a dragon, a 1 nor a 9. */
  function Chiable(name: Option<string>): bool
  {
    name.Some? &&
    !(StartsWith(name.value, "F") || StartsWith(name.value, "J") ||
      EndsWith(name.value, '1') || EndsWith(name.value, '9'))
  }

  /** A numeral tile (characters, bamboos or dots). */
  predicate IsNumeral(c: Card) { SuitOf(c) >= 2 }

  /** A tile that can be the centre of a Chi: a numeral of rank 2 to 8. */
  predicate IsChiCenter(c: Card) { IsNumeral(c) && 2 <= RankOf(c) <= 8 }

  lemma ChiableCardName(c: Card)
    ensures Chiable(Some(CardName(c))) <==> IsChiCenter(c)
  {
    var n := CardName(c);
    assert StartsWith(n, "F") <==> n[0] == 'F';
    assert StartsWith(n, "J") <==> n[0] == 'J';
  }

  /** Applied to the one-letter suit of a tile (as `_add_chi_actions` does),
      `_chiable` holds exactly for the numeral suits. */
  lemma ChiableSuitLetter(c: Card)
    ensures Chiable(Some(CardName(c)[..1])) <==> IsNumeral(c)
  {
    var n := CardName(c)[..1];
    assert StartsWith(n, "F") <==> n[0] == 'F';
    assert StartsWith(n, "J") <==> n[0] == 'J';
  }

  /** The three tiles of a Chi on centre c are consecutive ranks of one
      numeral suit, all inside the table. */
  lemma ChiRun(c: Card)
    requires IsChiCenter(c)
    ensures 8 <= c <= 32
    ensures SuitOf(c - 1) == SuitOf(c) == SuitOf(c + 1)
    ensures RankOf(c - 1) + 1 == RankOf(c) == RankOf(c + 1) - 1
  {
  }

  /** The k-th chiable tile in table order (W2..W8, T2..T8, B2..B8). */
  function ChiCard(k: nat): (c: Card)
    requires k < 21
    ensures IsChiCenter(c)
  {
    SuitStart[2 + k / 7] + k % 7 + 1
  }

  /** Position of a chiable tile in `_chiable_card_names`. */
  function ChiIndex(c: Card): (k: nat)
    requires IsChiCenter(c)
    ensures k < 21 && ChiCard(k) == c
  {
    (SuitOf(c) - 2) * 7 + RankOf(c) - 2
  }

  /** `_chiable_card_names`, by position. */
  function ChiableNames(): (t: seq<string>)
    ensures |t| == 21
  {
    seq(21, k requires 0 <= k < 21 => CardName(ChiCard(k)))
  }

  /** `_chiable_card_names` lists exactly the chiable tiles, each once, in
      table order: it is the filter of the name table by `_chiable`. */
  lemma ChiableNamesAreFilter(k: nat, k': nat, c: Card)
    requires k < k' < 21
    ensures ChiCard(k) < ChiCard(k')
    ensures IsChiCenter(c) ==> ChiIndex(c) < 21 && ChiCard(ChiIndex(c)) == c
    ensures Chiable(Some(CardName(c))) <==> exists j :: 0 <= j < 21 && ChiCard(j) == c
  {
    ChiableCardName(c);
    if IsChiCenter(c) {
      assert ChiCard(ChiIndex(c)) == c;
    }
  }

  // ----- actions -----

  datatype Action =
    | Pass
    | Hu
    | Play(card: Card)
    | Chi(card: Card)
    | Peng(card: Card)
    | Gang(card: Card)
    | AnGang(card: Card)
    | BuGang(card: Card)

  /** A Chi names its centre tile, which must be chiable. */
  predicate WellFormed(a: Action) { a.Chi? ==> IsChiCenter(a.card) }

  const ActionTypes: seq<string> := ["Pass", "Hu", "Play", "Chi", "Peng", "Gang", "AnGang", "BuGang"]

  function TypeIndex(a: Action): (t: nat)
    ensures t < 8
  {
    match a
    case Pass => 0
    case Hu => 1
    case Play(_) => 2
    case Chi(_) => 3
    case Peng(_) => 4
    case Gang(_) => 5
    case AnGang(_) => 6
    case BuGang(_) => 7
  }

  /** The detail part of an action name: empty for Pass and Hu, else a tile name. */
  function Detail(a: Action): string
  {
    if a.Pass? || a.Hu? then "" else CardName(a.card)
  }

  /** The action name: type followed by detail ("Pass", "Hu", "PlayW5", "ChiT3", ...). */
  function ActionName(a: Action): string
  {
    ActionTypes[TypeIndex(a)] + Detail(a)
  }

  /** First id of each action type's block: Pass 0, Hu 1, Play 2, Chi 36,
      Peng 57, Gang 91, AnGang 125, BuGang 159. */
  const BlockStart: seq<nat> := [0, 1, 2, 36, 57, 91, 125, 159]

  /** The id of an action: its position in the action-name table. */
  function ActionId(a: Action): (i: nat)
    requires WellFormed(a)
    ensures i < NumActions
  {
    match a
    case Pass => 0
    case Hu => 1
    case Play(c) => 2 + c
    case Chi(c) => 36 + ChiIndex(c)
    case Peng(c) => 57 + c
    case Gang(c) => 91 + c
    case AnGang(c) => 125 + c
    case BuGang(c) => 159 + c
  }

  /** The action with a given id. */
  function ActionOfId(i: nat): (a: Action)
    requires i < NumActions
    ensures WellFormed(a)
  {
    if i == 0 then Pass
    else if i == 1 then Hu
    else if i < 36 then Play(i - 2)
    else if i < 57 then Chi(ChiCard(i - 36))
    else if i < 91 then Peng(i - 57)
    else if i < 125 then Gang(i - 91)
    else if i < 159 then AnGang(i - 125)
    else BuGang(i - 159)
  }

  lemma ActionIdBijection(a: Action, i: nat)
    requires WellFormed(a) && i < NumActions
    ensures ActionOfId(ActionId(a)) == a
    ensures ActionId(ActionOfId(i)) == i
  {
    if a.Chi? {
      assert ChiCard(ChiIndex(a.card)) == a.card;
    }
    if 36 <= i < 57 {
      var k := i - 36;
      var c := ChiCard(k);
      assert SuitOf(c) == 2 + k / 7;
    }
  }

  /** The action-name table, in id order. */
  function ActionNames(): (t: seq<string>)
    ensures |t| == 193
  {
    seq(193, (i: int) requires 0 <= i < 193 => ActionName(ActionOfId(i)))
  }

  /** `action_name`: the name of an action id, None outside 0..192. */
  function ActionNameOf(id: int): (r: Option<string>)
    ensures r.None? <==> !(0 <= id < NumActions)
  {
    if 0 <= id < NumActions then Some(ActionNames()[id]) else None
  }

  /** `action_id`: the id of an action name, None for an unknown name. */
  function ActionIdOf(name: string): (r: Option<nat>)
    ensures r.Some? ==> ActionNameOf(r.value) == Some(name)
    ensures r.None? <==> name !in ActionNames()
  {
    IndexOf(ActionNames(), name)
  }

  // ----- action_to_tuple -----

  /** Try the types in order and split off the first one that prefixes `s`;
      None (the Python loop falling through) when no type matches. */
  function SplitPrefix(types: seq<string>, s: string): (r: Option<(string, string)>)
    ensures r.Some? ==> r.value.0 in types && r.value.0 + r.value.1 == s
    ensures r.None? <==> forall t :: t in types ==> !StartsWith(s, t)
  {
    if types == [] then None
    else if StartsWith(s, types[0]) then Some((types[0], s[|types[0]|..]))
    else SplitPrefix(types[1..], s)
  }

  /** `action_to_tuple`: split an action name into (type, tile name). */
  function ActionToTuple(s: string): (r: Option<(string, string)>)
    ensures r.Some? ==> r.value.0 in ActionTypes && r.value.0 + r.value.1 == s
    ensures r.None? <==> forall t :: t in ActionTypes ==> !StartsWith(s, t)
  {
    SplitPrefix(ActionTypes, s)
  }

  lemma {:induction false} SplitPrefixFirst(types: seq<string>, i: nat, s: string)
    requires i < |types| && StartsWith(s, types[i])
    requires forall j :: 0 <= j < i ==> !StartsWith(s, types[j])
    ensures SplitPrefix(types, s) == Some((types[i], s[|types[i]|..]))
  {
    if i > 0 {
      assert !StartsWith(s, types[0]);
      SplitPrefixFirst(types[1..], i - 1, s);
    }
  }

  /** The prefix split recovers type and detail of ANY string built on an
      action type, so in particular of every generated action name. */
  lemma {:induction false} ActionToTupleRoundTrip(t: nat, d: string)
    requires t < 8
    ensures ActionToTuple(ActionTypes[t] + d) == Some((ActionTypes[t], d))
  {
    var s := ActionTypes[t] + d;
    forall j | 0 <= j < t ensures !StartsWith(s, ActionTypes[j]) {
      var k := if ActionTypes[j][0] == ActionTypes[t][0] then 1 else 0;
      assert k < |ActionTypes[j]| && k < |ActionTypes[t]| && ActionTypes[j][k] != ActionTypes[t][k];
      assert s[k] == ActionTypes[t][k];
    }
    SplitPrefixFirst(ActionTypes, t, s);
    assert s[|ActionTypes[t]|..] == d;
  }

  lemma ActionNameSplits(a: Action)
    ensures ActionToTuple(ActionName(a)) == Some((ActionTypes[TypeIndex(a)], Detail(a)))
  {
    ActionToTupleRoundTrip(TypeIndex(a), Detail(a));
  }

  lemma TypeIndexInjective(a: Action, b: Action)
    requires TypeIndex(a) == TypeIndex(b) && Detail(a) == Detail(b)
    ensures a == b
  {
    if !(a.Pass? || a.Hu?) {
      CardNameInjective(a.card, b.card);
    }
  }

  /** Distinct actions have distinct names. */
  lemma ActionNameInjective(a: Action, b: Action)
    requires ActionName(a) == ActionName(b)
    ensures a == b
  {
    ActionNameSplits(a);
    ActionNameSplits(b);
    TypeIndexInjective(a, b);
  }

  /** `action_id(action_name(i)) == i` for all 193 ids, and the name of an
      id lies in the table. */
  lemma ActionTableRoundTrip(i: nat)
    requires i < NumActions
    ensures ActionNameOf(i) == Some(ActionName(ActionOfId(i)))
    ensures ActionIdOf(ActionNames()[i]) == Some(i)
  {
    var r := IndexOf(ActionNames(), ActionNames()[i]);
    ActionNameInjective(ActionOfId(r.value), ActionOfId(i));
    ActionIdBijection(Pass, r.value);
    ActionIdBijection(Pass, i);
  }

  /** Every well-formed action's name is found at that action's id, and an
      unknown name has no id. */
  lemma ActionIdOfActionName(a: Action, name: string)
    requires WellFormed(a)
    ensures ActionIdOf(ActionName(a)) == Some(ActionId(a))
    ensures ActionIdOf(name).None? <==> forall i :: 0 <= i < NumActions ==> ActionNames()[i] != name
  {
    ActionIdBijection(a, 0);
    ActionTableRoundTrip(ActionId(a));
  }

  /** `_action_details`: no detail for Pass and Hu, the chiable tiles for
      Chi, every tile for the other types. */
  function ActionDetails(): (d: seq<seq<string>>)
    ensures |d| == 8
  {
    [[""], [""], CardNames(), ChiableNames(), CardNames(), CardNames(), CardNames(), CardNames()]
  }

  /** The action-name table is `_type_detail_combiner(_action_types, _action_details)`. */
  lemma ActionNamesCombine()
    ensures ActionNames() == Combine(ActionTypes, ActionDetails())
  {
    var r, details, starts := ActionNames(), ActionDetails(), BlockStart + [193];
    forall i | 0 <= i < 8
      ensures starts[i] + |details[i]| == starts[i + 1] && BlockAt(r, ActionTypes[i], details[i], starts[i])
    {
      forall j | 0 <= j < |details[i]|
        ensures r[starts[i] + j] == ActionTypes[i] + details[i][j]
      {
        assert TypeIndex(ActionOfId(starts[i] + j)) == i;
        if i < 2 {
          assert ActionTypes[i] + "" == ActionTypes[i];
        }
      }
    }
    CombineByBlocks(r, ActionTypes, details, starts, 0);
  }
}
