/**
 * The wall of ChineseStandardMahjongEnv: validation of a given 136-tile
 * wall, and the fixed-wall deal into four 13-tile hands and four private
 * walls of equal length.
 */
module Wall {
  import opened Catalogue

  const HandSize: nat := 13
  const Copies: nat := 4

  /** `_is_legal_wall`: every name that occurs occurs exactly 4 times, and
      the set of names is the set of the 34 tile names. */
  predicate IsLegalWall(cards: seq<string>)
  {
    (forall s | s in multiset(cards) :: multiset(cards)[s] == Copies) &&
    (set s | s in cards) == (set n | n in CardNames())
  }

  /** The tile names of a wall of tile ids. */
  function Names(cards: seq<Card>): (names: seq<string>)
    ensures |names| == |cards|
    ensures forall i :: 0 <= i < |cards| ==> names[i] == CardName(cards[i])
  {
    if cards == [] then [] else [CardName(cards[0])] + Names(cards[1..])
  }

  predicate Distinct<T(==)>(s: seq<T>)
  {
    forall i, j :: 0 <= i < |s| && 0 <= j < |s| && s[i] == s[j] ==> i == j
  }

  lemma {:induction false} DistinctCount<T>(s: seq<T>, x: T)
    requires Distinct(s)
    ensures multiset(s)[x] == if x in s then 1 else 0
  {
    if |s| > 0 {
      var t := s[1..];
      assert s == [s[0]] + t;
      assert Distinct(t) by {
        forall i, j | 0 <= i < |t| && 0 <= j < |t| && t[i] == t[j] ensures i == j {
          assert s[i + 1] == s[j + 1];
        }
      }
      DistinctCount(t, x);
      if x == s[0] {
        assert x !in t by {
          forall i | 0 <= i < |t| ensures t[i] != x {
            assert s[i + 1] != s[0];
          }
        }
      }
    }
  }

  lemma CardNamesDistinct()
    ensures Distinct(CardNames())
  {
    forall i, j | 0 <= i < 34 && 0 <= j < 34 && CardNames()[i] == CardNames()[j] ensures i == j {
      CardNameInjective(i, j);
    }
  }

  /** The full deck: 4 copies of every tile name. */
  function FullDeck(): seq<string>
  {
    CardNames() + CardNames() + CardNames() + CardNames()
  }

  /** A wall is legal exactly when it holds every tile name 4 times and no
      other string, i.e. when it is a permutation of the full deck; such a
      wall has 136 tiles. */
  lemma LegalWallIsDeckPermutation(cards: seq<string>)
    ensures IsLegalWall(cards) <==> multiset(cards) == multiset(FullDeck())
    ensures IsLegalWall(cards) ==> |cards| == 136
  {
    CardNamesDistinct();
    var deck := multiset(FullDeck());
    forall s ensures deck[s] == if s in CardNames() then 4 else 0 {
      DistinctCount(CardNames(), s);
    }
    if IsLegalWall(cards) {
      var inWall := set s | s in cards;
      var inTable := set n | n in CardNames();
      forall s ensures multiset(cards)[s] == deck[s] {
        if s in cards {
          assert s in inWall;
          assert s in inTable;
        } else {
          assert s !in inWall;
        }
      }
      assert multiset(cards) == deck;
      assert |cards| == |multiset(cards)| == |deck| == |FullDeck()|;
    }
    if multiset(cards) == deck {
      forall s ensures s in cards <==> s in CardNames() {
        assert s in cards <==> s in multiset(cards);
      }
      assert (set s | s in cards) == (set n | n in CardNames());
    }
  }

  /** A wall of tile ids is legal, as names, exactly when every tile id
      occurs 4 times. */
  lemma LegalWallOfIds(cards: seq<Card>)
    ensures IsLegalWall(Names(cards)) <==> forall c: Card :: multiset(cards)[c] == 4
  {
    var names := Names(cards);
    LegalWallIsDeckPermutation(names);
    CardNamesDistinct();
    forall c: Card ensures multiset(names)[CardName(c)] == multiset(cards)[c] {
      NameCount(cards, c);
    }
    forall s ensures multiset(FullDeck())[s] == if s in CardNames() then 4 else 0 {
      DistinctCount(CardNames(), s);
    }
    if forall c: Card :: multiset(cards)[c] == 4 {
      forall s ensures multiset(names)[s] == multiset(FullDeck())[s] {
        if s in CardNames() {
          var i :| 0 <= i < 34 && CardNames()[i] == s;
          assert multiset(names)[CardName(i)] == multiset(cards)[i];
        } else {
          assert s !in names by {
            forall i | 0 <= i < |names| ensures names[i] != s {
              assert CardNames()[cards[i]] == names[i];
            }
          }
        }
      }
      assert multiset(names) == multiset(FullDeck());
    }
    if IsLegalWall(names) {
      forall c: Card ensures multiset(cards)[c] == 4 {
        assert CardNames()[c] == CardName(c);
      }
    }
  }

  lemma {:induction false} NameCount(cards: seq<Card>, c: Card)
    ensures multiset(Names(cards))[CardName(c)] == multiset(cards)[c]
  {
    if |cards| > 0 {
      var t := cards[1..];
      assert cards == [cards[0]] + t;
      NameCount(t, c);
      if CardName(cards[0]) == CardName(c) {
        CardNameInjective(cards[0], c);
      }
    }
  }

  /** Python slicing `s[i:j]` for 0 <= i <= j: both bounds clamp to |s|. */
  function Slice<T>(s: seq<T>, i: nat, j: nat): seq<T>
    requires i <= j
  {
    if i >= |s| then [] else if j >= |s| then s[i..] else s[i..j]
  }

  datatype Deal<T> = Deal(hands: seq<seq<T>>, walls: seq<seq<T>>)

  /** `_fixed_wall_initializer`: hand i is cards[13i : 13(i+1)], the rest is
      cut into 4 private walls of equal length (a remainder is dropped). */
  function FixedWallDeal<T>(cards: seq<T>): (d: Deal<T>)
    ensures |d.hands| == 4 && |d.walls| == 4
  {
    var complete := Slice(cards, HandSize * 4, |cards| + HandSize * 4);
    Deal(seq(4, i requires 0 <= i < 4 => Slice(cards, HandSize * i, HandSize * (i + 1))),
         seq(4, i requires 0 <= i < 4 => Quarter(complete, i)))
  }

  /** complete_wall[wall_len * i : wall_len * (i+1)] with wall_len = len // 4. */
  function Quarter<T>(s: seq<T>, i: nat): (q: seq<T>)
    requires i < 4
    ensures |q| == |s| / 4
  {
    var len := |s| / 4;
    assert len * (i + 1) <= len * 4 <= |s|;
    s[len * i .. len * (i + 1)]
  }

  function Concat<T>(parts: seq<seq<T>>): seq<T>
  {
    if parts == [] then [] else parts[0] + Concat(parts[1..])
  }

  lemma Concat4<T>(parts: seq<seq<T>>)
    requires |parts| == 4
    ensures Concat(parts) == parts[0] + parts[1] + parts[2] + parts[3]
  {
    var p1 := parts[1..];
    var p2 := p1[1..];
    var p3 := p2[1..];
    assert p3[1..] == [];
    assert Concat(p3) == parts[3];
    assert Concat(p2) == parts[2] + parts[3];
    assert Concat(p1) == parts[1] + (parts[2] + parts[3]);
  }

  /** Four consecutive blocks of length k starting at `from` make up s[from .. from + 4k]. */
  lemma Blocks<T>(s: seq<T>, from: nat, k: nat)
    requires from + 4 * k <= |s|
    ensures s[from .. from + k] + s[from + k .. from + 2 * k] + s[from + 2 * k .. from + 3 * k]
            + s[from + 3 * k .. from + 4 * k] == s[from .. from + 4 * k]
  {
  }

  lemma DealHands<T>(cards: seq<T>)
    requires |cards| >= 52
    ensures var d := FixedWallDeal(cards);
      && (forall i :: 0 <= i < 4 ==> d.hands[i] == cards[13 * i .. 13 * i + 13])
      && Concat(d.hands) == cards[..52]
  {
    var d := FixedWallDeal(cards);
    Concat4(d.hands);
    Blocks(cards, 0, 13);
  }

  lemma QuartersConcat<T>(s: seq<T>)
    requires |s| % 4 == 0
    ensures Quarter(s, 0) + Quarter(s, 1) + Quarter(s, 2) + Quarter(s, 3) == s
  {
    var k := |s| / 4;
    assert |s| == 4 * k;
    Blocks(s, 0, k);
  }

  lemma DealWalls<T>(cards: seq<T>)
    requires |cards| >= 52 && (|cards| - 52) % 4 == 0
    ensures var d := FixedWallDeal(cards);
      && (forall i :: 0 <= i < 4 ==> |d.walls[i]| == (|cards| - 52) / 4)
      && Concat(d.walls) == cards[52..]
  {
    var d := FixedWallDeal(cards);
    var rest := cards[52..];
    assert Slice(cards, 52, |cards| + 52) == rest;
    assert d.walls == [Quarter(rest, 0), Quarter(rest, 1), Quarter(rest, 2), Quarter(rest, 3)];
    Concat4(d.walls);
    QuartersConcat(rest);
  }

  /** For a wall of 52 + 4k tiles, hand i is the i-th block of 13, every
      private wall has k tiles, and the hands followed by the walls give back
      the input. */
  lemma DealRoundTrip<T>(cards: seq<T>)
    requires |cards| >= 52 && (|cards| - 52) % 4 == 0
    ensures var d := FixedWallDeal(cards);
      && (forall i :: 0 <= i < 4 ==> d.hands[i] == cards[13 * i .. 13 * i + 13])
      && (forall i :: 0 <= i < 4 ==> |d.walls[i]| == (|cards| - 52) / 4)
      && Concat(d.hands) + Concat(d.walls) == cards
  {
    DealHands(cards);
    DealWalls(cards);
    assert cards == cards[..52] + cards[52..];
  }

  /** A legal wall deals 13-tile hands and 21-tile private walls. */
  lemma LegalWallDeal(cards: seq<Card>)
    requires IsLegalWall(Names(cards))
    ensures var d := FixedWallDeal(cards);
      && (forall i :: 0 <= i < 4 ==> |d.hands[i]| == 13 && |d.walls[i]| == 21)
      && Concat(d.hands) + Concat(d.walls) == cards
  {
    LegalWallIsDeckPermutation(Names(cards));
    DealRoundTrip(cards);
  }
}
