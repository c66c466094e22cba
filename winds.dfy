/**
 * Seat and wind arithmetic of ChineseStandardMahjongEnv. Winds are 1..4
 * (east, south, west, north), seats 0..3; both rotate modulo 4. Python's
 * `%` with a positive divisor never returns a negative remainder, exactly
 * like Dafny's, so the formulas carry over for every integer argument.
 */
module Winds {

  const NumPlayers: nat := 4
  const NumWinds: nat := 4

  /** A seat at the table. */
  type Seat = p: int | 0 <= p < 4

  /** `_next_wind`: the wind n steps after `wind`. */
  function NextWind(wind: int, n: int): (w: int)
    ensures 1 <= w <= 4
    ensures (w - wind - n) % 4 == 0
  {
    (wind + n - 1) % NumWinds + 1
  }

  /** `_next_player`: the seat n places after `player`. */
  function NextPlayer(player: int, n: int): (q: Seat)
    ensures (q - player - n) % 4 == 0
  {
    (player + n) % NumPlayers
  }

  lemma ModCongruent(x: int, y: int)
    requires 0 <= x < 4 && 0 <= y < 4 && (x - y) % 4 == 0
    ensures x == y
  {
  }

  /** Rotating by a then by b is rotating by a + b. */
  lemma NextWindCompose(wind: int, a: int, b: int)
    ensures NextWind(NextWind(wind, a), b) == NextWind(wind, a + b)
  {
    var u := NextWind(NextWind(wind, a), b);
    var v := NextWind(wind, a + b);
    assert (u - v) % 4 == 0 by {
      assert (u - NextWind(wind, a) - b) % 4 == 0;
      assert (NextWind(wind, a) - wind - a) % 4 == 0;
      assert (v - wind - a - b) % 4 == 0;
      ModSum(u - NextWind(wind, a) - b, NextWind(wind, a) - wind - a, v - wind - a - b);
    }
    ModCongruent(u - 1, v - 1);
  }

  lemma NextPlayerCompose(player: int, a: int, b: int)
    ensures NextPlayer(NextPlayer(player, a), b) == NextPlayer(player, a + b)
  {
    var u := NextPlayer(NextPlayer(player, a), b);
    var v := NextPlayer(player, a + b);
    ModSum(u - NextPlayer(player, a) - b, NextPlayer(player, a) - player - a, v - player - a - b);
    ModCongruent(u, v);
  }

  /** If x, y and z are multiples of 4, so is x + y - z. */
  lemma ModSum(x: int, y: int, z: int)
    requires x % 4 == 0 && y % 4 == 0 && z % 4 == 0
    ensures (x + y - z) % 4 == 0
  {
    assert x == 4 * (x / 4) && y == 4 * (y / 4) && z == 4 * (z / 4);
    assert x + y - z == 4 * (x / 4 + y / 4 - z / 4);
  }

  /** Four steps bring any wind in 1..4 and any seat back to where it started. */
  lemma FullCircle(wind: int, player: Seat)
    requires 1 <= wind <= 4
    ensures NextWind(NextWind(NextWind(NextWind(wind, 1), 1), 1), 1) == wind
    ensures NextPlayer(NextPlayer(NextPlayer(NextPlayer(player, 1), 1), 1), 1) == player
  {
    NextWindCompose(wind, 1, 1);
    NextWindCompose(wind, 2, 1);
    NextWindCompose(wind, 3, 1);
    NextPlayerCompose(player, 1, 1);
    NextPlayerCompose(player, 2, 1);
    NextPlayerCompose(player, 3, 1);
  }

  /** A seat moved by 1, 2 or 3 places is a different seat. */
  lemma NextPlayerMoves(player: Seat, k: int)
    requires 1 <= k <= 3
    ensures NextPlayer(player, k) != player
  {
  }

  /** The four seat winds form a rotation starting at seat 0's wind. */
  ghost predicate WindsRotate(seatWinds: seq<int>)
  {
    |seatWinds| == 4 && forall i :: 0 <= i < 4 ==> seatWinds[i] == NextWind(seatWinds[0], i)
  }

  /** The seat winds `_set_initial_winds` derives from a prevalent wind. */
  function InitialSeatWinds(prevalentWind: int): (seatWinds: seq<int>)
    ensures |seatWinds| == 4
  {
    seq(4, i => NextWind(prevalentWind, i))
  }

  /** `_set_next_winds`: the (prevalent wind, seat winds) of the next hand. */
  function NextWinds(prevalentWind: int, seatWinds: seq<int>): (r: (int, seq<int>))
    requires |seatWinds| == 4
    ensures |r.1| == 4
  {
    if NextWind(seatWinds[0], 1) == prevalentWind then
      (NextWind(prevalentWind, 1), InitialSeatWinds(NextWind(prevalentWind, 1)))
    else
      (prevalentWind, seq(4, i requires 0 <= i < 4 => NextWind(seatWinds[i], 1)))
  }

  lemma InitialSeatWindsRotate(prevalentWind: int)
    ensures WindsRotate(InitialSeatWinds(prevalentWind))
    ensures 1 <= prevalentWind <= 4 ==> InitialSeatWinds(prevalentWind)[0] == prevalentWind
  {
    var s := InitialSeatWinds(prevalentWind);
    forall i | 0 <= i < 4 ensures s[i] == NextWind(s[0], i) {
      NextWindCompose(prevalentWind, 0, i);
    }
  }

  /** `_set_next_winds` keeps the seat winds a rotation, and changes the
      prevalent wind (to the next one) exactly when seat 0's next wind would
      equal it, seat 0 then restarting at the new prevalent wind; otherwise
      every seat wind advances by one. */
  lemma NextWindsRotate(prevalentWind: int, seatWinds: seq<int>)
    requires WindsRotate(seatWinds)
    ensures WindsRotate(NextWinds(prevalentWind, seatWinds).1)
    ensures NextWinds(prevalentWind, seatWinds).0 != prevalentWind ==>
              NextWind(seatWinds[0], 1) == prevalentWind
    ensures NextWind(seatWinds[0], 1) == prevalentWind ==>
              NextWinds(prevalentWind, seatWinds).0 == NextWind(prevalentWind, 1) &&
              NextWinds(prevalentWind, seatWinds).1[0] == NextWind(prevalentWind, 1)
    ensures NextWind(seatWinds[0], 1) != prevalentWind ==>
              forall i :: 0 <= i < 4 ==> NextWinds(prevalentWind, seatWinds).1[i] == NextWind(seatWinds[i], 1)
  {
    var r := NextWinds(prevalentWind, seatWinds);
    if NextWind(seatWinds[0], 1) == prevalentWind {
      InitialSeatWindsRotate(NextWind(prevalentWind, 1));
    } else {
      forall i | 0 <= i < 4 ensures r.1[i] == NextWind(r.1[0], i) {
        NextWindCompose(seatWinds[0], i, 1);
        NextWindCompose(seatWinds[0], 1, i);
      }
    }
  }
}
