/**
 * Mine placement: rejection sampling of distinct cell indices.
 *
 * `Math.random` is modelled as a sequence of draws supplied by the caller,
 * each a real in [0, 1). A draw lands on cell `floor(d * cells)`; a cell that
 * already holds a mine is drawn again, so the mines are the first `k`
 * distinct cells the draws land on.
 */
module MineField {

  predicate NoDuplicates(s: seq<int>) {
    forall i, j :: 0 <= i < j < |s| ==> s[i] != s[j]
  }

  predicate InRange(s: seq<int>, cells: int) {
    forall x :: x in s ==> 0 <= x < cells
  }

  /** A value `Math.random` can return. */
  predicate IsDraw(d: real) {
    0.0 <= d < 1.0
  }

  predicate AllDraws(draws: seq<real>) {
    forall j :: 0 <= j < |draws| ==> IsDraw(draws[j])
  }

  /** The cell a draw lands on: `Math.floor(draw * cells)`, always a cell of the board. */
  function Position(draw: real, cells: int): (p: int)
    requires IsDraw(draw) && 0 < cells
    ensures 0 <= p < cells
  {
    var c := cells as real;
    var x := draw * c;
    assert x < c by {
      assert 0.0 < (1.0 - draw) * c;
      assert c - x == (1.0 - draw) * c;
    }
    x.Floor
  }

  /** The cells the draws land on, in order. */
  function Landed(draws: seq<real>, cells: int): (s: seq<int>)
    requires AllDraws(draws) && 0 < cells
    ensures |s| == |draws|
    ensures InRange(s, cells)
  {
    seq(|draws|, j requires 0 <= j < |draws| => Position(draws[j], cells))
  }

  /** The distinct elements of `s`, each at its first occurrence. */
  function Distinct(s: seq<int>): (r: seq<int>)
    ensures NoDuplicates(r)
    ensures forall x :: x in r <==> x in s
    ensures |r| <= |s|
  {
    if s == [] then []
    else
      var r := Distinct(s[..|s| - 1]);
      if s[|s| - 1] in r then r else r + [s[|s| - 1]]
  }

  /** The draws hit at least `k` distinct cells, so rejection sampling for `k` mines stops. */
  predicate EnoughDraws(draws: seq<real>, cells: int, k: int) {
    AllDraws(draws) && 0 < cells && k <= |Distinct(Landed(draws, cells))|
  }

  /** The mines that rejection sampling places: the first `k` distinct cells landed on. */
  function Sampled(draws: seq<real>, cells: int, k: nat): (mines: seq<int>)
    requires EnoughDraws(draws, cells, k)
    ensures |mines| == k
    ensures NoDuplicates(mines)
    ensures InRange(mines, cells)
  {
    var all := Distinct(Landed(draws, cells));
    assert forall x :: x in all[..k] ==> x in all;
    all[..k]
  }

  /** Removing the last element of `s` keeps `Distinct` a prefix. */
  lemma {:induction false} DistinctPrefix(s: seq<int>, i: nat)
    requires i <= |s|
    ensures Distinct(s[..i]) <= Distinct(s)
    decreases |s| - i
  {
    if i < |s| {
      var t := s[..|s| - 1];
      assert t[..i] == s[..i];
      DistinctPrefix(t, i);
      assert Distinct(t) <= Distinct(s);
    } else {
      assert s[..i] == s;
    }
  }

  /** Rejection sampling (`generateMines`): draw until `bombCount` distinct cells hold mines. */
  method GenerateMines(bombCount: nat, cells: int, draws: seq<real>) returns (mines: seq<int>)
    requires EnoughDraws(draws, cells, bombCount)
    ensures mines == Sampled(draws, cells, bombCount)
    ensures |mines| == bombCount && NoDuplicates(mines) && InRange(mines, cells)
  {
    ghost var landed := Landed(draws, cells);
    mines := [];
    var i := 0;
    while |mines| < bombCount
      invariant 0 <= i <= |draws|
      invariant mines == Distinct(landed[..i])
      invariant |mines| <= bombCount
      invariant i == |draws| ==> bombCount <= |mines|
      decreases |draws| - i
    {
      var minePos := Position(draws[i], cells);
      assert landed[..i + 1][..i] == landed[..i];
      if minePos !in mines {
        mines := mines + [minePos];
      }
      i := i + 1;
      if i == |draws| {
        assert landed[..i] == landed;
      }
    }
    DistinctPrefix(landed, i);
  }
}
