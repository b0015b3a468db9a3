/**
 * The payout table of the mines game and the arithmetic built on it.
 *
 * Every multiplier in the table has two decimals, so the model keeps
 * multipliers, balances and payouts as integers counted in hundredths of a
 * credit. A bet is a whole number of credits, so a payout in hundredths is
 * exactly `bet * multiplier`.
 */
module Wagers {
  import opened Optional

  /** Hundredths per credit. */
  const Scale: int := 100

  /** Hit count -> payout multiplier, in hundredths (the `bettingMultipliers` object). */
  const BettingMultipliers: map<int, int> := map[
    1 := 113, 2 := 135, 3 := 164, 4 := 200, 5 := 248,
    6 := 310, 7 := 392, 8 := 660, 9 := 880, 10 := 1200,
    11 := 1680, 12 := 2427, 13 := 3641, 14 := 5722, 15 := 9537,
    16 := 17167, 17 := 34335, 18 := 80116, 19 := 240000]

  /** The largest hit count the table has an entry for. */
  const MaxTabledHits: int := 19

  predicate Tabled(hits: int) {
    1 <= hits <= MaxTabledHits
  }

  /** Looks a hit count up in the table; keys are exactly 1..19 and every entry exceeds 1.00. */
  function Lookup(hits: int): (r: Option<int>)
    ensures r.Some? <==> Tabled(hits)
    ensures r.Some? ==> Scale < r.value
  {
    if hits in BettingMultipliers then Some(BettingMultipliers[hits]) else None
  }

  /** The multiplier applied on cash-out: a missing key counts as 0. */
  function CashOutMultiplier(hits: int): (m: int)
    ensures Tabled(hits) ==> m == BettingMultipliers[hits]
    ensures Tabled(hits) ==> Scale < m
    ensures !Tabled(hits) ==> m == 0
  {
    match Lookup(hits)
    case Some(v) => v
    case None => 0
  }

  /** The multiplier shown as "current multiplier" and used for the cash-out preview: a missing key counts as 1.00. */
  function DisplayMultiplier(hits: int): (m: int)
    ensures Tabled(hits) ==> m == CashOutMultiplier(hits)
    ensures !Tabled(hits) ==> m == Scale
  {
    match Lookup(hits)
    case Some(v) => v
    case None => Scale
  }

  /** The multiplier shown as "next multiplier"; None stands for the "N/A" text. */
  function NextMultiplier(hits: int): (m: Option<int>)
    ensures m.Some? <==> 0 <= hits < MaxTabledHits
    ensures m.Some? ==> m.value == CashOutMultiplier(hits + 1)
  {
    Lookup(hits + 1)
  }

  /** What cashing out pays, in hundredths, for a bet of `bet` whole credits after `hits` safe reveals. */
  function Payout(bet: int, hits: int): (p: int)
    ensures 0 <= bet ==> 0 <= p
    ensures 0 < bet && Tabled(hits) ==> bet * Scale < p
    ensures !Tabled(hits) ==> p == 0
  {
    bet * CashOutMultiplier(hits)
  }

  /** The cash-out value shown to the player, in hundredths. */
  function CashoutPreview(bet: int, hits: int): (p: int)
    ensures Tabled(hits) ==> p == Payout(bet, hits)
    ensures !Tabled(hits) ==> p == bet * Scale
  {
    bet * DisplayMultiplier(hits)
  }

  /** One more safe hit raises the multiplier inside the table. */
  lemma MultiplierStep(hits: int)
    requires 1 <= hits < MaxTabledHits
    ensures BettingMultipliers[hits] < BettingMultipliers[hits + 1]
  {
  }

  /** The table is strictly increasing over hit counts 1..19. */
  lemma {:induction false} MultipliersIncrease(i: int, j: int)
    requires 1 <= i < j <= MaxTabledHits
    ensures CashOutMultiplier(i) < CashOutMultiplier(j)
  {
    MultiplierStep(j - 1);
    if i < j - 1 {
      MultipliersIncrease(i, j - 1);
    }
  }

  /** Multiplying by a positive bet keeps a strict order. */
  lemma ScaleStrict(bet: int, a: int, b: int)
    requires 0 < bet && a < b
    ensures bet * a < bet * b
  {
    assert bet * b - bet * a == bet * (b - a);
  }

  /** For a positive bet, the payout grows strictly with every safe hit up to 19. */
  lemma PayoutIncreases(bet: int, i: int, j: int)
    requires 0 < bet
    requires 1 <= i < j <= MaxTabledHits
    ensures Payout(bet, i) < Payout(bet, j)
  {
    MultipliersIncrease(i, j);
    ScaleStrict(bet, CashOutMultiplier(i), CashOutMultiplier(j));
  }
}
