/**
 * The wager state machine of the mines game, on values.
 *
 * `GameData` is the `gameData` record; each function below is the effect one
 * event handler has on it. Balances are in hundredths of a credit, bets in
 * whole credits (see module Wagers).
 */
module Rules {
  import opened Optional
  import opened Wagers
  import opened MineField

  /** Credits a new or reset player starts with, in whole credits. */
  const StartingCredits: int := 1000
  /** Tiles per side of the board. */
  const DefaultGridSize: int := 5

  datatype GameData = GameData(
    credits: int,      // balance, in hundredths of a credit
    currentBet: int,   // stake of the current round, in whole credits
    gridSize: int,     // the board has gridSize * gridSize tiles
    mines: seq<int>,
    revealed: seq<int>,
    creditGain: int,   // in hundredths of a credit
    hitCount: int,
    gameStarted: bool)

  function Cells(s: GameData): int {
    s.gridSize * s.gridSize
  }

  /** How many entries of `revealed` are not mines. */
  function SafeCount(revealed: seq<int>, mines: seq<int>): (n: nat)
    ensures n <= |revealed|
    ensures (forall x :: x in revealed ==> x !in mines) ==> n == |revealed|
  {
    if revealed == [] then 0
    else
      var last := revealed[|revealed| - 1];
      SafeCount(revealed[..|revealed| - 1], mines) + (if last in mines then 0 else 1)
  }

  /**
   * What holds in every state the handlers reach: the balance is never
   * negative, creditGain stays 0, mines and revealed tiles are distinct
   * tiles of the board, hitCount counts the revealed tiles that are safe,
   * and during a round a stake is placed and no mine has been revealed.
   */
  predicate Consistent(s: GameData) {
    && 0 <= s.credits
    && 0 <= s.currentBet
    && 0 < s.gridSize
    && s.creditGain == 0
    && NoDuplicates(s.mines) && InRange(s.mines, Cells(s))
    && NoDuplicates(s.revealed) && InRange(s.revealed, Cells(s))
    && s.hitCount == SafeCount(s.revealed, s.mines)
    && (s.gameStarted ==> 0 < s.currentBet && forall x :: x in s.revealed ==> x !in s.mines)
  }

  /** Between rounds: no stake, nothing revealed, no hits; the betting controls are enabled only here. */
  predicate Idle(s: GameData) {
    !s.gameStarted && s.currentBet == 0 && s.hitCount == 0 && s.revealed == [] && s.creditGain == 0
  }

  /** `initGame` and `restartGame`: end the round without paying anything. */
  function ClearRound(s: GameData): (r: GameData)
    ensures Idle(r)
    ensures r.credits == s.credits && r.gridSize == s.gridSize && r.mines == s.mines
    ensures Consistent(s) ==> Consistent(r)
  {
    s.(revealed := [], creditGain := 0, hitCount := 0, gameStarted := false, currentBet := 0)
  }

  /**
   * The state after loading: the `gameData` literal, the stored balance
   * (`stored`, in hundredths) or 1000 credits when none is stored, then `initGame`.
   */
  function Initial(stored: Option<int>): (r: GameData)
    ensures Idle(r) && r.mines == [] && r.gridSize == DefaultGridSize
    ensures r.credits == (if stored.Some? then stored.value else StartingCredits * Scale)
    ensures (stored.Some? ==> 0 <= stored.value) ==> Consistent(r)
  {
    var literal := GameData(StartingCredits * Scale, 0, DefaultGridSize, [], [], 0, 0, false);
    var loaded := literal.(credits := if stored.Some? then stored.value else StartingCredits * Scale);
    ClearRound(loaded)
  }

  /** The guard of `startGame`: a positive stake the balance covers. */
  predicate StakeCovered(s: GameData) {
    0 < s.currentBet && s.currentBet * Scale <= s.credits
  }

  /** `startGame` with `newMines` from the generator: debit the stake and start the round, or change nothing. */
  function StartGame(s: GameData, newMines: seq<int>): (r: GameData)
    ensures StakeCovered(s) ==> r.gameStarted && r.mines == newMines
    ensures StakeCovered(s) ==> r.credits == s.credits - s.currentBet * Scale && 0 <= r.credits
    ensures StakeCovered(s) ==> r.(credits := s.credits, mines := s.mines, gameStarted := s.gameStarted) == s
    ensures !StakeCovered(s) ==> r == s
  {
    if 0 < s.currentBet && s.currentBet * Scale <= s.credits then
      s.(mines := newMines, gameStarted := true, credits := s.credits - s.currentBet * Scale)
    else
      s
  }

  /** The check of the set-bet button: a positive amount of whole credits the balance covers. */
  predicate BetAccepted(s: GameData, amount: int) {
    0 < amount && amount * Scale <= s.credits
  }

  /**
   * The set-bet button with `amount` whole credits: a valid amount becomes
   * the stake and the round starts; any other amount changes nothing.
   */
  function SetBet(s: GameData, amount: int, newMines: seq<int>): (r: GameData)
    ensures !s.gameStarted ==> (r.gameStarted <==> BetAccepted(s, amount))
    ensures BetAccepted(s, amount) ==>
      && r.currentBet == amount
      && r.credits == s.credits - amount * Scale && 0 <= r.credits
      && r.mines == newMines && r.gameStarted
      && r.(currentBet := s.currentBet, credits := s.credits, mines := s.mines, gameStarted := s.gameStarted) == s
    ensures !BetAccepted(s, amount) ==> r == s
  {
    if 0 < amount && amount * Scale <= s.credits then
      StartGame(s.(currentBet := amount), newMines)
    else
      s
  }

  /**
   * `revealTile` on tile `index`: ignored outside a round and for a tile
   * already revealed; a mine ends the round; a safe tile counts one hit.
   * Either way the tile joins `revealed`, and the balance and stake stay.
   */
  function RevealTile(s: GameData, index: int): (r: GameData)
    ensures !s.gameStarted || index in s.revealed ==> r == s
    ensures s.gameStarted && index !in s.revealed ==>
      && r.revealed == s.revealed + [index]
      && r.credits == s.credits && r.currentBet == s.currentBet
      && r.mines == s.mines && r.gridSize == s.gridSize && r.creditGain == s.creditGain
    ensures s.gameStarted && index !in s.revealed && index in s.mines ==>
      !r.gameStarted && r.hitCount == s.hitCount
    ensures s.gameStarted && index !in s.revealed && index !in s.mines ==>
      r.gameStarted && r.hitCount == s.hitCount + 1
  {
    if !s.gameStarted then s
    else if index in s.revealed then s
    else if index in s.mines then s.(gameStarted := false, revealed := s.revealed + [index])
    else s.(hitCount := s.hitCount + 1, revealed := s.revealed + [index])
  }

  /**
   * `cashOut`: outside a round nothing changes; otherwise the stake times
   * the multiplier for the hit count (0 when the table has no entry) plus
   * creditGain is credited and the round is cleared.
   */
  function CashOut(s: GameData): (r: GameData)
    ensures !s.gameStarted ==> r == s
    ensures s.gameStarted ==>
      && r.credits == s.credits + Payout(s.currentBet, s.hitCount) + s.creditGain
      && Idle(r) && r.mines == s.mines && r.gridSize == s.gridSize
  {
    if !s.gameStarted then s
    else
      var paid := s.(credits := s.credits + Payout(s.currentBet, s.hitCount) + s.creditGain,
                     creditGain := 0, hitCount := 0);
      ClearRound(paid)
  }

  /** `resetCredits`: the balance goes back to 1000 credits and nothing else changes. */
  function ResetCredits(s: GameData): (r: GameData)
    ensures r.credits == StartingCredits * Scale
    ensures r.(credits := s.credits) == s
    ensures Consistent(s) ==> Consistent(r)
  {
    s.(credits := StartingCredits * Scale)
  }

  /** Counting one more revealed tile. */
  lemma {:induction false} SafeCountAppend(revealed: seq<int>, mines: seq<int>, x: int)
    ensures SafeCount(revealed + [x], mines) == SafeCount(revealed, mines) + (if x in mines then 0 else 1)
  {
    assert (revealed + [x])[..|revealed|] == revealed;
  }

  /** Setting a bet from an idle state keeps the state consistent, for any mines the generator can return. */
  lemma SetBetConsistent(s: GameData, amount: int, newMines: seq<int>)
    requires Consistent(s) && Idle(s)
    requires NoDuplicates(newMines) && InRange(newMines, Cells(s))
    ensures Consistent(SetBet(s, amount, newMines))
  {
  }

  /** Revealing a tile of the board keeps the state consistent. */
  lemma RevealTileConsistent(s: GameData, index: int)
    requires Consistent(s) && 0 <= index < Cells(s)
    ensures Consistent(RevealTile(s, index))
  {
    var r := RevealTile(s, index);
    if r != s {
      SafeCountAppend(s.revealed, s.mines, index);
      assert forall x :: x in r.revealed ==> x in s.revealed || x == index;
    }
  }

  /** During a round every revealed tile was a hit. */
  lemma HitsDuringRound(s: GameData)
    requires Consistent(s) && s.gameStarted
    ensures s.hitCount == |s.revealed|
  {
  }

  /** Cashing out keeps the state consistent and credits exactly the table payout, never taking anything. */
  lemma CashOutConsistent(s: GameData)
    requires Consistent(s)
    ensures Consistent(CashOut(s))
    ensures s.gameStarted ==> CashOut(s).credits == s.credits + Payout(s.currentBet, s.hitCount)
    ensures s.credits <= CashOut(s).credits
  {
  }

  /** Revealing the same tile twice has the effect of revealing it once. */
  lemma RevealTwice(s: GameData, index: int)
    ensures RevealTile(RevealTile(s, index), index) == RevealTile(s, index)
  {
  }

  /** Restarting twice in a row is the same as restarting once. */
  lemma ClearRoundIdempotent(s: GameData)
    ensures ClearRound(ClearRound(s)) == ClearRound(s)
  {
  }

  /**
   * Past the end of the table the preview and the payout disagree: the
   * preview shows the stake times 1.00 while cashing out pays nothing back.
   */
  lemma CashOutPastTable(s: GameData)
    requires Consistent(s) && s.gameStarted && MaxTabledHits < s.hitCount
    ensures CashOut(s).credits == s.credits
    ensures CashoutPreview(s.currentBet, s.hitCount) == s.currentBet * Scale > 0
  {
  }

  /**
   * A round on the default board: 1000 credits, a bet of 100 with three
   * mines, two safe tiles and a cash-out leave 900 + 135 = 1035 credits.
   */
  lemma TwoHitsThenCashOut(mines: seq<int>, a: int, b: int)
    requires |mines| == 3 && NoDuplicates(mines) && InRange(mines, 25)
    requires a != b && a !in mines && b !in mines
    ensures
      var s0 := Initial(None);
      var s1 := SetBet(s0, 100, mines);
      var s2 := RevealTile(s1, a);
      var s3 := RevealTile(s2, b);
      && s1.credits == 90000
      && s2.hitCount == 1 && CashoutPreview(s2.currentBet, s2.hitCount) == 11300
      && s3.hitCount == 2 && CashoutPreview(s3.currentBet, s3.hitCount) == 13500
      && CashOut(s3).credits == 103500
  {
  }
}
