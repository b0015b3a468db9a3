/**
 * The shared `gameData` object and the event handlers that update it in
 * place. Each handler's effect on the fields is the matching function of
 * module Rules, and each keeps `Valid()` (`StartGame` when it is entered
 * with nothing revealed, as `SetBet` enters it).
 */
module Session {
  import opened Optional
  import opened Wagers
  import opened MineField
  import Rules

  class Game {
    var credits: int      // hundredths of a credit
    var currentBet: int   // whole credits
    var gridSize: int
    var mines: seq<int>
    var revealed: seq<int>
    var creditGain: int   // hundredths of a credit
    var hitCount: int
    var gameStarted: bool

    /** The fields as a `Rules.GameData` value. */
    function Data(): Rules.GameData
      reads this
    {
      Rules.GameData(credits, currentBet, gridSize, mines, revealed, creditGain, hitCount, gameStarted)
    }

    predicate Valid()
      reads this
    {
      Rules.Consistent(Data())
    }

    /** Page load: the `gameData` literal, `fetchInitialCredits` with the stored balance `stored`, then `initGame`. */
    constructor (stored: Option<int>)
      requires stored.Some? ==> 0 <= stored.value
      ensures Data() == Rules.Initial(stored)
      ensures Valid()
    {
      credits := Rules.StartingCredits * Scale;
      currentBet := 0;
      gridSize := Rules.DefaultGridSize;
      mines := [];
      revealed := [];
      creditGain := 0;
      hitCount := 0;
      gameStarted := false;
      new;
      credits := if stored.Some? then stored.value else Rules.StartingCredits * Scale;
      InitGame();
    }

    /** `initGame`: clear the round, keeping the balance and the mines. */
    method InitGame()
      modifies this
      ensures Data() == Rules.ClearRound(old(Data()))
      ensures old(Valid()) ==> Valid()
    {
      revealed := [];
      creditGain := 0;
      hitCount := 0;
      gameStarted := false;
      currentBet := 0;
    }

    /** `startGame`, with the bomb count chosen and the random draws for the generator. */
    method StartGame(bombCount: nat, draws: seq<real>) returns (started: bool)
      requires EnoughDraws(draws, gridSize * gridSize, bombCount)
      modifies this
      ensures started == Rules.StakeCovered(old(Data()))
      ensures Data() == Rules.StartGame(old(Data()), Sampled(draws, old(gridSize * gridSize), bombCount))
      ensures old(Valid()) && old(revealed) == [] ==> Valid()
    {
      started := currentBet > 0 && currentBet * Scale <= credits;
      if started {
        mines := GenerateMines(bombCount, gridSize * gridSize, draws);
        gameStarted := true;
        credits := credits - currentBet * Scale;
      }
    }

    /**
     * The set-bet button with `amount` whole credits. The controls are
     * enabled only between rounds, hence `Idle`.
     */
    method SetBet(amount: int, bombCount: nat, draws: seq<real>) returns (accepted: bool)
      requires Valid() && Rules.Idle(Data())
      requires EnoughDraws(draws, gridSize * gridSize, bombCount)
      modifies this
      ensures accepted == Rules.BetAccepted(old(Data()), amount)
      ensures Data() == Rules.SetBet(old(Data()), amount, Sampled(draws, old(gridSize * gridSize), bombCount))
      ensures Valid()
    {
      accepted := amount > 0 && amount * Scale <= credits;
      if accepted {
        currentBet := amount;
        var started := StartGame(bombCount, draws);
        assert started;
      }
      Rules.SetBetConsistent(old(Data()), amount, Sampled(draws, old(gridSize * gridSize), bombCount));
    }

    /** A click on tile `index`; tiles exist for the indices of the board only. */
    method RevealTile(index: int)
      requires Valid() && 0 <= index < gridSize * gridSize
      modifies this
      ensures Data() == Rules.RevealTile(old(Data()), index)
      ensures Valid()
    {
      Rules.RevealTileConsistent(Data(), index);
      if !gameStarted {
        return;
      }
      if index in revealed {
        return;
      }
      if index in mines {
        gameStarted := false;
      } else {
        hitCount := hitCount + 1;
      }
      revealed := revealed + [index];
    }

    /** `cashOut`. */
    method CashOut()
      requires Valid()
      modifies this
      ensures Data() == Rules.CashOut(old(Data()))
      ensures Valid()
      ensures old(credits) <= credits
    {
      Rules.CashOutConsistent(Data());
      if !gameStarted {
        return;
      }
      var multiplier := CashOutMultiplier(hitCount);
      var payout := currentBet * multiplier + creditGain;
      credits := credits + payout;
      creditGain := 0;
      hitCount := 0;
      InitGame();
    }

    /** `restartGame`: abandon the round; the stake is not returned. */
    method RestartGame()
      modifies this
      ensures Data() == Rules.ClearRound(old(Data()))
      ensures old(Valid()) ==> Valid()
    {
      creditGain := 0;
      hitCount := 0;
      revealed := [];
      currentBet := 0;
      gameStarted := false;
    }

    /** `resetCredits`. */
    method ResetCredits()
      modifies this
      ensures Data() == Rules.ResetCredits(old(Data()))
      ensures old(Valid()) ==> Valid()
    {
      credits := Rules.StartingCredits * Scale;
    }
  }
}
