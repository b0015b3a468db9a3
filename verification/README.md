# Mines wager game: a Dafny model of its state machine

The game is a browser "mines" wager. A player bets whole credits. A 5×5 board
is seeded with hidden mines. The player then reveals tiles one at a time:
each safe tile ("hit") raises a payout multiplier, and a mine ends the round
with the stake lost. A round in progress can be cashed out for
`bet × multiplier(hits)`. `restartGame` clears a lost round; if it is called
during a round, the stake is forfeited.

This project models the wager state machine in `game.js`:

- the `gameData` record;
- the payout table;
- mine placement by rejection sampling;
- the set-bet, reveal, cash-out, restart and reset-credits handlers;
- the cash-out preview arithmetic.

Files:

- `optional.dfy`: module `Optional` holds the `Option` datatype, used for a table key that may be missing and a stored balance that may be absent.
- `wagers.dfy`: module `Wagers` holds the `bettingMultipliers` table, its two fallbacks (0 on cash-out, 1.00 on display) and the payout and preview arithmetic.
- `minefield.dfy`: module `MineField` holds `generateMines` as a `while` loop over a sequence of random draws. It is proved to return the first `k` distinct cells drawn, all distinct and all on the board.
- `rules.dfy`: module `Rules` holds `GameData`, the `gameData` record as a value. It has one function per handler, giving that handler's effect. It also holds `Consistent`, the invariant every handler keeps, and lemmas about the handlers.
- `session.dfy`: module `Session` holds class `Game`, whose fields are the `gameData` fields. Its methods update those fields in place as the handlers do. Each method's contract ties the new fields to the matching `Rules` function and keeps `Valid()`; `StartGame` keeps it when it is entered between rounds with nothing revealed, which is how `SetBet` calls it.

Units. The source computes with JavaScript floats. Every multiplier has two
decimals, so the model uses exact integers in hundredths of a credit for:

- multipliers (1.13 is `113`);
- the balance `credits`;
- `creditGain`;
- payouts.

`currentBet` stays in whole credits, because the source gets it from
`parseInt`. Starting a round therefore debits `currentBet * 100` hundredths,
and a cash-out credits `currentBet * multiplier` hundredths.

Randomness. `Math.random()` is a parameter: a sequence `draws` of reals in
[0, 1). A draw `d` lands on cell `floor(d * gridSize²)`, as at game.js:100.

Behaviours of the code worth knowing:

- A revealed mine is appended to `revealed` like a safe tile (game.js:309-332).
- `hitCount` therefore equals the number of revealed tiles that are not mines, which can be less than `|revealed|` after a loss (game.js:325, game.js:332). The two agree during a round (`Rules.HitsDuringRound`).
- Nothing checks the bomb count against the number of cells (game.js:82, game.js:97-106).
- Cashing out with 0 hits, or with more than 19, pays 0; it still clears the round (game.js:205-214).
- Nothing clears `mines` between rounds (game.js:50-61, game.js:226-238). This is harmless, because reveals are ignored outside a round (game.js:298).

## Model

| member | source | states |
|---|---|---|
| `Wagers.Lookup` | game.js:27-47 | the table has an entry exactly for hit counts 1..19, and every entry exceeds 1.00 |
| `Wagers.CashOutMultiplier` | game.js:205 | the cash-out multiplier is the table entry, and 0 for a hit count outside 1..19 |
| `Wagers.DisplayMultiplier` | game.js:373 | the displayed multiplier equals the cash-out one inside 1..19 and is 1.00 outside it |
| `Wagers.NextMultiplier` | game.js:374 | a next multiplier exists exactly for hit counts 0..18 and is the entry for one more hit; otherwise it is "N/A" |
| `Wagers.Payout` | game.js:205-206 | a payout is never negative for a non-negative bet; it is more than the stake for 1..19 hits and 0 outside that range |
| `Wagers.CashoutPreview` | game.js:356-362 | the preview equals the payout for 1..19 hits and is the stake times 1.00 otherwise |
| `Wagers.MultipliersIncrease` | game.js:27-47 | the table is strictly increasing over hit counts 1..19 |
| `Wagers.PayoutIncreases` | game.js:205-206 | for a positive bet, more hits (up to 19) always pay strictly more |
| `MineField.Position` | game.js:100 | `floor(random * cells)` always lands on a cell of the board |
| `MineField.Distinct` | game.js:101-103 | skipping cells already drawn keeps the distinct cells, each once, in drawing order |
| `MineField.Sampled` | game.js:97-106 | the placed mines are exactly `k` distinct cells of the board |
| `MineField.GenerateMines` | game.js:97-106 | the loop returns the first `bombCount` distinct cells the draws land on, so exactly `bombCount` pairwise-distinct indices in `[0, cells)` |
| `Rules.SafeCount` | game.js:322-325 | the hit count never exceeds the number of revealed tiles, and equals it when no revealed tile is a mine |
| `Rules.ClearRound` | game.js:50-61 | clearing a round leaves no stake, no hits, nothing revealed and no round running; the balance, board and mines stay; consistency is kept |
| `Rules.Initial` | game.js:2-11 | at load, the balance is the stored one or 1000 credits; the board is 5×5 with no mines; no round is running |
| `Rules.StartGame` | game.js:80-94 | a positive stake the balance covers is debited exactly and starts the round with the new mines, and nothing else changes; otherwise nothing changes |
| `Rules.SetBet` | game.js:248-259 | between rounds, a bet starts a round iff `0 < amount ≤ credits`; on success the stake is `amount`, the balance drops by exactly `amount` and stays ≥ 0, the mines are regenerated and nothing else changes; on failure nothing changes |
| `Rules.RevealTile` | game.js:297-333 | a reveal outside a round or of a revealed tile changes nothing; otherwise the tile is appended to `revealed`, with balance, stake and mines unchanged; a mine ends the round with hits unchanged; a safe tile adds one hit and the round goes on |
| `Rules.CashOut` | game.js:199-216 | outside a round nothing changes; otherwise the balance gains `bet × multiplier(hits) + creditGain` and the round is cleared |
| `Rules.ResetCredits` | game.js:241-245 | the balance becomes 1000 credits and nothing else changes |
| `Rules.SetBetConsistent` | game.js:248-259 | a bet placed between rounds keeps every invariant, whatever distinct on-board mines are drawn |
| `Rules.RevealTileConsistent` | game.js:309-332 | a reveal keeps `revealed` free of duplicates, keeps `hitCount` equal to the revealed non-mines, and keeps every revealed tile safe while the round runs |
| `Rules.HitsDuringRound` | game.js:322-332 | while a round runs, every revealed tile was a hit |
| `Rules.CashOutConsistent` | game.js:199-216 | a cash-out keeps every invariant, credits exactly `bet × multiplier(hits)` (creditGain is always 0), and never lowers the balance |
| `Rules.RevealTwice` | game.js:303-306 | revealing the same tile twice has the effect of revealing it once |
| `Rules.ClearRoundIdempotent` | game.js:226-238 | restarting twice equals restarting once |
| `Rules.CashOutPastTable` | game.js:205-206 | after more than 19 hits, the preview shows the stake while a cash-out pays nothing |
| `Rules.TwoHitsThenCashOut` | game.js:248-259 | 1000 credits, a bet of 100 and two safe reveals give previews 113.00 and 135.00, and a cash-out leaves 1035 credits |
| `Session.Game.constructor` | game.js:265-267 | the loaded game is `Rules.Initial` of the stored balance and is valid |
| `Session.Game.InitGame` | game.js:50-61 | the fields become `Rules.ClearRound` of the old ones |
| `Session.Game.StartGame` | game.js:80-94 | reports whether the stake was covered; the fields become `Rules.StartGame` with the mines `generateMines` places; entered with nothing revealed, validity is kept |
| `Session.Game.SetBet` | game.js:248-259 | reports whether the bet was accepted; the fields become `Rules.SetBet` with the sampled mines; validity is kept |
| `Session.Game.RevealTile` | game.js:297-333 | the fields become `Rules.RevealTile` of the old ones; validity is kept |
| `Session.Game.CashOut` | game.js:199-216 | the fields become `Rules.CashOut` of the old ones; validity is kept and the balance never falls |
| `Session.Game.RestartGame` | game.js:226-238 | the fields become `Rules.ClearRound` of the old ones |
| `Session.Game.ResetCredits` | game.js:241-245 | the fields become `Rules.ResetCredits` of the old ones |

## Left out

- Rendering and UI toggling are not modelled, because they are presentation only. This covers `renderGameBoard`, `enableBoard`/`disableBoard`, `revealAllMines`, `resetUI`, `disableBettingUI`, the restart-button helpers, `resetDisplay` and every text and style write.
- `localStorage` is not modelled. The stored balance read at load is the constructor's `stored` parameter. The writes in `updateCredits` and `resetCredits` are not modelled.
- `alert`, `console.log` and listener attachment are not modelled.
- Floating-point rounding is not modelled. For example, `100 * 1.13` is `112.99999999999999` in JavaScript, while the model computes exact hundredths. `toFixed(2)` formatting is not modelled either.
- `parseInt` of the inputs is not modelled. The bet amount, bomb count and tile index are integers. An empty or non-numeric bet input parses to `NaN`, which the source rejects like a non-positive amount; that case is not represented.
- The first definitions of `revealTile` (game.js:152-186) and `updateHitDisplay` (game.js:284-294) are not modelled. Later declarations of the same names replace them.
- `MineField.GenerateMines` and the `StartGame`/`SetBet` methods consume a finite sequence of draws, not an endless random stream. They require the draws to land on at least `bombCount` distinct cells. Under that requirement the loop stops. The source loops forever when the bomb count exceeds the number of cells; that case is not modelled.
- `Session.Game.SetBet` requires `Rules.Idle` (no round running, nothing revealed, no stake). The set-bet handler does not check this itself. The controls are disabled from the start of a round until a cash-out or restart (game.js:219-223, game.js:321, game.js:71-77). The value-level `Rules.SetBet` has no such requirement.
- `Session.Game.RevealTile` requires the index to be a tile of the board, because tiles exist only for indices `0 .. gridSize² - 1` (game.js:122-130). The value-level `Rules.RevealTile` takes any index.
- `Session.Game.RevealTile`, `Rules.RevealTile`, `Rules.RevealTwice`, `Rules.RevealTileConsistent` and `Rules.HitsDuringRound` hold only if the DOM lookups inside `updateHitDisplay` succeed. game.js:382 looks up an element with id `restart-button`, but the restart button's id is `restart-btn` (game.js:20). If that element is missing, a safe reveal throws after `hitCount++` (game.js:325) and before `revealed.push` (game.js:332). The tile is then never recorded, so the same safe tile can be clicked again and again, and every click counts another hit. The page markup is not part of this model.
- `gridSize` never changes and stays 5. `creditGain` is never set to anything but 0, and `Rules.Consistent` records that.
