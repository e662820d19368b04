# Slot machine game logic in Dafny

This project models the game logic of a browser 5-reel, 3-row slot machine. Three
modules make up the model:

- `Catalog` (`catalog.dfy`, from `constants.ts` and `types.ts`) holds the seven-symbol
  catalog with payout values and draw weights, and the bet and balance constants.
  It also holds the weighted draw `getRandomSymbol`. The draw is written as the
  source's cumulative-subtraction loop (`GetRandomSymbol`) and proved equal to a
  separate reference definition (`DrawIndex`): the first entry whose cumulative
  weight exceeds the scaled draw value.
- `WinEvaluator` (`win_evaluator.dfy`, from `checkWin` in `App.tsx`) holds the fixed
  table of 15 paylines, the run length of a line and the payout by run length. Its
  imperative `CheckWin` totals the payouts, lists the paying lines and collects the
  winning cells per column.
- `SlotSession` (`session.dfy`, from the handlers in `App.tsx`) is a `Session` class.
  Its fields are the balance, bet, last win, spinning flag, big-win flag, winning
  lines and cells, and the displayed grid. Two more fields stand for the timers the
  source schedules. There are methods for the spin request and for the two timer
  callbacks (reveal, evaluate), plus the three bet handlers. The invariant
  `Valid()` keeps the balance non-negative and the bet in [10, 100] and a multiple
  of 10.

Money is exact: payouts are Dafny `real`s, so `0.2` and `0.5` are the exact
rationals. The source's calls to `Math.random()` become parameters: each cell's
draw is a value `u`, and the walk runs on `u · 122`.

The two timers of `handleSpin` become explicit calls. `Reveal` is the first timer:
it shows the grid and clears the spinning flag. `Evaluate` is the second timer: it
runs `checkWin`. The reveal clears the spinning flag before the evaluation runs, so
the source accepts a new spin request while an earlier spin's evaluation is still
pending. The model keeps that behaviour. Revealed spins wait in a FIFO queue
(`pendingEvals`), and each one carries the grid and the bet captured when it was
requested, as the `useCallback` closure does.

Two points about what the code does and does not do:

- There is no scatter counting, free-spin counter or bonus logic anywhere in the
  code. Star is only commented as a scatter (constants.ts:10) and takes part in
  paylines like every other symbol, so the model has no scatter behaviour.
- The bet is compared with the balance only when it is raised (App.tsx:167) or set
  to the maximum (App.tsx:179-181). A paid spin debits the balance without touching
  the bet, so the balance can drop below the bet, and the invariant does not claim
  bet ≤ balance.

## Model

| member | source | states |
|---|---|---|
| `Catalog.CatalogFacts` | constants.ts:3-11 | seven entries; every weight and value positive; values strictly increase (Cherry lowest, Star highest); weights sum to 122 |
| `Catalog.TotalIs122` | constants.ts:22 | the `reduce` over the weights gives 122 |
| `Catalog.BetConstants` | constants.ts:13-16 | MIN_BET = BET_STEP = 10 ≤ MAX_BET = 100, both bounds step-aligned, MIN_BET ≤ INITIAL_BALANCE = 1000 |
| `Catalog.DrawIndex` | constants.ts:23-29 | the reference draw always names a catalog entry |
| `Catalog.DrawIndexInterval` | constants.ts:23-28 | for r in [0, 122) the draw is entry i exactly when w0+…+w(i-1) ≤ r < w0+…+wi (both directions) |
| `Catalog.DrawRegion` | constants.ts:20-28 | the draw values in [0, 122) that give entry i form an interval of length exactly weight_i, inside [0, 122) |
| `Catalog.DrawFallback` | constants.ts:25-29 | once the walk is exhausted (r ≥ 122) the draw is entry 0, Cherry |
| `Catalog.DrawMonotone` | constants.ts:25-28 | r1 ≤ r2 < 122 implies index(draw(r1)) ≤ index(draw(r2)) |
| `Catalog.SymbolFor` | constants.ts:21-30 | the symbol drawn for a `Math.random()` value is a catalog entry |
| `Catalog.GetRandomSymbol` | constants.ts:21-30 | the subtraction loop with fallback returns a catalog entry, namely the reference draw of u·122 |
| `WinEvaluator.Payline` | App.tsx:82-102 | every payline has 5 cells, cell i lies in column i, every row is in 0..2, so every grid access is in bounds |
| `WinEvaluator.LineSymbols` | App.tsx:105-110 | the symbols read along a payline, cell i coming from column i |
| `WinEvaluator.Matches` | App.tsx:111 | the extra Seven clause adds nothing: the match test is exactly id equality |
| `WinEvaluator.RunLength` | App.tsx:105-116 | run length is in 1..5; all leading cells up to it match the first id; the next cell (if any) does not |
| `WinEvaluator.RunLengthUnique` | App.tsx:109-116 | any count that covers only matching cells and stops at the first mismatch is the run length |
| `WinEvaluator.CountMatches` | App.tsx:105-116 | the counting loop with `break` computes the run length of the line |
| `WinEvaluator.LineWin` | App.tsx:118-133 | the payout code as written: never negative for a non-negative bet, and 0 for a run of 1 (its full table is `LineWinTable`) |
| `WinEvaluator.LineWinTable` | App.tsx:118-133 | the sequential payout code equals one dispatch by run length: 3 → value·bet·0.2, 4 → ·2, 5 → ·10, 2 cherries → bet·0.5, otherwise 0 |
| `WinEvaluator.LinePaysIff` | App.tsx:118-135 | with a positive bet a line pays (> 0) exactly when its run is ≥ 3 or exactly 2 cherries; a payout is never negative |
| `WinEvaluator.LineWinWhole` | App.tsx:118-133 | with a bet that is a multiple of 10 every line payout is a whole number |
| `WinEvaluator.FullLinePays` | App.tsx:104-126 | five identical kinds along a line pay value·bet·10 |
| `WinEvaluator.CherryPairPays` | App.tsx:129-133 | exactly two leading cherries pay bet·0.5 and no more |
| `WinEvaluator.ThreeCherriesScenario` | App.tsx:121-124 | with bet 10, Cherry ×3 followed by Lemon pays 4 |
| `WinEvaluator.Payouts` | App.tsx:104-133 | the 15 line payouts: none is negative when the bet is non-negative, and each is whole when the bet is a multiple of 10 |
| `WinEvaluator.LinePayoutFacts` | App.tsx:118-133 | every line payout of a grid is ≥ 0 for a non-negative bet and whole for a step-aligned bet |
| `WinEvaluator.ThreeCherriesGridScenario` | App.tsx:104-151 | on a concrete grid whose middle row is Cherry ×3 then Lemon ×2, bet 10 makes line 0 the only paying line, and the total is 4 |
| `WinEvaluator.PositiveIndicesSpec` | App.tsx:135-137 | the collected line indices are strictly ascending and are exactly the indices of positive payouts |
| `WinEvaluator.PositiveSumSign` | App.tsx:135-136 | the accumulated total is ≥ 0 and positive exactly when some line was collected |
| `WinEvaluator.PositiveSumWhole` | App.tsx:135-136 | adding whole payouts keeps the total whole |
| `WinEvaluator.WinReportFacts` | App.tsx:104-150 | winning lines strictly ascending, exactly the paying lines; total ≥ 0, positive iff some line pays |
| `WinEvaluator.TotalWinWhole` | App.tsx:150-151 | with a step-aligned bet the total is whole, so `Math.floor` loses nothing |
| `WinEvaluator.CheckWin` | App.tsx:75-148 | the evaluation loops return the total, the ascending paying lines, and per column a duplicate-free row list holding row r iff some paying line's run reaches that column through row r |
| `WinEvaluator.CellsReportSkip` | App.tsx:135-147 | a line that does not pay marks no cell |
| `WinEvaluator.MarkRun` | App.tsx:139-146 | marking a paying line adds exactly the cells of its run, without duplicates |
| `SlotSession.GridOf` | App.tsx:50-56 | the grid literal of 15 draws is 5×3 (its cell-by-cell content is `GridOfCells`) |
| `SlotSession.GridOfCells` | App.tsx:50-56 | the drawn grid is 5×3; cell (c, r) is the catalog symbol of draw 3c + r |
| `SlotSession.DrawColumn` | App.tsx:51 | three `getRandomSymbol` calls give the column of their draws |
| `SlotSession.DrawGrid` | App.tsx:50-56 | the grid literal of 15 `getRandomSymbol` calls equals the grid of the 15 draws |
| `SlotSession.IncreasedBet` | App.tsx:166-170 | one step up exactly when bet + 10 ≤ 100 and bet + 10 ≤ balance, otherwise unchanged; keeps the bet in [10, 100] and step-aligned |
| `SlotSession.DecreasedBet` | App.tsx:172-176 | one step down exactly when bet − 10 ≥ 10, otherwise unchanged; keeps the bet in range and step-aligned |
| `SlotSession.SteppedMax` | App.tsx:178-180 | floor(min(100, balance)/10)·10 is the largest multiple of 10 that is ≤ min(100, balance) |
| `SlotSession.MaxedBet` | App.tsx:178-182 | max bet sets the stepped maximum (≤ balance) when it is ≥ 10 and is a no-op otherwise; keeps the bet in range |
| `SlotSession.Session.constructor` | App.tsx:20-35 | initial state: balance 1000, bet 10, no win, not spinning, no lines or cells, grid of 15 initial draws |
| `SlotSession.Session.RequestSpin` | App.tsx:38-56 | no-op when balance < bet or spinning; otherwise debits exactly the bet, clears win, lines, cells and modal, starts spinning and records the grid drawn now with the current bet; the balance stays ≥ 0 |
| `SlotSession.Session.Reveal` | App.tsx:61-69 | shows the pending grid, stops spinning, and queues that spin (with its captured bet) for evaluation |
| `SlotSession.Session.Evaluate` | App.tsx:150-163 | on a positive total: win = floor(total) = total, balance rises by exactly win, lines and cells published, modal raised iff win ≥ 20·bet (else left as it was); on a zero total nothing but the queue changes |
| `SlotSession.EvaluateThreeCherries` | App.tsx:150-157 | evaluating that three-cherry spin at bet 10 wins 4 on line 0, raises the balance by exactly 4, and leaves the big-win modal as it was |
| `SlotSession.Session.IncreaseBet` | App.tsx:166-170 | the bet becomes `IncreasedBet(bet, balance)`; nothing else changes |
| `SlotSession.Session.DecreaseBet` | App.tsx:172-176 | the bet becomes `DecreasedBet(bet)`; nothing else changes |
| `SlotSession.Session.MaxBet` | App.tsx:178-182 | the bet becomes `MaxedBet(bet, balance)`; nothing else changes |

## Left out

- Timers: the `setTimeout` delays are not modelled and there is no real time. `Reveal` and `Evaluate` are explicit calls, made in the order the timers would fire. Pending evaluations are first-in first-out because every spin uses the same delays.
- `Math.random()`: each draw value is a parameter, `u` for one cell and a sequence of 15 values for a grid.
- IEEE-754 floating point: payouts, `u · totalWeight` and the weight subtraction are exact reals. Float rounding could make the walk run past the last entry. In the model that happens only for u ≥ 1, and the same Cherry fallback then applies.
- Audio cues (`playSpinStart`, `playWin`): fire-and-forget browser calls that never change game state.
- Rendering: the JSX, the reel animation (`components/Reel.tsx`) and the symbol icons.
- The modal's click handlers that close it: these are UI only.
- `components/Controls.tsx`: it disables the bet buttons while spinning. The bet handlers in App.tsx do not check this, and neither do the model's bet methods.
- The oracle quote service (`services/geminiService.ts`, `components/Oracle.tsx`): an external network call that never affects game state.
- React state mechanics: updates are applied at once, in program order. The spin gate reads the current fields rather than a render-time closure. For events handled one at a time these agree.
- The unused `GameState`, `ReelState` and `Payline` interfaces in types.ts.
- Scatter, free-spin and bonus behaviour: the code has none.
- WinEvaluator.CheckWin: states each column's winning rows as a duplicate-free set (membership both ways), not the order in which the rows were pushed, because nothing reads that order.
- SlotSession.Session.Evaluate: states the winning cells through the same set description, so it does not fix the push order either.
