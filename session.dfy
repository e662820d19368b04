/** The session state of the slot machine (App.tsx): the credit balance, the bet,
    the last win and its highlights, and the spin cycle split into its three
    phases: the spin request, the reveal of the grid, and the later evaluation. */
module SlotSession {
  import opened Catalog
  import opened WinEvaluator

  datatype Option<T> = None | Some(value: T)

  /** A spin waiting for its reveal or its evaluation: the grid drawn when it was
      requested, and the bet in force at that moment (the one checkWin sees). */
  datatype Spin = Spin(grid: Grid, bet: int)

  /** A bet the handlers can produce: within [MIN_BET, MAX_BET] and step-aligned. */
  predicate BetOk(b: int)
  {
    MIN_BET <= b <= MAX_BET && b % BET_STEP == 0
  }

  predicate SpinOk(s: Spin)
  {
    IsGrid(s.grid) && BetOk(s.bet)
  }

  // ---------------------------------------------------------------- grid drawing

  /** Column `c` of the grid drawn from the 15 Math.random() values `draws`: the
      cells are drawn column by column, top row first. */
  function ColumnOf(draws: seq<real>, c: nat): seq<SlotSymbol>
    requires |draws| == COLUMNS * ROWS && c < COLUMNS
  {
    [SymbolFor(draws[ROWS * c]), SymbolFor(draws[ROWS * c + 1]), SymbolFor(draws[ROWS * c + 2])]
  }

  /** The 5×3 grid drawn from `draws`, as the column literals of handleSpin. */
  function GridOf(draws: seq<real>): (g: Grid)
    requires |draws| == COLUMNS * ROWS
    ensures IsGrid(g)
  {
    [ColumnOf(draws, 0), ColumnOf(draws, 1), ColumnOf(draws, 2), ColumnOf(draws, 3), ColumnOf(draws, 4)]
  }

  /** The drawn grid has five columns of three cells, cell (c, r) is the catalog
      symbol of draw 3c + r, and each of the 15 draws fills exactly one cell. */
  lemma GridOfCells(draws: seq<real>)
    requires |draws| == COLUMNS * ROWS
    ensures IsGrid(GridOf(draws))
    ensures forall c, r :: 0 <= c < COLUMNS && 0 <= r < ROWS ==>
              GridOf(draws)[c][r] == SymbolFor(draws[ROWS * c + r]) && GridOf(draws)[c][r] in SYMBOLS
  {
    var g := GridOf(draws);
    forall c | 0 <= c < COLUMNS
      ensures g[c] == ColumnOf(draws, c)
    {
      if c == 0 {} else if c == 1 {} else if c == 2 {} else if c == 3 {} else {}
    }
    forall c, r | 0 <= c < COLUMNS && 0 <= r < ROWS
      ensures g[c][r] == SymbolFor(draws[ROWS * c + r])
    {
      ColumnCell(draws, c, r);
    }
  }

  /** Cell r of column c is the symbol of draw 3c + r. */
  lemma ColumnCell(draws: seq<real>, c: nat, r: nat)
    requires |draws| == COLUMNS * ROWS && c < COLUMNS && r < ROWS
    ensures ColumnOf(draws, c)[r] == SymbolFor(draws[ROWS * c + r])
  {
    if r == 0 {} else if r == 1 {} else {}
  }

  /** One column literal of handleSpin: three calls of getRandomSymbol. */
  method DrawColumn(u0: real, u1: real, u2: real) returns (col: seq<SlotSymbol>)
    ensures col == [SymbolFor(u0), SymbolFor(u1), SymbolFor(u2)]
  {
    var s0 := GetRandomSymbol(u0);
    var s1 := GetRandomSymbol(u1);
    var s2 := GetRandomSymbol(u2);
    col := [s0, s1, s2];
  }

  /** The grid literal of handleSpin: five columns, each of three fresh draws. */
  method DrawGrid(draws: seq<real>) returns (g: Grid)
    requires |draws| == COLUMNS * ROWS
    ensures g == GridOf(draws)
  {
    var c0 := DrawColumn(draws[0], draws[1], draws[2]);
    var c1 := DrawColumn(draws[3], draws[4], draws[5]);
    var c2 := DrawColumn(draws[6], draws[7], draws[8]);
    var c3 := DrawColumn(draws[9], draws[10], draws[11]);
    var c4 := DrawColumn(draws[12], draws[13], draws[14]);
    g := [c0, c1, c2, c3, c4];
  }

  // ---------------------------------------------------------------- bet rules

  /** The bet after handleIncreaseBet: one step up, only when that stays within
      MAX_BET and within the balance. */
  function IncreasedBet(bet: int, balance: int): (b: int)
    ensures b == bet || b == bet + BET_STEP
    ensures b == bet + BET_STEP <==> bet + BET_STEP <= MAX_BET && bet + BET_STEP <= balance
    ensures BetOk(bet) ==> BetOk(b)
  {
    if bet + BET_STEP <= MAX_BET && bet + BET_STEP <= balance then bet + BET_STEP else bet
  }

  /** The bet after handleDecreaseBet: one step down, only when that stays at or
      above MIN_BET. */
  function DecreasedBet(bet: int): (b: int)
    ensures b == bet || b == bet - BET_STEP
    ensures b == bet - BET_STEP <==> bet - BET_STEP >= MIN_BET
    ensures BetOk(bet) ==> BetOk(b)
  {
    if bet - BET_STEP >= MIN_BET then bet - BET_STEP else bet
  }

  function Min(a: int, b: int): int
  {
    if a <= b then a else b
  }

  /** The value handleMaxBet computes: the largest step-aligned value that does not
      exceed min(MAX_BET, balance). */
  function SteppedMax(balance: int): (s: int)
    ensures s % BET_STEP == 0
    ensures s <= Min(MAX_BET, balance) < s + BET_STEP
    ensures s <= MAX_BET
  {
    var maxPossible := Min(MAX_BET, balance);
    (maxPossible / BET_STEP) * BET_STEP
  }

  /** The bet after handleMaxBet: the stepped maximum when it reaches MIN_BET;
      otherwise the bet is left alone. */
  function MaxedBet(bet: int, balance: int): (b: int)
    ensures SteppedMax(balance) >= MIN_BET ==> b == SteppedMax(balance) && b <= balance
    ensures SteppedMax(balance) < MIN_BET ==> b == bet
    ensures BetOk(bet) ==> BetOk(b)
  {
    var stepped := SteppedMax(balance);
    if stepped >= MIN_BET then stepped else bet
  }

  // ---------------------------------------------------------------- the session

  class Session {
    var balance: int
    var bet: int
    var win: int
    var isSpinning: bool
    var showWinModal: bool
    /** Indices of the paying lines of the last evaluated win. */
    var winLines: seq<nat>
    /** Column -> rows to highlight; empty after a spin request. */
    var winningCells: map<nat, seq<nat>>
    /** The grid on display. */
    var reels: Grid
    /** The spin whose reveal timer is pending (exactly while spinning). */
    var pendingReveal: Option<Spin>
    /** Revealed spins whose evaluation timers are pending, oldest first. */
    var pendingEvals: seq<Spin>

    ghost predicate Valid()
      reads this
    {
      0 <= balance && BetOk(bet) && 0 <= win && IsGrid(reels)
      && (isSpinning <==> pendingReveal.Some?)
      && (pendingReveal.Some? ==> SpinOk(pendingReveal.value))
      && (forall i :: 0 <= i < |pendingEvals| ==> SpinOk(pendingEvals[i]))
    }

    /** The initial state: 1000 credits, the minimum bet, nothing won, and a grid of
        15 initial draws. */
    constructor (draws: seq<real>)
      requires |draws| == COLUMNS * ROWS
      ensures Valid()
      ensures balance == INITIAL_BALANCE && bet == MIN_BET && win == 0
      ensures !isSpinning && !showWinModal && winLines == [] && winningCells == map[]
      ensures reels == GridOf(draws) && pendingReveal == None && pendingEvals == []
    {
      var initialReels := DrawGrid(draws);
      GridOfCells(draws);
      balance := INITIAL_BALANCE;
      bet := MIN_BET;
      win := 0;
      isSpinning := false;
      showWinModal := false;
      winLines := [];
      winningCells := map[];
      reels := initialReels;
      pendingReveal := None;
      pendingEvals := [];
    }

    /** handleSpin: refused silently while spinning or when the balance does not
        cover the bet; otherwise debits the bet, clears the last win, its lines and
        cells and the big-win modal, starts spinning and draws the result grid now. */
    method RequestSpin(draws: seq<real>)
      requires Valid() && |draws| == COLUMNS * ROWS
      modifies this
      ensures Valid()
      ensures old(balance < bet || isSpinning) ==> unchanged(this)
      ensures !old(balance < bet || isSpinning) ==>
                balance == old(balance) - old(bet) && bet == old(bet)
                && win == 0 && winLines == [] && winningCells == map[] && !showWinModal
                && isSpinning && pendingReveal == Some(Spin(GridOf(draws), old(bet)))
                && reels == old(reels) && pendingEvals == old(pendingEvals)
    {
      if balance < bet || isSpinning {
        return;
      }
      balance := balance - bet;
      win := 0;
      winLines := [];
      winningCells := map[];
      showWinModal := false;
      isSpinning := true;
      var newReels := DrawGrid(draws);
      GridOfCells(draws);
      pendingReveal := Some(Spin(newReels, bet));
    }

    /** The first timer: shows the drawn grid, stops spinning, and schedules the
        evaluation of that grid with the bet captured at the request. */
    method Reveal()
      requires Valid() && isSpinning
      modifies this`reels, this`isSpinning, this`pendingReveal, this`pendingEvals
      ensures Valid()
      ensures reels == old(pendingReveal.value.grid) && !isSpinning && pendingReveal == None
      ensures pendingEvals == old(pendingEvals) + [old(pendingReveal.value)]
    {
      var spin := pendingReveal.value;
      reels := spin.grid;
      isSpinning := false;
      pendingReveal := None;
      pendingEvals := pendingEvals + [spin];
    }

    /** The second timer: checkWin on the oldest revealed spin. A positive total is
        floored and credited, its lines and cells are published, and the big-win
        modal is raised when the win reaches 20 times the bet; a zero total leaves
        the session as it was. */
    method Evaluate()
      requires Valid() && pendingEvals != []
      modifies this`balance, this`win, this`winLines, this`winningCells, this`showWinModal, this`pendingEvals
      ensures Valid()
      ensures pendingEvals == old(pendingEvals[1..])
      ensures var s := old(pendingEvals[0]);
              TotalWin(s.grid, s.bet) > 0.0 ==>
                win == TotalWin(s.grid, s.bet).Floor && win as real == TotalWin(s.grid, s.bet)
                && balance == old(balance) + win
                && winLines == WinLines(s.grid, s.bet)
                && CellsReport(s.grid, s.bet, LINE_COUNT, winningCells)
                && showWinModal == (old(showWinModal) || win >= 20 * s.bet)
      ensures var s := old(pendingEvals[0]);
              TotalWin(s.grid, s.bet) <= 0.0 ==>
                balance == old(balance) && win == old(win) && winLines == old(winLines)
                && winningCells == old(winningCells) && showWinModal == old(showWinModal)
    {
      var spin := pendingEvals[0];
      pendingEvals := pendingEvals[1..];
      var totalWin, winningLineIndices, newWinningCells := CheckWin(spin.grid, spin.bet);
      if totalWin > 0.0 {
        TotalWinWhole(spin.grid, spin.bet);
        var finalWin := totalWin.Floor;
        var isBigWin := finalWin >= spin.bet * 20;
        win := finalWin;
        winLines := winningLineIndices;
        winningCells := newWinningCells;
        balance := balance + finalWin;
        if isBigWin {
          showWinModal := true;
        }
      }
    }

    /** handleIncreaseBet. */
    method IncreaseBet()
      requires Valid()
      modifies this`bet
      ensures Valid()
      ensures bet == IncreasedBet(old(bet), balance)
    {
      if bet + BET_STEP <= MAX_BET && bet + BET_STEP <= balance {
        bet := bet + BET_STEP;
      }
    }

    /** handleDecreaseBet. */
    method DecreaseBet()
      requires Valid()
      modifies this`bet
      ensures Valid()
      ensures bet == DecreasedBet(old(bet))
    {
      if bet - BET_STEP >= MIN_BET {
        bet := bet - BET_STEP;
      }
    }

    /** handleMaxBet. */
    method MaxBet()
      requires Valid()
      modifies this`bet
      ensures Valid()
      ensures bet == MaxedBet(old(bet), balance)
    {
      var maxPossible := Min(MAX_BET, balance);
      var stepped := (maxPossible / BET_STEP) * BET_STEP;
      if stepped >= MIN_BET {
        bet := stepped;
      }
    }
  }

  /** The three-cherry scenario carried through a session: evaluating a spin of that
      grid at bet 10 wins 4 credits on payline 0 and raises the balance by exactly 4;
      4 is below the big-win threshold of 200, so the modal is left as it was. */
  method EvaluateThreeCherries(s: Session)
    requires s.Valid() && s.pendingEvals != []
    requires s.pendingEvals[0] == Spin(THREE_CHERRIES_GRID, 10)
    modifies s
    ensures s.Valid()
    ensures s.balance == old(s.balance) + 4 && s.win == 4 && s.winLines == [0]
    ensures s.showWinModal == old(s.showWinModal)
  {
    ThreeCherriesGridScenario(THREE_CHERRIES_GRID);
    s.Evaluate();
  }
}
