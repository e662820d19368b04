/** The payline evaluator of the slot machine (checkWin in App.tsx): the fixed table
    of 15 paylines, the run length of a line, the payout by run length, and the
    imperative pass that totals the payouts and collects the winning lines and cells. */
module WinEvaluator {
  import opened Catalog

  /** A grid cell: column `c` (0..4) and row `r` (0..2). */
  datatype Cell = Cell(c: nat, r: nat)

  /** A resolved grid is indexed `grid[column][row]`. */
  type Grid = seq<seq<SlotSymbol>>

  const COLUMNS: nat := 5
  const ROWS: nat := 3

  /** Five columns of three cells each. */
  predicate IsGrid(g: Grid)
  {
    |g| == COLUMNS && forall c :: 0 <= c < |g| ==> |g[c]| == ROWS
  }

  /** The 15 paylines, left to right, indexed 0..14. */
  const PAYLINES: seq<seq<Cell>> := [
    [Cell(0, 1), Cell(1, 1), Cell(2, 1), Cell(3, 1), Cell(4, 1)], // middle
    [Cell(0, 0), Cell(1, 0), Cell(2, 0), Cell(3, 0), Cell(4, 0)], // top
    [Cell(0, 2), Cell(1, 2), Cell(2, 2), Cell(3, 2), Cell(4, 2)], // bottom
    [Cell(0, 0), Cell(1, 1), Cell(2, 2), Cell(3, 1), Cell(4, 0)], // V
    [Cell(0, 2), Cell(1, 1), Cell(2, 0), Cell(3, 1), Cell(4, 2)], // inverted V
    [Cell(0, 0), Cell(1, 0), Cell(2, 1), Cell(3, 2), Cell(4, 2)], // step down
    [Cell(0, 2), Cell(1, 2), Cell(2, 1), Cell(3, 0), Cell(4, 0)], // step up
    [Cell(0, 1), Cell(1, 0), Cell(2, 0), Cell(3, 0), Cell(4, 1)], // arch top
    [Cell(0, 1), Cell(1, 2), Cell(2, 2), Cell(3, 2), Cell(4, 1)], // arch bottom
    [Cell(0, 0), Cell(1, 1), Cell(2, 0), Cell(3, 1), Cell(4, 0)], // zigzag top
    [Cell(0, 2), Cell(1, 1), Cell(2, 2), Cell(3, 1), Cell(4, 2)], // zigzag bottom
    [Cell(0, 0), Cell(1, 1), Cell(2, 1), Cell(3, 1), Cell(4, 0)], // bowl top
    [Cell(0, 2), Cell(1, 1), Cell(2, 1), Cell(3, 1), Cell(4, 2)], // bowl bottom
    [Cell(0, 1), Cell(1, 0), Cell(2, 1), Cell(3, 2), Cell(4, 1)], // diamond centre
    [Cell(0, 1), Cell(1, 2), Cell(2, 1), Cell(3, 0), Cell(4, 1)]  // X shape
  ]

  const LINE_COUNT: nat := 15

  /** Payline `k`: exactly five cells, the i-th in column i, every row in 0..2, so
      every grid access the evaluator makes is in bounds. */
  function Payline(k: nat): (line: seq<Cell>)
    requires k < LINE_COUNT
    ensures |line| == COLUMNS
    ensures forall i :: 0 <= i < |line| ==> line[i].c == i && line[i].r < ROWS
  {
    assert |PAYLINES| == LINE_COUNT;
    PAYLINES[k]
  }

  /** The symbol in `cell`. */
  function SymbolAt(g: Grid, cell: Cell): SlotSymbol
    requires IsGrid(g) && cell.c < COLUMNS && cell.r < ROWS
  {
    g[cell.c][cell.r]
  }

  /** The five symbols along payline `k`, left to right. */
  function LineSymbols(g: Grid, k: nat): (s: seq<SlotSymbol>)
    requires IsGrid(g) && k < LINE_COUNT
    ensures |s| == COLUMNS
    ensures forall i :: 0 <= i < COLUMNS ==> s[i] == g[i][Payline(k)[i].r]
  {
    seq(COLUMNS, i requires 0 <= i < COLUMNS => SymbolAt(g, Payline(k)[i]))
  }

  /** The match test of the counting loop, as written: equal ids, or both Seven.
      The second disjunct adds nothing: it is plain id equality. */
  function Matches(first: SymbolId, current: SymbolId): (m: bool)
    ensures m <==> current == first
  {
    current == first || (first == Seven && current == Seven)
  }

  /** Length of the run of symbols with the same id as `s[0]`, starting at the left. */
  function RunLength(s: seq<SlotSymbol>): (n: nat)
    requires |s| > 0
    ensures 1 <= n <= |s|
    ensures forall j :: 0 <= j < n ==> s[j].id == s[0].id
    ensures n < |s| ==> s[n].id != s[0].id
  {
    RunFrom(s, 1)
  }

  function RunFrom(s: seq<SlotSymbol>, i: nat): (n: nat)
    requires 1 <= i <= |s|
    requires forall j :: 0 <= j < i ==> s[j].id == s[0].id
    ensures i <= n <= |s|
    ensures forall j :: 0 <= j < n ==> s[j].id == s[0].id
    ensures n < |s| ==> s[n].id != s[0].id
    decreases |s| - i
  {
    if i < |s| && s[i].id == s[0].id then RunFrom(s, i + 1) else i
  }

  /** The run-length characterisation determines the run: any count that covers
      only matching ids and stops at the first mismatch (or the end) is RunLength. */
  lemma RunLengthUnique(s: seq<SlotSymbol>, n: nat)
    requires 1 <= n <= |s|
    requires forall j :: 0 <= j < n ==> s[j].id == s[0].id
    requires n < |s| ==> s[n].id != s[0].id
    ensures RunLength(s) == n
  {
  }

  /** The payout of one line, as written: a run of 3, 4 or 5 pays value times bet
      times 0.2, 2 or 10; then a run of exactly 2 cherries pays bet times 0.5. */
  function LineWin(first: SlotSymbol, matchCount: int, bet: int): (w: real)
    ensures bet >= 0 ==> w >= 0.0
    ensures matchCount <= 1 || matchCount > COLUMNS ==> w == 0.0
  {
    var base :=
      if matchCount >= 3 then
        var symbolValue := first.value;
        if matchCount == 3 then (symbolValue * bet) as real * 0.2
        else if matchCount == 4 then (symbolValue * bet) as real * 2.0
        else if matchCount == 5 then (symbolValue * bet) as real * 10.0
        else 0.0
      else 0.0;
    if matchCount == 2 && first.id == Cherry then bet as real * 0.5 else base
  }

  /** The pay table as a single dispatch by run length, in tenths of the bet. */
  function PayTenths(first: SlotSymbol, runLength: nat): nat
  {
    match runLength
    case 2 => if first.id == Cherry then 5 else 0
    case 3 => 2 * first.value
    case 4 => 20 * first.value
    case 5 => 100 * first.value
    case _ => 0
  }

  /** The sequential payout code agrees with the dispatch table for every run
      length a five-cell line can have: 1 and non-cherry 2 pay nothing, cherry 2
      pays bet/2, and 3, 4, 5 pay value·bet·0.2, ·2, ·10. No case pays twice. */
  lemma LineWinTable(first: SlotSymbol, runLength: nat, bet: int)
    requires 1 <= runLength <= COLUMNS
    ensures LineWin(first, runLength, bet) == (PayTenths(first, runLength) * bet) as real / 10.0
  {
  }

  /** With a positive bet and a catalog symbol, a line pays exactly when its run is
      3 or more, or exactly 2 cherries. */
  lemma LinePaysIff(first: SlotSymbol, runLength: nat, bet: int)
    requires first in SYMBOLS && bet > 0
    requires 1 <= runLength <= COLUMNS
    ensures LineWin(first, runLength, bet) > 0.0 <==> runLength >= 3 || (runLength == 2 && first.id == Cherry)
    ensures LineWin(first, runLength, bet) >= 0.0
  {
    CatalogFacts();
    LineWinTable(first, runLength, bet);
  }

  /** With a step-aligned bet every line payout is a whole number of credits. */
  lemma LineWinWhole(first: SlotSymbol, runLength: nat, bet: int)
    requires 1 <= runLength <= COLUMNS && bet % BET_STEP == 0
    ensures LineWin(first, runLength, bet) == (LineWin(first, runLength, bet).Floor) as real
  {
    LineWinTable(first, runLength, bet);
    var q := bet / 10;
    assert bet == 10 * q;
    var t := PayTenths(first, runLength);
    assert t * bet == 10 * (t * q);
    assert (t * bet) as real / 10.0 == (t * q) as real;
  }

  /** The payout of payline `k` on grid `g` with bet `bet`. */
  function LinePayout(g: Grid, bet: int, k: nat): real
    requires IsGrid(g) && k < LINE_COUNT
  {
    var s := LineSymbols(g, k);
    LineWin(s[0], RunLength(s), bet)
  }

  /** A payline whose five cells all hold the same kind pays value·bet·10. */
  lemma FullLinePays(g: Grid, bet: int, k: nat)
    requires IsGrid(g) && k < LINE_COUNT
    requires forall i :: 0 <= i < COLUMNS ==> LineSymbols(g, k)[i].id == LineSymbols(g, k)[0].id
    ensures LinePayout(g, bet, k) == (LineSymbols(g, k)[0].value * bet) as real * 10.0
  {
    RunLengthUnique(LineSymbols(g, k), COLUMNS);
  }

  /** A payline that starts with exactly two cherries pays bet·0.5 and no more. */
  lemma CherryPairPays(g: Grid, bet: int, k: nat)
    requires IsGrid(g) && k < LINE_COUNT
    requires LineSymbols(g, k)[0].id == Cherry && LineSymbols(g, k)[1].id == Cherry
    requires LineSymbols(g, k)[2].id != Cherry
    ensures LinePayout(g, bet, k) == bet as real * 0.5
  {
    RunLengthUnique(LineSymbols(g, k), 2);
  }

  /** With bet 10, a line reading Cherry, Cherry, Cherry, Lemon, Lemon has a run of
      three cherries (value 2) and pays 2·10·0.2 = 4 credits. */
  lemma ThreeCherriesScenario(s: seq<SlotSymbol>)
    requires s == [SYMBOLS[0], SYMBOLS[0], SYMBOLS[0], SYMBOLS[1], SYMBOLS[1]]
    ensures RunLength(s) == 3
    ensures LineWin(s[0], RunLength(s), 10) == 4.0
  {
    RunLengthUnique(s, 3);
  }

  /** Columns of Grape/Bell around a middle row Cherry ×3, Lemon ×2. */
  const THREE_CHERRIES_GRID: Grid := [
    [SYMBOLS[2], SYMBOLS[0], SYMBOLS[3]],
    [SYMBOLS[3], SYMBOLS[0], SYMBOLS[2]],
    [SYMBOLS[2], SYMBOLS[0], SYMBOLS[3]],
    [SYMBOLS[3], SYMBOLS[1], SYMBOLS[2]],
    [SYMBOLS[2], SYMBOLS[1], SYMBOLS[3]]
  ]

  /** A whole-grid scenario with bet 10: the middle row reads Cherry, Cherry,
      Cherry, Lemon, Lemon and no other payline starts with two equal symbols, so
      only payline 0 pays, its three cherries pay 2·10·0.2, and the spin wins 4. */
  lemma ThreeCherriesGridScenario(g: Grid)
    requires g == THREE_CHERRIES_GRID
    ensures IsGrid(g)
    ensures TotalWin(g, 10) == 4.0
    ensures WinLines(g, 10) == [0]
  {
    assert IsGrid(g);
    ThreeCherriesScenario(LineSymbols(g, 0));
    forall k | 1 <= k < LINE_COUNT ensures LinePayout(g, 10, k) == 0.0 {
      var s := LineSymbols(g, k);
      RunLengthUnique(s, 1);
    }
    var p := Payouts(g, 10);
    assert PositiveSum(p, 1) == 4.0;
    assert PositiveIndices(p, 1) == [0];
    SumTailZero(p, 1, LINE_COUNT);
  }

  /** Entries that are not positive add nothing to the sum and no index to the list. */
  lemma {:induction false} SumTailZero(p: seq<real>, m: nat, n: nat)
    requires m <= n <= |p|
    requires forall k :: m <= k < n ==> p[k] <= 0.0
    ensures PositiveSum(p, n) == PositiveSum(p, m)
    ensures PositiveIndices(p, n) == PositiveIndices(p, m)
    decreases n - m
  {
    if m < n {
      SumTailZero(p, m, n - 1);
    }
  }

  /** The payouts of the 15 lines, by line index. */
  function Payouts(g: Grid, bet: int): (p: seq<real>)
    requires IsGrid(g)
    ensures |p| == LINE_COUNT
    ensures bet >= 0 ==> forall k :: 0 <= k < LINE_COUNT ==> p[k] >= 0.0
    ensures bet % BET_STEP == 0 ==> forall k :: 0 <= k < LINE_COUNT ==> p[k] == (p[k].Floor) as real
  {
    LinePayoutFacts(g, bet);
    seq(LINE_COUNT, k requires 0 <= k < LINE_COUNT => LinePayout(g, bet, k))
  }

  /** Every line payout is non-negative for a non-negative bet, and whole for a
      step-aligned bet. */
  lemma LinePayoutFacts(g: Grid, bet: int)
    requires IsGrid(g)
    ensures bet >= 0 ==> forall k :: 0 <= k < LINE_COUNT ==> LinePayout(g, bet, k) >= 0.0
    ensures bet % BET_STEP == 0 ==> forall k :: 0 <= k < LINE_COUNT ==>
              LinePayout(g, bet, k) == (LinePayout(g, bet, k).Floor) as real
  {
    forall k | 0 <= k < LINE_COUNT
      ensures bet >= 0 ==> LinePayout(g, bet, k) >= 0.0
      ensures bet % BET_STEP == 0 ==> LinePayout(g, bet, k) == (LinePayout(g, bet, k).Floor) as real
    {
      var s := LineSymbols(g, k);
      LineWinTable(s[0], RunLength(s), bet);
      if bet % BET_STEP == 0 {
        LineWinWhole(s[0], RunLength(s), bet);
      }
    }
  }

  /** The sum of the positive entries among p[0..n-1]. */
  function PositiveSum(p: seq<real>, n: nat): real
    requires n <= |p|
  {
    if n == 0 then 0.0
    else PositiveSum(p, n - 1) + (if p[n - 1] > 0.0 then p[n - 1] else 0.0)
  }

  /** The indices among 0..n-1 of the positive entries of `p`, in increasing order. */
  function PositiveIndices(p: seq<real>, n: nat): seq<nat>
    requires n <= |p|
  {
    if n == 0 then []
    else PositiveIndices(p, n - 1) + (if p[n - 1] > 0.0 then [n - 1] else [])
  }

  predicate StrictlyAscending(s: seq<nat>)
  {
    forall i, j :: 0 <= i < j < |s| ==> s[i] < s[j]
  }

  /** The index list is strictly ascending and holds exactly the indices below `n`
      of the positive entries. */
  lemma {:induction false} PositiveIndicesSpec(p: seq<real>, n: nat)
    requires n <= |p|
    ensures StrictlyAscending(PositiveIndices(p, n))
    ensures forall k: nat :: k in PositiveIndices(p, n) <==> k < n && p[k] > 0.0
  {
    if n > 0 {
      PositiveIndicesSpec(p, n - 1);
      var prev := PositiveIndices(p, n - 1);
      forall i | 0 <= i < |prev| ensures prev[i] < n - 1 {
        assert prev[i] in prev;
      }
    }
  }

  /** The sum is never negative, and positive exactly when some entry is. */
  lemma {:induction false} PositiveSumSign(p: seq<real>, n: nat)
    requires n <= |p|
    ensures PositiveSum(p, n) >= 0.0
    ensures PositiveSum(p, n) > 0.0 <==> PositiveIndices(p, n) != []
  {
    if n > 0 {
      PositiveSumSign(p, n - 1);
    }
  }

  /** A sum of whole numbers is whole. */
  lemma {:induction false} PositiveSumWhole(p: seq<real>, n: nat)
    requires n <= |p|
    requires forall k :: 0 <= k < n ==> p[k] == (p[k].Floor) as real
    ensures PositiveSum(p, n) == (PositiveSum(p, n).Floor) as real
  {
    if n > 0 {
      PositiveSumWhole(p, n - 1);
      var a := PositiveSum(p, n - 1).Floor;
      var b := (if p[n - 1] > 0.0 then p[n - 1] else 0.0).Floor;
      assert PositiveSum(p, n) == (a + b) as real;
    }
  }

  /** The spin's total line win before flooring. */
  function TotalWin(g: Grid, bet: int): real
    requires IsGrid(g)
  {
    PositiveSum(Payouts(g, bet), LINE_COUNT)
  }

  /** The indices of the paying lines. */
  function WinLines(g: Grid, bet: int): seq<nat>
    requires IsGrid(g)
  {
    PositiveIndices(Payouts(g, bet), LINE_COUNT)
  }

  /** The winning line list is strictly ascending and names exactly the lines with
      a positive payout; the total is never negative and is positive exactly when
      some line pays. */
  lemma WinReportFacts(g: Grid, bet: int)
    requires IsGrid(g)
    ensures StrictlyAscending(WinLines(g, bet))
    ensures forall k: nat :: k in WinLines(g, bet) <==> k < LINE_COUNT && LinePayout(g, bet, k) > 0.0
    ensures TotalWin(g, bet) >= 0.0
    ensures TotalWin(g, bet) > 0.0 <==> WinLines(g, bet) != []
  {
    PositiveIndicesSpec(Payouts(g, bet), LINE_COUNT);
    PositiveSumSign(Payouts(g, bet), LINE_COUNT);
  }

  /** With a step-aligned bet the total line win is a whole number of credits, so
      the floor applied before crediting loses nothing. */
  lemma TotalWinWhole(g: Grid, bet: int)
    requires IsGrid(g) && bet % BET_STEP == 0
    ensures TotalWin(g, bet) == (TotalWin(g, bet).Floor) as real
  {
    PositiveSumWhole(Payouts(g, bet), LINE_COUNT);
  }

  /** Row `r` of column `c` is a winning cell among lines 0..n-1: some paying line
      runs at least up to column `c` and passes through row `r` there. */
  ghost predicate WinningCellBelow(g: Grid, bet: int, n: nat, c: nat, r: nat)
    requires IsGrid(g) && n <= LINE_COUNT
  {
    exists k :: 0 <= k < n && LinePayout(g, bet, k) > 0.0
      && c < RunLength(LineSymbols(g, k)) && Payline(k)[c].r == r
  }

  predicate NoDuplicates(s: seq<nat>)
  {
    forall i, j :: 0 <= i < j < |s| ==> s[i] != s[j]
  }

  /** The winning-cells map has one duplicate-free entry per column, and column
      `c` holds row `r` iff some paying line among 0..n-1 marks that cell. */
  ghost predicate CellsReport(g: Grid, bet: int, n: nat, cells: map<nat, seq<nat>>)
    requires IsGrid(g) && n <= LINE_COUNT
  {
    cells.Keys == {0, 1, 2, 3, 4}
    && (forall c :: c in cells ==> NoDuplicates(cells[c]))
    && (forall c, r :: c in cells ==> (r in cells[c] <==> WinningCellBelow(g, bet, n, c, r)))
  }

  /** checkWin's evaluation pass: for each payline count the run (a loop that stops
      at the first mismatch), price it, and for a paying line add the payout, record
      the line index and mark the cells of its run, skipping rows already marked. */
  method CheckWin(grid: Grid, bet: int) returns (totalWin: real, winLines: seq<nat>, cells: map<nat, seq<nat>>)
    requires IsGrid(grid)
    ensures totalWin == TotalWin(grid, bet)
    ensures winLines == WinLines(grid, bet)
    ensures StrictlyAscending(winLines)
    ensures forall k: nat :: k in winLines <==> k < LINE_COUNT && LinePayout(grid, bet, k) > 0.0
    ensures totalWin > 0.0 <==> winLines != []
    ensures CellsReport(grid, bet, LINE_COUNT, cells)
  {
    totalWin := 0.0;
    winLines := [];
    cells := map[0 := [], 1 := [], 2 := [], 3 := [], 4 := []];
    for lineIndex := 0 to LINE_COUNT
      invariant totalWin == PositiveSum(Payouts(grid, bet), lineIndex)
      invariant winLines == PositiveIndices(Payouts(grid, bet), lineIndex)
      invariant CellsReport(grid, bet, lineIndex, cells)
    {
      var line := Payline(lineIndex);
      var matchCount := CountMatches(grid, lineIndex);
      var lineWin := LineWin(SymbolAt(grid, line[0]), matchCount, bet);
      assert lineWin == LinePayout(grid, bet, lineIndex);
      if lineWin > 0.0 {
        totalWin := totalWin + lineWin;
        winLines := winLines + [lineIndex];
        cells := MarkRun(grid, bet, lineIndex, matchCount, cells);
      } else {
        CellsReportSkip(grid, bet, lineIndex, cells);
      }
    }
    WinReportFacts(grid, bet);
  }

  /** The counting loop of checkWin: starting from 1, count further cells whose id
      matches the first cell's, stopping at the first mismatch. */
  method CountMatches(grid: Grid, k: nat) returns (matchCount: nat)
    requires IsGrid(grid) && k < LINE_COUNT
    ensures matchCount == RunLength(LineSymbols(grid, k))
  {
    ghost var s := LineSymbols(grid, k);
    var line := Payline(k);
    var firstSymbol := SymbolAt(grid, line[0]);
    matchCount := 1;
    for i := 1 to COLUMNS
      invariant matchCount == i
      invariant forall j :: 0 <= j < i ==> s[j].id == s[0].id
    {
      var currentSymbol := SymbolAt(grid, line[i]);
      if Matches(firstSymbol.id, currentSymbol.id) {
        matchCount := matchCount + 1;
      } else {
        RunLengthUnique(s, matchCount);
        return;
      }
    }
    RunLengthUnique(s, matchCount);
  }

  /** A line that does not pay leaves the winning cells as they were. */
  lemma CellsReportSkip(g: Grid, bet: int, k: nat, cells: map<nat, seq<nat>>)
    requires IsGrid(g) && k < LINE_COUNT
    requires CellsReport(g, bet, k, cells)
    requires LinePayout(g, bet, k) <= 0.0
    ensures CellsReport(g, bet, k + 1, cells)
  {
    forall c, r | c in cells
      ensures WinningCellBelow(g, bet, k + 1, c, r) <==> WinningCellBelow(g, bet, k, c, r)
    {
      if WinningCellBelow(g, bet, k + 1, c, r) {
        var j :| 0 <= j < k + 1 && LinePayout(g, bet, j) > 0.0
          && c < RunLength(LineSymbols(g, j)) && Payline(j)[c].r == r;
        assert j < k;
      }
    }
  }

  /** The marking loop of checkWin for the paying line `k`: add the row of each of
      the first `matchCount` cells to its column, unless it is already there. */
  method MarkRun(grid: Grid, bet: int, k: nat, matchCount: nat, cells0: map<nat, seq<nat>>)
    returns (cells: map<nat, seq<nat>>)
    requires IsGrid(grid) && k < LINE_COUNT
    requires LinePayout(grid, bet, k) > 0.0
    requires matchCount == RunLength(LineSymbols(grid, k))
    requires CellsReport(grid, bet, k, cells0)
    ensures CellsReport(grid, bet, k + 1, cells)
  {
    var line := Payline(k);
    cells := cells0;
    for i := 0 to matchCount
      invariant cells.Keys == {0, 1, 2, 3, 4}
      invariant forall c :: c in cells ==> NoDuplicates(cells[c])
      invariant forall c, r :: c in cells ==>
                  (r in cells[c] <==> WinningCellBelow(grid, bet, k, c, r) || (c < i && line[c].r == r))
    {
      var cell := line[i];
      if cell.r !in cells[cell.c] {
        cells := cells[cell.c := cells[cell.c] + [cell.r]];
      }
    }
    forall c, r | c in cells
      ensures r in cells[c] <==> WinningCellBelow(grid, bet, k + 1, c, r)
    {
      if WinningCellBelow(grid, bet, k + 1, c, r) && !WinningCellBelow(grid, bet, k, c, r) {
        var j :| 0 <= j < k + 1 && LinePayout(grid, bet, j) > 0.0
          && c < RunLength(LineSymbols(grid, j)) && Payline(j)[c].r == r;
        assert j == k;
      }
    }
  }
}
