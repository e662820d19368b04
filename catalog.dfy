/** The symbol catalog of the slot machine, its bet and balance constants, and the
    weighted draw that picks one symbol per grid cell (constants.ts, types.ts). */
module Catalog {

  /** The seven symbol kinds, in catalog order. */
  datatype SymbolId = Cherry | Lemon | Grape | Bell | Diamond | Seven | Star

  /** One catalog entry: its kind, its payout value (a multiplier of the bet) and
      its draw weight (relative probability mass). The display icon is not modelled. */
  datatype SlotSymbol = SlotSymbol(id: SymbolId, value: nat, weight: nat)

  /** The catalog, in the fixed order the draw walks it. Star is only described as
      a scatter in a comment; it takes part in paylines like every other symbol. */
  const SYMBOLS: seq<SlotSymbol> := [
    SlotSymbol(Cherry, 2, 40),
    SlotSymbol(Lemon, 3, 30),
    SlotSymbol(Grape, 5, 20),
    SlotSymbol(Bell, 10, 15),
    SlotSymbol(Diamond, 25, 8),
    SlotSymbol(Seven, 50, 5),
    SlotSymbol(Star, 100, 4)
  ]

  const INITIAL_BALANCE: int := 1000
  const MIN_BET: int := 10
  const MAX_BET: int := 100
  const BET_STEP: int := 10

  /** The sum of the weights of `syms`, folded from the left as `reduce` does. */
  function TotalWeight(syms: seq<SlotSymbol>): nat
  {
    if syms == [] then 0 else TotalWeight(syms[..|syms| - 1]) + syms[|syms| - 1].weight
  }

  /** The combined weight of the first `k` catalog entries. */
  function CumWeight(k: nat): nat
    requires k <= |SYMBOLS|
  {
    TotalWeight(SYMBOLS[..k])
  }

  /** Every entry has a positive weight and a positive value, the values strictly
      increase along the catalog (Cherry is the cheapest symbol, Star the dearest),
      and the weights add up to 122. */
  lemma CatalogFacts()
    ensures |SYMBOLS| == 7
    ensures forall i :: 0 <= i < |SYMBOLS| ==> SYMBOLS[i].weight > 0 && SYMBOLS[i].value > 0
    ensures forall i, j :: 0 <= i < j < |SYMBOLS| ==> SYMBOLS[i].value < SYMBOLS[j].value
    ensures SYMBOLS[0].id == Cherry && SYMBOLS[6].id == Star
    ensures TotalWeight(SYMBOLS) == 122
  {
    assert SYMBOLS[..7] == SYMBOLS;
    CumStep(0); CumStep(1); CumStep(2); CumStep(3); CumStep(4); CumStep(5); CumStep(6);
  }

  /** The bet constants are consistent: both bounds are step-aligned. */
  lemma BetConstants()
    ensures 0 < BET_STEP && MIN_BET == BET_STEP
    ensures MIN_BET <= MAX_BET
    ensures MIN_BET % BET_STEP == 0 && MAX_BET % BET_STEP == 0
    ensures MIN_BET <= INITIAL_BALANCE
  {
  }

  /** `totalWeight` in getRandomSymbol is 122. */
  lemma TotalIs122()
    ensures TotalWeight(SYMBOLS) == 122
  {
    CatalogFacts();
  }

  /** Adding the next entry adds its weight. */
  lemma CumStep(k: nat)
    requires k < |SYMBOLS|
    ensures CumWeight(k + 1) == CumWeight(k) + SYMBOLS[k].weight
  {
    assert SYMBOLS[..k + 1][..k] == SYMBOLS[..k];
  }

  /** Cumulative weights strictly increase with the number of entries. */
  lemma {:induction false} CumStrictlyIncreasing(a: nat, b: nat)
    requires a < b <= |SYMBOLS|
    ensures CumWeight(a) < CumWeight(b)
    decreases b - a
  {
    CatalogFacts();
    CumStep(a);
    if a + 1 < b {
      CumStrictlyIncreasing(a + 1, b);
    }
  }

  /** The whole catalog weighs 122. */
  lemma CumWhole()
    ensures CumWeight(|SYMBOLS|) == 122 && CumWeight(0) == 0
  {
    CatalogFacts();
    assert SYMBOLS[..|SYMBOLS|] == SYMBOLS;
  }

  /** Reference definition of the draw on the scaled value `r` (in [0, 122) when it
      comes from Math.random() times the total weight): the first entry `k` whose
      cumulative weight exceeds `r`, and entry 0 when no entry does. */
  function DrawIndex(r: real): (i: nat)
    ensures i < |SYMBOLS|
  {
    DrawFrom(0, r)
  }

  function DrawFrom(k: nat, r: real): (i: nat)
    requires k <= |SYMBOLS|
    ensures i < |SYMBOLS|
    decreases |SYMBOLS| - k
  {
    if k == |SYMBOLS| then 0
    else if r < CumWeight(k + 1) as real then k
    else DrawFrom(k + 1, r)
  }

  /** If `r` has passed the first `k` entries and lies below the total, the walk
      from `k` stops at an entry whose weight interval holds `r`. */
  lemma {:induction false} DrawFromInterval(k: nat, r: real)
    requires k <= |SYMBOLS|
    requires CumWeight(k) as real <= r < 122.0
    ensures k <= DrawFrom(k, r) < |SYMBOLS|
    ensures CumWeight(DrawFrom(k, r)) as real <= r < CumWeight(DrawFrom(k, r) + 1) as real
    decreases |SYMBOLS| - k
  {
    CumWhole();
    if k == |SYMBOLS| {
      assert false;
    } else if r >= CumWeight(k + 1) as real {
      DrawFromInterval(k + 1, r);
    }
  }

  /** For a draw value in [0, 122) the draw returns entry `i` exactly when
      w0 + ... + w(i-1) <= r < w0 + ... + wi (both directions). */
  lemma DrawIndexInterval(r: real, i: nat)
    requires 0.0 <= r < 122.0
    requires i < |SYMBOLS|
    ensures DrawIndex(r) < |SYMBOLS|
    ensures DrawIndex(r) == i <==> CumWeight(i) as real <= r < CumWeight(i + 1) as real
  {
    CumWhole();
    DrawFromInterval(0, r);
    var j := DrawIndex(r);
    if CumWeight(i) as real <= r < CumWeight(i + 1) as real && j != i {
      if j < i {
        CumStrictlyIncreasing(j + 1, i + 1);
        if j + 1 < i { CumStrictlyIncreasing(j + 1, i); }
      } else {
        CumStrictlyIncreasing(i + 1, j + 1);
        if i + 1 < j { CumStrictlyIncreasing(i + 1, j); }
      }
    }
  }

  /** The region of [0, 122) that yields entry `i` is the interval starting at the
      cumulative weight before it, of length exactly its weight; so a uniform draw
      picks entry `i` with probability weight / 122. */
  lemma DrawRegion(i: nat)
    requires i < |SYMBOLS|
    ensures 0 <= CumWeight(i) && CumWeight(i) + SYMBOLS[i].weight <= 122
    ensures forall r: real :: 0.0 <= r < 122.0 ==>
              (DrawIndex(r) == i <==> CumWeight(i) as real <= r < (CumWeight(i) + SYMBOLS[i].weight) as real)
  {
    CumStep(i);
    CumWhole();
    if i + 1 < |SYMBOLS| { CumStrictlyIncreasing(i + 1, |SYMBOLS|); }
    forall r: real | 0.0 <= r < 122.0
      ensures DrawIndex(r) == i <==> CumWeight(i) as real <= r < (CumWeight(i) + SYMBOLS[i].weight) as real
    {
      DrawIndexInterval(r, i);
    }
  }

  /** The walk never fails: once the weights are exhausted (r >= 122) the draw
      falls back to entry 0, Cherry. */
  lemma {:induction false} DrawFallback(k: nat, r: real)
    requires k <= |SYMBOLS|
    requires r >= 122.0
    ensures DrawFrom(k, r) == 0
    decreases |SYMBOLS| - k
  {
    if k < |SYMBOLS| {
      CumWhole();
      if k + 1 < |SYMBOLS| { CumStrictlyIncreasing(k + 1, |SYMBOLS|); }
      DrawFallback(k + 1, r);
    }
  }

  /** The draw is monotone over the range the source produces: a larger draw value
      never selects an earlier catalog entry. */
  lemma DrawMonotone(r1: real, r2: real)
    requires r1 <= r2 < 122.0
    ensures DrawIndex(r1) <= DrawIndex(r2)
  {
    CumWhole();
    CatalogFacts();
    if r1 < 0.0 {
      CumStep(0);
      assert DrawIndex(r1) == 0;
    } else {
      var i1, i2 := DrawIndex(r1), DrawIndex(r2);
      DrawIndexInterval(r1, 0);
      DrawIndexInterval(r2, 0);
      DrawIndexInterval(r1, i1);
      DrawIndexInterval(r2, i2);
      if i1 > i2 {
        if i2 + 1 < i1 { CumStrictlyIncreasing(i2 + 1, i1); }
        assert false;
      }
    }
  }

  /** The symbol drawn for the Math.random() value `u`. */
  function SymbolFor(u: real): (s: SlotSymbol)
    ensures s in SYMBOLS
  {
    SYMBOLS[DrawIndex(u * 122.0)]
  }

  /** getRandomSymbol: scales `u` by the total weight, then walks the catalog
      subtracting each weight until the remainder falls below the current entry's
      weight; when the walk is exhausted it falls back to the first entry. */
  method GetRandomSymbol(u: real) returns (s: SlotSymbol)
    ensures s in SYMBOLS
    ensures s == SymbolFor(u)
  {
    var totalWeight := TotalWeight(SYMBOLS);
    TotalIs122();
    var random := u * totalWeight as real;
    ghost var r := random;
    assert r == u * 122.0;
    CumWhole();
    for i := 0 to |SYMBOLS|
      invariant random == r - CumWeight(i) as real
      invariant DrawIndex(r) == DrawFrom(i, r)
    {
      var symbol := SYMBOLS[i];
      CumStep(i);
      if random < symbol.weight as real {
        return symbol;
      }
      random := random - symbol.weight as real;
    }
    return SYMBOLS[0];
  }
}
