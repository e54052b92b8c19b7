/** The reel generator and the orientation step: building the weighted pool,
    drawing three symbols per column without replacement, and turning the
    column-major reels into row-major paylines. The random source is replaced
    by the indices it would have produced. */
module Reels {
  import opened Symbols

  /** `n` copies of `s`, in the order the inner push loop lays them down. */
  function Repeat(s: Symbol, n: nat): seq<Symbol>
  {
    if n == 0 then [] else Repeat(s, n - 1) + [s]
  }

  /** The pool obtained by pushing, for each symbol of `order` in turn, as
      many copies of it as its count. */
  function PoolOf(order: seq<Symbol>): seq<Symbol>
  {
    if order == [] then []
    else
      var s := order[|order| - 1];
      PoolOf(order[..|order| - 1]) + Repeat(s, SymbolCount(s))
  }

  /** Number of entries in the pool: 2 + 4 + 6 + 8. */
  const POOL_SIZE: nat := 20

  /** Sum of the counts of the symbols in `order`. */
  function TotalCount(order: seq<Symbol>): nat
  {
    if order == [] then 0 else TotalCount(order[..|order| - 1]) + SymbolCount(order[|order| - 1])
  }

  lemma {:induction false} RepeatCount(s: Symbol, n: nat)
    ensures |Repeat(s, n)| == n
    ensures forall t :: multiset(Repeat(s, n))[t] == if t == s then n else 0
  {
    if n > 0 {
      RepeatCount(s, n - 1);
    }
  }

  /** A pool holds the counts of its symbols added up. */
  lemma {:induction false} PoolOfLength(order: seq<Symbol>)
    ensures |PoolOf(order)| == TotalCount(order)
  {
    if order != [] {
      var s := order[|order| - 1];
      PoolOfLength(order[..|order| - 1]);
      RepeatCount(s, SymbolCount(s));
    }
  }

  /** The order lists no symbol twice. */
  predicate Distinct(order: seq<Symbol>)
  {
    forall i, j :: 0 <= i < j < |order| ==> order[i] != order[j]
  }

  /** A pool built from an order without repeats holds each listed symbol
      exactly as often as its count, and no other symbol. */
  lemma {:induction false} PoolOfCount(order: seq<Symbol>, t: Symbol)
    requires Distinct(order)
    ensures multiset(PoolOf(order))[t] == if t in order then SymbolCount(t) else 0
  {
    if order != [] {
      var init, s := order[..|order| - 1], order[|order| - 1];
      assert Distinct(init);
      PoolOfCount(init, t);
      RepeatCount(s, SymbolCount(s));
      assert order == init + [s];
      assert s !in init by {
        forall k | 0 <= k < |init| ensures init[k] != s {
          assert init[k] == order[k];
        }
      }
    }
  }

  lemma TableTotal()
    ensures TotalCount(SymbolOrder) == POOL_SIZE
  {
    assert SymbolOrder[..3] == [A, B, C];
    assert [A, B, C][..2] == [A, B];
    assert [A, B][..1] == [A];
    assert [A][..0] == [];
  }

  /** The complete pool every reel is drawn from. */
  const POOL: seq<Symbol> := PoolOf(SymbolOrder)

  lemma TableSize()
    ensures |PoolOf(SymbolOrder)| == POOL_SIZE
  {
    PoolOfLength(SymbolOrder);
    TableTotal();
  }

  lemma TableCount(s: Symbol)
    ensures multiset(PoolOf(SymbolOrder))[s] == SymbolCount(s)
  {
    PoolOfCount(SymbolOrder, s);
    assert s in SymbolOrder by {
      match s
      case A => assert SymbolOrder[0] == A;
      case B => assert SymbolOrder[1] == B;
      case C => assert SymbolOrder[2] == C;
      case D => assert SymbolOrder[3] == D;
    }
  }

  /** The pool holds 2 + 4 + 6 + 8 = 20 entries, each symbol exactly as often
      as its count. */
  lemma PoolContents()
    ensures |POOL| == POOL_SIZE
    ensures forall s :: multiset(POOL)[s] == SymbolCount(s)
  {
    TableSize();
    forall s ensures multiset(POOL)[s] == SymbolCount(s) {
      TableCount(s);
    }
  }

  /** Builds the pool by pushing each symbol as many times as its count. */
  method BuildPool() returns (symbols: seq<Symbol>)
    ensures symbols == POOL
    ensures |symbols| == POOL_SIZE
  {
    symbols := [];
    for i := 0 to |SymbolOrder|
      invariant symbols == PoolOf(SymbolOrder[..i])
    {
      var symbol, count := SymbolOrder[i], SymbolCount(SymbolOrder[i]);
      for k := 0 to count
        invariant symbols == PoolOf(SymbolOrder[..i]) + Repeat(symbol, k)
      {
        symbols := symbols + [symbol];
      }
      assert SymbolOrder[..i + 1][..i] == SymbolOrder[..i];
    }
    assert SymbolOrder[..|SymbolOrder|] == SymbolOrder;
    TableSize();
  }

  /** The list left by `splice(k, 1)`: entry `k` gone, one copy of it fewer. */
  function Remove(pool: seq<Symbol>, k: nat): (rest: seq<Symbol>)
    requires k < |pool|
    ensures |rest| == |pool| - 1
    ensures multiset(rest) + multiset{pool[k]} == multiset(pool)
  {
    assert pool == pool[..k] + [pool[k]] + pool[k + 1..];
    pool[..k] + pool[k + 1..]
  }

  /** Each index in `picks` is below the length of the list it picks from,
      which shrinks by one after every pick. */
  predicate Drawable(size: nat, picks: seq<nat>)
  {
    forall n :: 0 <= n < |picks| ==> picks[n] + n < size
  }

  /** The symbols drawn from `pool` by taking and removing the entry at each
      index of `picks` in turn. */
  function Draw(pool: seq<Symbol>, picks: seq<nat>): (drawn: seq<Symbol>)
    requires Drawable(|pool|, picks)
    ensures |drawn| == |picks|
  {
    if picks == [] then []
    else
      assert picks[0] + 0 < |pool|;
      var rest := Remove(pool, picks[0]);
      assert Drawable(|rest|, picks[1..]) by {
        forall n | 0 <= n < |picks[1..]| ensures picks[1..][n] + n < |rest| {
          assert picks[1..][n] == picks[n + 1];
        }
      }
      [pool[picks[0]]] + Draw(rest, picks[1..])
  }

  /** Drawing without replacement: what is drawn is a sub-multiset of the pool. */
  lemma {:induction false} DrawWithinPool(pool: seq<Symbol>, picks: seq<nat>)
    requires Drawable(|pool|, picks)
    ensures multiset(Draw(pool, picks)) <= multiset(pool)
  {
    if picks != [] {
      assert picks[0] + 0 < |pool|;
      var rest := Remove(pool, picks[0]);
      assert Drawable(|rest|, picks[1..]) by {
        forall n | 0 <= n < |picks[1..]| ensures picks[1..][n] + n < |rest| {
          assert picks[1..][n] == picks[n + 1];
        }
      }
      DrawWithinPool(rest, picks[1..]);
    }
  }

  /** One random index per cell: for every column, ROWS indices, the j-th of
      them below the size of the pool after j removals. */
  predicate ValidPicks(picks: seq<seq<nat>>)
  {
    |picks| == COLS &&
    forall i :: 0 <= i < COLS ==> |picks[i]| == ROWS && Drawable(POOL_SIZE, picks[i])
  }

  /** The reels a spin produces: each column drawn from a fresh copy of the pool. */
  function SpinOutcome(picks: seq<seq<nat>>): seq<seq<Symbol>>
    requires ValidPicks(picks)
  {
    PoolContents();
    seq(COLS, i requires 0 <= i < COLS => Draw(POOL, picks[i]))
  }

  /** A column of the reels never holds more copies of a symbol than the pool
      does; in particular 'A' appears at most twice in a column. */
  lemma ColumnWithinPool(picks: seq<seq<nat>>, i: nat, s: Symbol)
    requires ValidPicks(picks) && i < COLS
    ensures |SpinOutcome(picks)[i]| == ROWS
    ensures multiset(SpinOutcome(picks)[i]) <= multiset(POOL)
    ensures multiset(SpinOutcome(picks)[i])[s] <= SymbolCount(s)
  {
    PoolContents();
    DrawWithinPool(POOL, picks[i]);
  }

  /** Fills one reel: draws `|picks|` symbols from a copy of `symbols`,
      splicing each pick out of the copy. */
  method DrawReel(symbols: seq<Symbol>, picks: seq<nat>) returns (reel: seq<Symbol>)
    requires Drawable(|symbols|, picks)
    ensures reel == Draw(symbols, picks)
    ensures |reel| == |picks| && multiset(reel) <= multiset(symbols)
  {
    var reelSymbols := symbols;
    reel := [];
    for j := 0 to |picks|
      invariant |reelSymbols| == |symbols| - j
      invariant Drawable(|reelSymbols|, picks[j..])
      invariant reel + Draw(reelSymbols, picks[j..]) == Draw(symbols, picks)
    {
      var randomIndex := picks[j];
      assert picks[j..][0] + 0 < |reelSymbols|;
      var selectedSymbol := reelSymbols[randomIndex];
      assert picks[j..][1..] == picks[j + 1..];
      reel := reel + [selectedSymbol];
      reelSymbols := reelSymbols[..randomIndex] + reelSymbols[randomIndex + 1..];
    }
    DrawWithinPool(symbols, picks);
  }

  /** Spins the reels: builds the pool, then fills each column from a fresh
      copy of it. */
  method Spin(picks: seq<seq<nat>>) returns (reels: seq<seq<Symbol>>)
    requires ValidPicks(picks)
    ensures reels == SpinOutcome(picks)
    ensures |reels| == COLS
    ensures forall i :: 0 <= i < COLS ==> |reels[i]| == ROWS
  {
    var symbols := BuildPool();
    reels := [];
    for i := 0 to COLS
      invariant |reels| == i
      invariant forall c :: 0 <= c < i ==> reels[c] == Draw(symbols, picks[c])
    {
      var reel := DrawReel(symbols, picks[i]);
      reels := reels + [reel];
    }
    var spun := SpinOutcome(picks);
    assert |spun| == COLS;
    forall c | 0 <= c < COLS ensures reels[c] == spun[c] {
    }
  }

  /** A grid of `outer` lines of `inner` symbols each: the reels are
      IsGrid(_, COLS, ROWS), the paylines IsGrid(_, ROWS, COLS). */
  predicate IsGrid(g: seq<seq<Symbol>>, outer: nat, inner: nat)
  {
    |g| == outer && forall k :: 0 <= k < outer ==> |g[k]| == inner
  }

  /** The grid read the other way: row `i` holds the `i`-th symbol of every column. */
  function Transposed(g: seq<seq<Symbol>>): seq<seq<Symbol>>
    requires IsGrid(g, COLS, ROWS)
  {
    seq(ROWS, i requires 0 <= i < ROWS => seq(COLS, j requires 0 <= j < COLS => g[j][i]))
  }

  /** Reading the grid the other way twice gives it back. */
  lemma TransposedTwice(g: seq<seq<Symbol>>)
    requires IsGrid(g, COLS, ROWS)
    ensures IsGrid(Transposed(g), ROWS, COLS)
    ensures Transposed(Transposed(g)) == g
  {
    var t := Transposed(Transposed(g));
    forall k | 0 <= k < COLS ensures t[k] == g[k] {
    }
  }

  /** Turns the column-major reels into row-major paylines. */
  method Transpose(reels: seq<seq<Symbol>>) returns (rows: seq<seq<Symbol>>)
    requires IsGrid(reels, COLS, ROWS)
    ensures IsGrid(rows, ROWS, COLS)
    ensures forall i, j :: 0 <= i < ROWS && 0 <= j < COLS ==> rows[i][j] == reels[j][i]
    ensures rows == Transposed(reels)
  {
    rows := [];
    for i := 0 to ROWS
      invariant |rows| == i
      invariant forall r :: 0 <= r < i ==> |rows[r]| == COLS
      invariant forall r, c :: 0 <= r < i && 0 <= c < COLS ==> rows[r][c] == reels[c][r]
    {
      var row := [];
      for j := 0 to COLS
        invariant |row| == j
        invariant forall c :: 0 <= c < j ==> row[c] == reels[c][i]
      {
        row := row + [reels[j][i]];
      }
      rows := rows + [row];
    }
    forall r | 0 <= r < ROWS ensures rows[r] == Transposed(reels)[r] {
    }
  }
}
