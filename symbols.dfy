/** The slot machine's alphabet and its two fixed tables: how many copies of
    each symbol a reel holds, and what a line of that symbol pays. */
module Symbols {

  /** The four reel symbols. */
  datatype Symbol = A | B | C | D

  /** The grid has ROWS rows (paylines) and COLS columns (reels). */
  const ROWS: nat := 3
  const COLS: nat := 3

  /** The order in which both tables list their symbols; the reel pool is
      laid out in this order. */
  const SymbolOrder: seq<Symbol> := [A, B, C, D]

  /** The largest multiplier of the pay table. */
  const MAX_VALUE: nat := 5

  /** Copies of `s` in the pool of every reel. */
  function SymbolCount(s: Symbol): nat
  {
    match s
    case A => 2
    case B => 4
    case C => 6
    case D => 8
  }

  /** Multiplier paid per unit of bet by a line of three `s`. */
  function SymbolValue(s: Symbol): (v: nat)
    ensures 0 < v <= MAX_VALUE
  {
    match s
    case A => 5
    case B => 4
    case C => 3
    case D => 2
  }
}
