/** The payout evaluator: which paylines are scanned for a line count, and
    what the scanned lines pay for a bet per line. */
module Payout {
  import opened Symbols

  /** How many rows `for (row = 0; row < lines; row++)` visits for a line
      count that may be fractional: the least natural number that is at least
      `lines`. */
  function RowsScanned(lines: real): (n: nat)
    ensures lines <= n as real
    ensures n == 0 || (n - 1) as real < lines
  {
    if lines <= 0.0 then 0
    else if lines.Floor as real == lines then lines.Floor
    else lines.Floor + 1
  }

  /** Every symbol of the line equals its first. */
  predicate AllSame(line: seq<Symbol>)
  {
    forall k :: 0 <= k < |line| ==> line[k] == line[0]
  }

  /** The first `n` rows exist and are not empty. */
  predicate Scannable(rows: seq<seq<Symbol>>, n: nat)
  {
    n <= |rows| && forall r :: 0 <= r < n ==> |rows[r]| > 0
  }

  /** The multiplier one payline earns: its symbol's value when all its
      symbols agree, nothing otherwise (there are no partial lines). */
  function LineMultiplier(line: seq<Symbol>): nat
    requires |line| > 0
  {
    if AllSame(line) then SymbolValue(line[0]) else 0
  }

  /** Sum of the multipliers earned by the first `n` rows. */
  function Multiplier(rows: seq<seq<Symbol>>, n: nat): nat
    requires Scannable(rows, n)
  {
    if n == 0 then 0 else Multiplier(rows, n - 1) + LineMultiplier(rows[n - 1])
  }

  /** What the first `n` rows pay for `bet` per line. */
  function Winnings(rows: seq<seq<Symbol>>, bet: real, n: nat): real
    requires Scannable(rows, n)
  {
    bet * (Multiplier(rows, n) as real)
  }

  /** Scanning one more row adds the bet times that row's multiplier. */
  lemma WinningsStep(rows: seq<seq<Symbol>>, bet: real, n: nat)
    requires Scannable(rows, n + 1)
    ensures Winnings(rows, bet, n + 1) == Winnings(rows, bet, n) + bet * (LineMultiplier(rows[n]) as real)
  {
    var m, v := Multiplier(rows, n) as real, LineMultiplier(rows[n]) as real;
    assert Multiplier(rows, n + 1) as real == m + v;
    assert bet * (m + v) == bet * m + bet * v;
  }

  /** Scans the first `lines` rows, checking each for a symbol that differs
      from its first (stopping at the first one), and adds the bet times the
      multiplier of every row without one. */
  method GetWinning(rows: seq<seq<Symbol>>, bet: real, lines: real) returns (winnings: real)
    requires Scannable(rows, RowsScanned(lines))
    ensures winnings == Winnings(rows, bet, RowsScanned(lines))
  {
    winnings := 0.0;
    var row := 0;
    while (row as real) < lines
      invariant 0 <= row <= RowsScanned(lines)
      invariant winnings == Winnings(rows, bet, row)
      decreases RowsScanned(lines) - row
    {
      var symbols := rows[row];
      var allSame := true;
      for k := 0 to |symbols|
        invariant allSame
        invariant forall m :: 0 <= m < k ==> symbols[m] == symbols[0]
      {
        if symbols[k] != symbols[0] {
          allSame := false;
          break;
        }
      }
      assert allSame <==> AllSame(symbols);
      WinningsStep(rows, bet, row);
      if allSame {
        winnings := winnings + bet * (SymbolValue(symbols[0]) as real);
      }
      row := row + 1;
    }
  }

  /** Only the scanned rows matter: two grids that agree on their first `n`
      rows earn the same. */
  lemma {:induction false} MultiplierOnlyReadsScannedRows(rows: seq<seq<Symbol>>, rows': seq<seq<Symbol>>, n: nat)
    requires Scannable(rows, n) && n <= |rows'|
    requires forall r :: 0 <= r < n ==> rows'[r] == rows[r]
    ensures Scannable(rows', n)
    ensures Multiplier(rows', n) == Multiplier(rows, n)
  {
    if n > 0 {
      MultiplierOnlyReadsScannedRows(rows, rows', n - 1);
    }
  }

  /** With a single line, only the top row is read: it alone decides the pay,
      whatever the rows below hold. */
  lemma OneLinePaysTopRowOnly(rows: seq<seq<Symbol>>, rows': seq<seq<Symbol>>, bet: real)
    requires Scannable(rows, 1) && |rows'| >= 1 && rows'[0] == rows[0]
    ensures RowsScanned(1.0) == 1 && Scannable(rows', 1)
    ensures Winnings(rows', bet, RowsScanned(1.0)) == Winnings(rows, bet, RowsScanned(1.0))
    ensures Winnings(rows, bet, RowsScanned(1.0)) == bet * (LineMultiplier(rows[0]) as real)
  {
    MultiplierOnlyReadsScannedRows(rows, rows', 1);
  }

  /** The multiplier of `n` rows is at most `n` times the largest one. */
  lemma {:induction false} MultiplierBound(rows: seq<seq<Symbol>>, n: nat)
    requires Scannable(rows, n)
    ensures Multiplier(rows, n) <= n * MAX_VALUE
  {
    if n > 0 {
      MultiplierBound(rows, n - 1);
    }
  }

  /** For a non-negative bet the pay is at least zero and at most the bet
      times the number of scanned rows times the largest multiplier. */
  lemma WinningsBounds(rows: seq<seq<Symbol>>, bet: real, n: nat)
    requires Scannable(rows, n) && bet >= 0.0
    ensures 0.0 <= Winnings(rows, bet, n) <= bet * (n as real) * (MAX_VALUE as real)
  {
    MultiplierBound(rows, n);
    var m, top := Multiplier(rows, n) as real, (n * MAX_VALUE) as real;
    assert 0.0 <= bet * (top - m);
    assert top == (n as real) * (MAX_VALUE as real);
  }

  /** No partial pays: some multiplier is earned exactly when some scanned row
      has all its symbols equal. */
  lemma {:induction false} EarnsIffSomeLineMatches(rows: seq<seq<Symbol>>, n: nat)
    requires Scannable(rows, n)
    ensures Multiplier(rows, n) > 0 <==> exists r :: 0 <= r < n && AllSame(rows[r])
  {
    if n > 0 {
      EarnsIffSomeLineMatches(rows, n - 1);
      if !AllSame(rows[n - 1]) {
        assert forall r :: 0 <= r < n && AllSame(rows[r]) ==> r < n - 1;
      }
    }
  }

  /** For a positive bet, something is won exactly when some scanned row
      has all its symbols equal. */
  lemma WinsIffSomeLineMatches(rows: seq<seq<Symbol>>, bet: real, n: nat)
    requires Scannable(rows, n) && bet > 0.0
    ensures Winnings(rows, bet, n) > 0.0 <==> exists r :: 0 <= r < n && AllSame(rows[r])
  {
    EarnsIffSomeLineMatches(rows, n);
  }

  /** Rows A A A / B C D / D D D with bet 1 on three lines pay 5 + 0 + 2. */
  lemma ThreeLineExample()
    ensures Winnings([[A, A, A], [B, C, D], [D, D, D]], 1.0, RowsScanned(3.0)) == 7.0
  {
    var rows := [[A, A, A], [B, C, D], [D, D, D]];
    assert !AllSame(rows[1]) by {
      assert rows[1][1] != rows[1][0];
    }
  }
}
