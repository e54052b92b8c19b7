# Slot machine — a Dafny model

`app.js` is a console slot machine. The player deposits money, picks how many
paylines (1–3) to bet on and a bet per line, and the machine spins three reels.
Each reel draws three symbols, without replacement, from a pool of twenty:
2 × A, 4 × B, 6 × C and 8 × D. The reels are turned into rows. Every scanned row
whose symbols all agree pays the bet times that symbol's value: A 5, B 4, C 3,
D 2. The stake, bet × lines, is debited before the spin. The winnings are
credited after it. The game ends when the balance reaches zero or the player
answers anything but "y" to "play again".

The model has five modules:

- `Wrappers` holds `Option`.
- `Symbols` holds the symbol tables and the grid size.
- `Reels` covers pool construction, drawing by splice, `spin` and `transpose`.
- `Payout` covers `getWinning`.
- `Session` covers the three accept rules, the re-prompting loop, one round of
  `game`, and the whole session.

The code works by updating variables and arrays step by step, so each
operation is a method with loops:

- Each operation up to one round is proved equal to a specification
  function, and the properties are proved about those functions.
- The session as a whole returns a trace of the rounds it played. Its
  contract ties the trace to the replies and the draws: where the deposit
  was taken, where each round's line count and bet were read, what each
  spin paid, the balance each round left, and where play stopped and why.

Money is modelled as exact reals. The random index that `Math.random` yields
at each draw becomes an input: `picks[i][j]` is the index drawn for row `j` of
reel `i`, taken in the pool as it stands after the earlier draws of that reel.
The typed replies become a finite sequence of `Reply` values. Each reply
carries its text and the number `parseFloat` reads from it, or `None` for NaN.

The code and the game's description differ on the line count. The description
says 1–3 lines. The code accepts any number in (0, 3], fractions included, and
the model follows the code:

- 2.5 lines are accepted.
- The stake is bet × 2.5.
- `for (row = 0; row < lines; row++)` scans three rows, so `RowsScanned` is the
  ceiling of the line count.

## Model

| member | source | states |
|---|---|---|
| Symbols.SymbolValue | app.js:31-36 | every symbol's multiplier is positive and at most 5, the value of A |
| Reels.PoolOfLength | app.js:111-116 | the pool built from a symbol order has as many entries as the order's counts add up to |
| Reels.PoolOfCount | app.js:111-116 | for an order without repeats, each symbol occurs in the pool exactly its count times, and symbols not in the order do not occur |
| Reels.PoolContents | app.js:24-29 | the pool has 20 entries: A twice, B 4 times, C 6 times, D 8 times |
| Reels.BuildPool | app.js:107-116 | the nested push loops build exactly that pool, 20 entries long |
| Reels.Remove | app.js:136 | splicing out one index shortens the pool by one and removes exactly that one symbol from its multiset |
| Reels.Draw | app.js:128-137 | drawing with one index per pick yields one symbol per pick |
| Reels.DrawWithinPool | app.js:126-137 | drawing without replacement yields a sub-multiset of the pool: no symbol appears more often than it is in the pool |
| Reels.DrawReel | app.js:124-137 | the splice loop on a copy of the pool draws exactly `Draw(pool, picks)` and stays within the pool's multiset |
| Reels.Spin | app.js:106-141 | spin yields 3 reels of 3 symbols, reel `i` being the draw from a fresh copy of the pool with that reel's indices |
| Reels.ColumnWithinPool | app.js:122-137 | every reel of a spin has 3 symbols, is a sub-multiset of the pool, and holds each symbol at most its count times (at most 2 A's) |
| Reels.Transpose | app.js:144-161 | the 3 columns of 3 symbols become 3 rows of 3 symbols with `rows[i][j] == reels[j][i]` for every cell |
| Reels.TransposedTwice | app.js:144-161 | transposing a 3 × 3 grid twice gives the grid back, and the transpose is a 3 × 3 grid |
| Payout.RowsScanned | app.js:202 | the number of rows the loop visits is the least natural number at least the line count |
| Payout.GetWinning | app.js:198-222 | the winnings are the bet times the sum, over the scanned rows, of the row's symbol value when all its symbols agree and 0 otherwise |
| Payout.WinningsStep | app.js:215-217 | scanning one more row adds exactly the bet times that row's multiplier to the winnings |
| Payout.MultiplierOnlyReadsScannedRows | app.js:202-203 | rows at or past the line count are never read: grids agreeing on the scanned rows pay the same |
| Payout.OneLinePaysTopRowOnly | app.js:202-217 | with one line only the top row is scanned, and the pay is the bet times that row's multiplier |
| Payout.MultiplierBound | app.js:202-217 | the multiplier summed over `n` rows is at most `5 n` |
| Payout.WinningsBounds | app.js:199-217 | for a non-negative bet: 0 ≤ winnings ≤ bet × rows scanned × 5 |
| Payout.EarnsIffSomeLineMatches | app.js:204-217 | a multiplier is earned if and only if some scanned row has all its symbols equal |
| Payout.WinsIffSomeLineMatches | app.js:204-217 | for a positive bet, the winnings are positive if and only if some scanned row has all its symbols equal |
| Payout.ThreeLineExample | app.js:198-222 | rows A A A / B C D / D D D with bet 1 on 3 lines pay 7 |
| Session.AcceptedLinesScan | app.js:70 | an accepted line count scans 1 to 3 rows: a whole count scans that many, a fractional one its integer part plus one |
| Session.BetAcceptedIffStakeCovered | app.js:91-95 | a bet passes `bet <= balance / lines` exactly when it is positive and the stake bet × lines is at most the balance (equality accepted) |
| Session.FirstAccepted | app.js:39-103 | the reply a re-prompting loop takes from a given position on lies at or after it, and is accepted by the prompt's rule; past the end means nothing was accepted |
| Session.FirstAcceptedRefusesBefore | app.js:39-103 | every reply before the one taken is refused by the prompt's rule |
| Session.Ask | app.js:39-103 | the prompt loop returns the first reply its rule accepts (`DepositAccepted` for app.js:49, `LinesAccepted` for app.js:70, `BetAccepted` for app.js:91-95) and the position after it; every earlier reply was refused; None only when all replies were refused |
| Session.PlayRound | app.js:240-268 | a round debits bet × lines, spins and transposes, credits exactly `getWinning`'s amount, leaves a non-negative balance, and ends the game exactly when the balance is 0 |
| Session.NextRound | app.js:236-259 | one pass of the session loop reads the line count and then the bet at the first replies the prompts accept, settles the spin, and extends the trace of rounds; if a prompt runs out of replies, it reports the session stalled there |
| Session.Game | app.js:225-275 | the deposit is the first accepted reply. Every round in the trace reads its line count and bet at the first replies those prompts accept after the previous round, and its balance is the previous balance − bet × lines + what its spin pays. Each later round follows a positive balance and a "y"; the final balance is the last round's. The session ends out of funds exactly when a round left 0, having read no reply after that round's bet (no play-again prompt), quits exactly on a play-again reply other than "y", and otherwise waits at a prompt with the replies used up |

## Left out

- Console input through `prompt-sync` and the number parsing by `parseFloat` are not modelled. Each `Reply` carries its text and its parsed number, `None` standing for NaN.
- Console output is not modelled: the balance and win messages and `printRows` (app.js:163-188) only print.
- `Math.random` is replaced by the picks inputs. The model makes no claim about the distribution of outcomes.
- Session.PlayRound: uses exact reals, not IEEE doubles. In the model a bet equal to balance / lines leaves exactly 0. In JavaScript rounding can leave a tiny positive or negative balance.
- Session.Game: the prompts in the source repeat forever. The model reads a finite reply sequence and ends with `AwaitingInput` when it runs out.
- Reels.Transpose: requires a 3 × 3 input, as `spin` always produces. On other shapes JavaScript behaves differently. With fewer than 3 reels, `reels[j][i]` reads from `undefined` and throws a TypeError. A reel shorter than 3 makes it push `undefined`. Extra reels, and extra symbols in a reel, are ignored.
- Payout.GetWinning: requires the scanned rows to exist and be non-empty, as they always are after `transpose`. JavaScript would throw on a missing row, and would count an empty row as matching with value `undefined`, which gives NaN.
- Session.Accepts: guards the bet rule with `lines > 0`. The source divides by any line count, but a line count reaches `getBet` only after `getNumberofLines` accepted it, so it is always positive.
- The JavaScript arrays that `spin` and `transpose` push into and splice are modelled as sequence values the methods reassign. No array is shared, so no aliasing is lost.
