/** The game session: the rules that accept a deposit, a line count and a bet,
    the prompt that repeats until one is accepted, one round of play, and the
    loop of rounds that ends when the money is gone or the player stops. Typed
    replies and random draws are given up front instead of read from the
    console and the random source. */
module Session {
  import opened Wrappers
  import opened Symbols
  import opened Reels
  import opened Payout

  /** One line the player typed: its raw text, and the number `parseFloat`
      reads from it (None where it reads NaN). */
  datatype Reply = Reply(text: string, number: Option<real>)

  /** What the session is asking for; a bet is judged against the balance and
      the line count already chosen. */
  datatype Question = AskDeposit | AskLines | AskBet(balance: real, lines: real)

  /** How a session ends: the balance ran out, the player answered anything
      but "y" to playing again, or the replies ran out while a prompt waited. */
  datatype Outcome = OutOfFunds | PlayerQuit | AwaitingInput

  /** A deposit is accepted when it is positive. */
  predicate DepositAccepted(amount: real)
  {
    amount > 0.0
  }

  /** A line count is accepted when it lies in (0, 3]; it need not be whole. */
  predicate LinesAccepted(lines: real)
  {
    0.0 < lines <= 3.0
  }

  /** An accepted line count scans between one and three rows: a whole count
      scans that many, a fractional one scans one row more than its integer
      part (2.5 lines scan three rows). */
  lemma AcceptedLinesScan(lines: real)
    requires LinesAccepted(lines)
    ensures 1 <= RowsScanned(lines) <= ROWS
    ensures lines == lines.Floor as real ==> RowsScanned(lines) == lines.Floor
    ensures lines != lines.Floor as real ==> RowsScanned(lines) == lines.Floor + 1
  {
  }

  /** A bet per line is accepted when it is positive and at most the balance
      divided by the line count. */
  predicate BetAccepted(bet: real, balance: real, lines: real)
    requires lines > 0.0
  {
    0.0 < bet && bet <= balance / lines
  }

  /** The bet rule read as a stake rule: a bet is accepted exactly when it is
      positive and the whole stake, bet times lines, is covered by the
      balance (equal is allowed). */
  lemma BetAcceptedIffStakeCovered(bet: real, balance: real, lines: real)
    requires lines > 0.0
    ensures BetAccepted(bet, balance, lines) <==> 0.0 < bet && bet * lines <= balance
  {
  }

  /** The rule a prompt applies to a parsed reply; NaN is always refused. */
  predicate Accepts(q: Question, number: Option<real>)
  {
    match number
    case None => false
    case Some(x) =>
      match q
      case AskDeposit => DepositAccepted(x)
      case AskLines => LinesAccepted(x)
      case AskBet(balance, lines) => lines > 0.0 && BetAccepted(x, balance, lines)
  }

  /** Where a prompt for `q` that starts reading at `from` takes its answer:
      the first reply its rule accepts, or |replies| when it refuses all. */
  function FirstAccepted(q: Question, replies: seq<Reply>, from: nat): (at: nat)
    requires from <= |replies|
    ensures from <= at <= |replies|
    ensures at < |replies| ==> Accepts(q, replies[at].number)
    decreases |replies| - from
  {
    if from == |replies| then from
    else if Accepts(q, replies[from].number) then from
    else FirstAccepted(q, replies, from + 1)
  }

  /** The prompt refuses every reply before the one it takes. */
  lemma {:induction false} FirstAcceptedRefusesBefore(q: Question, replies: seq<Reply>, from: nat, j: nat)
    requires from <= j < |replies|
    requires j < FirstAccepted(q, replies, from)
    ensures !Accepts(q, replies[j].number)
    decreases |replies| - from
  {
    if from < j {
      FirstAcceptedRefusesBefore(q, replies, from + 1, j);
    }
  }

  /** Reads replies from position `from` on until one is accepted, refusing
      the others. Returns the accepted number and the position after it, or
      None once every reply has been refused. */
  method Ask(q: Question, replies: seq<Reply>, from: nat) returns (answer: Option<real>, next: nat)
    requires from <= |replies|
    ensures from <= next <= |replies|
    ensures answer.Some? <==> FirstAccepted(q, replies, from) < |replies|
    ensures answer.Some? ==> next == FirstAccepted(q, replies, from) + 1 && replies[next - 1].number == answer
    ensures answer.None? ==> next == |replies|
    ensures answer.Some? ==> Accepts(q, answer)
    ensures forall k {:trigger Accepts(q, replies[k].number)} ::
      from <= k < next && (answer.None? || k < next - 1) ==> !Accepts(q, replies[k].number)
  {
    next := from;
    while next < |replies|
      invariant from <= next <= |replies|
      invariant FirstAccepted(q, replies, from) == FirstAccepted(q, replies, next)
      invariant forall k :: from <= k < next ==> !Accepts(q, replies[k].number)
    {
      var number := replies[next].number;
      next := next + 1;
      if Accepts(q, number) {
        return number, next;
      }
    }
    answer := None;
  }

  /** The settlement of a round: with `before` on the balance and `bet` on
      each of `lines` lines, the spin drawn by `picks` pays `winnings`, and
      the balance becomes `after`, the stake debited and the winnings
      credited. */
  predicate Settled(before: real, lines: real, bet: real, picks: seq<seq<nat>>, winnings: real, after: real)
  {
    ValidPicks(picks)
    && Scannable(Transposed(SpinOutcome(picks)), RowsScanned(lines))
    && winnings == Winnings(Transposed(SpinOutcome(picks)), bet, RowsScanned(lines))
    && after == before - bet * lines + winnings
  }

  /** One round after the line count and bet are accepted: debit the stake,
      spin, read the grid as paylines, credit the winnings, and report
      whether the balance is used up. */
  method PlayRound(balance: real, lines: real, bet: real, picks: seq<seq<nat>>)
    returns (rows: seq<seq<Symbol>>, winnings: real, newBalance: real, outOfFunds: bool)
    requires LinesAccepted(lines) && BetAccepted(bet, balance, lines)
    requires ValidPicks(picks)
    ensures rows == Transposed(SpinOutcome(picks))
    ensures Scannable(rows, RowsScanned(lines))
    ensures winnings == Winnings(rows, bet, RowsScanned(lines))
    ensures winnings >= 0.0
    ensures newBalance == balance - bet * lines + winnings
    ensures Settled(balance, lines, bet, picks, winnings, newBalance)
    ensures newBalance >= 0.0
    ensures outOfFunds <==> newBalance <= 0.0
    ensures outOfFunds <==> newBalance == 0.0
  {
    BetAcceptedIffStakeCovered(bet, balance, lines);
    AcceptedLinesScan(lines);
    var stake := bet * lines;
    newBalance := balance;
    newBalance := newBalance - stake;
    var reels := Spin(picks);
    rows := Transpose(reels);
    winnings := GetWinning(rows, bet, lines);
    WinningsBounds(rows, bet, RowsScanned(lines));
    newBalance := newBalance + winnings;
    outOfFunds := newBalance <= 0.0;
  }

  /** One round as the session played it: the positions of the accepted line
      count and bet among the replies, their values, what the spin paid and
      the balance after settlement. */
  datatype Round = Round(linesAt: nat, betAt: nat, lines: real, bet: real, winnings: real, balance: real)

  /** Where the line prompt of round `k` starts reading: just after the
      deposit, or just after the previous round's play-again reply. */
  function RoundStart(depositAt: nat, rounds: seq<Round>, k: nat): nat
    requires k <= |rounds|
  {
    if k == 0 then depositAt + 1 else rounds[k - 1].betAt + 2
  }

  /** The balance round `k` starts with: the deposit, or what the previous
      round left. */
  function BalanceBefore(deposit: real, rounds: seq<Round>, k: nat): real
    requires k <= |rounds|
  {
    if k == 0 then deposit else rounds[k - 1].balance
  }

  /** Play went on to round `k`: it is the first round, or the previous one
      left a positive balance and the player answered "y" to playing again. */
  predicate PlayAgain(replies: seq<Reply>, rounds: seq<Round>, k: nat)
    requires k <= |rounds|
  {
    k == 0
    || (rounds[k - 1].balance > 0.0 && rounds[k - 1].betAt + 1 < |replies|
        && replies[rounds[k - 1].betAt + 1].text == "y")
  }

  /** Round `r`, reading replies from `start` with `before` on the balance,
      takes the line count and then the bet the prompts accept, and settles
      the spin drawn by `picks`. */
  predicate PlayedRound(replies: seq<Reply>, start: nat, before: real, picks: seq<seq<nat>>, r: Round)
  {
    start <= |replies|
    && r.linesAt == FirstAccepted(AskLines, replies, start) < |replies|
    && replies[r.linesAt].number == Some(r.lines) && LinesAccepted(r.lines)
    && r.betAt == FirstAccepted(AskBet(before, r.lines), replies, r.linesAt + 1) < |replies|
    && replies[r.betAt].number == Some(r.bet) && BetAccepted(r.bet, before, r.lines)
    && Settled(before, r.lines, r.bet, picks, r.winnings, r.balance)
  }

  /** A round whose line count and bet are the replies the two prompts take,
      in turn, from `start` on, and whose settlement is that of its spin, was
      played from `start`. */
  lemma RoundFromAnswers(replies: seq<Reply>, start: nat, before: real, picks: seq<seq<nat>>, r: Round)
    requires start <= |replies|
    requires r.linesAt == FirstAccepted(AskLines, replies, start) < |replies|
    requires replies[r.linesAt].number == Some(r.lines)
    requires r.betAt == FirstAccepted(AskBet(before, r.lines), replies, r.linesAt + 1) < |replies|
    requires replies[r.betAt].number == Some(r.bet)
    requires Settled(before, r.lines, r.bet, picks, r.winnings, r.balance)
    ensures PlayedRound(replies, start, before, picks, r)
  {
    assert Accepts(AskLines, replies[r.linesAt].number);
    assert Accepts(AskBet(before, r.lines), replies[r.betAt].number);
  }

  /** Round `k` of `rounds` was played with the draws `spins(k)`, from where
      the round before it left off (round 0 from the deposit of `deposit` at
      `depositAt`), after a play-again "y". */
  predicate RoundPlayed(replies: seq<Reply>, spins: nat -> seq<seq<nat>>, depositAt: nat, deposit: real,
                        rounds: seq<Round>, k: nat)
    requires k < |rounds|
  {
    PlayAgain(replies, rounds, k)
    && PlayedRound(replies, RoundStart(depositAt, rounds, k), BalanceBefore(deposit, rounds, k), spins(k), rounds[k])
  }

  /** Every one of `rounds` was played, one after another, from the deposit
      of `deposit` at `depositAt`. */
  predicate PlayedRounds(replies: seq<Reply>, spins: nat -> seq<seq<nat>>, depositAt: nat, deposit: real,
                         rounds: seq<Round>)
  {
    forall k: nat :: k < |rounds| ==> RoundPlayed(replies, spins, depositAt, deposit, rounds, k)
  }

  /** A round played from where `rounds` left off, after a play-again "y",
      extends the rounds played. */
  lemma PlayedRoundsSnoc(replies: seq<Reply>, spins: nat -> seq<seq<nat>>, depositAt: nat, deposit: real,
                         rounds: seq<Round>, r: Round)
    requires PlayedRounds(replies, spins, depositAt, deposit, rounds) && PlayAgain(replies, rounds, |rounds|)
    requires PlayedRound(replies, RoundStart(depositAt, rounds, |rounds|), BalanceBefore(deposit, rounds, |rounds|),
                         spins(|rounds|), r)
    ensures PlayedRounds(replies, spins, depositAt, deposit, rounds + [r])
  {
    var rounds' := rounds + [r];
    forall k: nat | k < |rounds'|
      ensures RoundPlayed(replies, spins, depositAt, deposit, rounds', k)
    {
      if k < |rounds| {
        assert RoundPlayed(replies, spins, depositAt, deposit, rounds, k);
        assert rounds'[k] == rounds[k];
        assert k > 0 ==> rounds'[k - 1] == rounds[k - 1];
      } else {
        assert rounds'[k] == r;
        assert k > 0 ==> rounds'[k - 1] == rounds[k - 1];
      }
    }
  }

  /** The replies ran out while round `start`'s prompts waited: at the
      play-again question (`start` past the end), at the line count, or at
      the bet judged against `balance`. */
  predicate Stalled(replies: seq<Reply>, start: nat, balance: real)
  {
    start >= |replies|
    || var linesAt := FirstAccepted(AskLines, replies, start);
       linesAt == |replies|
       || FirstAccepted(AskBet(balance, replies[linesAt].number.value), replies, linesAt + 1) == |replies|
  }

  /** One pass of the session loop up to settlement, after `rounds` were
      played from the deposit of `deposit` at `depositAt`: ask for the line
      count from where they left off, then for a bet against the balance
      they left, then play the round with the draws `spins(|rounds|)`.
      Returns the round played and the position after its bet, or None with every reply read when a prompt ran out of replies. */
  method NextRound(replies: seq<Reply>, spins: nat -> seq<seq<nat>>, depositAt: nat, deposit: real,
                   rounds: seq<Round>)
    returns (played: Option<Round>, read: nat)
    requires PlayedRounds(replies, spins, depositAt, deposit, rounds) && PlayAgain(replies, rounds, |rounds|)
    requires RoundStart(depositAt, rounds, |rounds|) <= |replies| && BalanceBefore(deposit, rounds, |rounds|) > 0.0
    requires ValidPicks(spins(|rounds|))
    ensures RoundStart(depositAt, rounds, |rounds|) <= read <= |replies|
    ensures played.None? ==>
      read == |replies| && Stalled(replies, RoundStart(depositAt, rounds, |rounds|), BalanceBefore(deposit, rounds, |rounds|))
    ensures played.Some? ==>
      PlayedRounds(replies, spins, depositAt, deposit, rounds + [played.value])
      && read == played.value.betAt + 1 && played.value.balance >= 0.0
  {
    var start, balance := RoundStart(depositAt, rounds, |rounds|), BalanceBefore(deposit, rounds, |rounds|);
    var lines: Option<real>;
    lines, read := Ask(AskLines, replies, start);
    if lines.None? {
      assert FirstAccepted(AskLines, replies, start) == |replies|;
      return None, read;
    }
    var linesAt := read - 1;
    assert replies[linesAt].number == lines;
    var bet: Option<real>;
    bet, read := Ask(AskBet(balance, lines.value), replies, read);
    if bet.None? {
      assert FirstAccepted(AskBet(balance, replies[linesAt].number.value), replies, linesAt + 1) == |replies|;
      return None, read;
    }
    var rows, winnings, newBalance, outOfFunds;
    rows, winnings, newBalance, outOfFunds := PlayRound(balance, lines.value, bet.value, spins(|rounds|));
    var r := Round(linesAt, read - 1, lines.value, bet.value, winnings, newBalance);
    RoundFromAnswers(replies, start, balance, spins(|rounds|), r);
    PlayedRoundsSnoc(replies, spins, depositAt, deposit, rounds, r);
    played := Some(r);
  }

  /** The whole session: take a deposit, then play rounds while money is
      left and the player answers "y". `spins(k)` holds the random draws of
      round `k`. Returns how the session ended, the final balance, the
      number of replies read, where the deposit was accepted and the rounds
      played. */
  method Game(replies: seq<Reply>, spins: nat -> seq<seq<nat>>)
    returns (outcome: Outcome, balance: real, read: nat, depositAt: nat, rounds: seq<Round>)
    requires forall k: nat :: ValidPicks(spins(k))
    ensures read <= |replies|
    ensures depositAt == FirstAccepted(AskDeposit, replies, 0)
    ensures depositAt == |replies| ==> outcome == AwaitingInput && read == |replies| && rounds == [] && balance == 0.0
    ensures depositAt < |replies| ==>
      PlayedRounds(replies, spins, depositAt, replies[depositAt].number.value, rounds)
      && balance == BalanceBefore(replies[depositAt].number.value, rounds, |rounds|)
    ensures balance >= 0.0
    ensures outcome == OutOfFunds <==> rounds != [] && balance == 0.0
    ensures outcome == OutOfFunds ==> rounds != [] && read == rounds[|rounds| - 1].betAt + 1
    ensures outcome == PlayerQuit ==>
      rounds != [] && read == rounds[|rounds| - 1].betAt + 2 && replies[read - 1].text != "y"
    ensures outcome == AwaitingInput && depositAt < |replies| ==>
      read == |replies| && balance > 0.0 && Stalled(replies, RoundStart(depositAt, rounds, |rounds|), balance)
      && (RoundStart(depositAt, rounds, |rounds|) <= |replies| ==> PlayAgain(replies, rounds, |rounds|))
  {
    var deposit: Option<real>;
    deposit, read := Ask(AskDeposit, replies, 0);
    rounds := [];
    if deposit.None? {
      return AwaitingInput, 0.0, read, |replies|, rounds;
    }
    depositAt := read - 1;
    balance := deposit.value;
    outcome := AwaitingInput;
    while true
      invariant depositAt == FirstAccepted(AskDeposit, replies, 0) < |replies|
      invariant replies[depositAt].number == deposit
      invariant read == RoundStart(depositAt, rounds, |rounds|) <= |replies|
      invariant PlayedRounds(replies, spins, depositAt, deposit.value, rounds)
      invariant PlayAgain(replies, rounds, |rounds|)
      invariant balance == BalanceBefore(deposit.value, rounds, |rounds|) > 0.0
      decreases |replies| - read
    {
      var played: Option<Round>;
      played, read := NextRound(replies, spins, depositAt, deposit.value, rounds);
      if played.None? {
        break;
      }
      rounds := rounds + [played.value];
      balance := played.value.balance;
      if balance <= 0.0 {
        outcome := OutOfFunds;
        break;
      }
      if read == |replies| {
        break;
      }
      var playAgain := replies[read];
      read := read + 1;
      if playAgain.text != "y" {
        outcome := PlayerQuit;
        break;
      }
    }
  }
}
