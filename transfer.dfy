/**
 * Ether transfers: `EthEngine.sendAllEther` and `EthEngine.sendEther`.
 *
 * Amounts are wei as unbounded integers (the source uses big numbers). The node's
 * answers (balance, gas price, gas estimate, and whether `sendTransaction` accepted the
 * transaction) are inputs: a read that fails is `None` and rejects the whole call.
 * Gas multipliers are counted in tenths: a multiplier of 2 is 20 and the default
 * increment of 0.1 is 1.
 */
module Transfer {
  import opened Wrappers

  /** The transaction object handed to `sendTransaction`. */
  datatype TxRequest = TxRequest(from: Address, to: Address, gasPrice: int, gas: int, value: int)

  // ---------------------------------------------------------------------------
  // sendAllEther

  /**
   * `sendAllEther`: read the balance, the gas price and a gas estimate, and send the
   * balance minus the fee. The gas is the bare estimate; the `gasMultiplier` argument is
   * never used. Nothing keeps the value from going negative.
   */
  function SendAllEther(from: Address, to: Address, balance: Option<int>, gasPrice: Option<int>,
                        estimate: Option<int>, gasMultiplier: int): (r: Option<TxRequest>)
    ensures r.Some? <==> balance.Some? && gasPrice.Some? && estimate.Some?
    ensures r.Some? ==> r.value.from == from && r.value.to == to
    ensures r.Some? ==> r.value.gas == estimate.value && r.value.gasPrice == gasPrice.value
    // the value and the fee together spend exactly the balance
    ensures r.Some? ==> r.value.value + r.value.gas * r.value.gasPrice == balance.value
  {
    if balance.None? || gasPrice.None? || estimate.None? then None
    else
      var fee := estimate.value * gasPrice.value;
      Some(TxRequest(from, to, gasPrice.value, estimate.value, balance.value - fee))
  }

  /** The multiplier argument has no effect on the transaction. */
  lemma AllEtherIgnoresMultiplier(from: Address, to: Address, balance: Option<int>, gasPrice: Option<int>,
                                  estimate: Option<int>, m1: int, m2: int)
    ensures SendAllEther(from, to, balance, gasPrice, estimate, m1) == SendAllEther(from, to, balance, gasPrice, estimate, m2)
  {
  }

  /** When the fee is larger than the balance, the value sent is negative. */
  lemma AllEtherCanGoNegative(from: Address, to: Address, balance: int, gasPrice: int, estimate: int, m: int)
    requires balance < estimate * gasPrice
    ensures SendAllEther(from, to, Some(balance), Some(gasPrice), Some(estimate), m).value.value < 0
  {
  }

  // ---------------------------------------------------------------------------
  // sendEther

  /**
   * What one round of `sendEther` meets: the gas price read, the gas estimate read (made
   * only when the price read succeeded) and whether the node accepted the transaction.
   */
  datatype Attempt = Attempt(gasPrice: Option<int>, estimate: Option<int>, accepted: bool)

  /** An attempt whose two reads succeeded and whose transaction the node refused. */
  predicate Refused(a: Attempt)
  {
    a.gasPrice.Some? && a.estimate.Some? && !a.accepted
  }

  /**
   * How `sendEther` ends, with the number of attempts made:
   * the transaction was accepted (with the multiplier, in tenths, that the accepted
   * attempt used); the catch handler declined to retry and the call resolves to
   * `undefined`; a read rejected, which rejects every enclosing retry as well; or the
   * given attempts ran out while the call would go on retrying.
   */
  datatype EtherOutcome =
    | Sent(request: TxRequest, multiplier10: int, attempts: nat)
    | GaveUp(attempts: nat)
    | ReadFailed(attempts: nat)
    | Unfinished

  /** An outcome seen from one attempt earlier. */
  function Later(r: EtherOutcome): EtherOutcome
  {
    match r
    case Sent(request, m, k) => Sent(request, m, k + 1)
    case GaveUp(k) => GaveUp(k + 1)
    case ReadFailed(k) => ReadFailed(k + 1)
    case Unfinished => Unfinished
  }

  /** An outcome seen from `n` attempts earlier. */
  function LaterBy(n: nat, r: EtherOutcome): EtherOutcome
  {
    if n == 0 then r else Later(LaterBy(n - 1, r))
  }

  /** `Math.round(estimate * multiplier)` with the multiplier in tenths. */
  function GasFor(estimate: int, multiplier10: int): int
  {
    (estimate * multiplier10 + 5) / 10
  }

  /**
   * The retry guard of the catch handler. `AsWritten` is the source's test, which looks
   * at the increment only (`gasIncremental !== 0 && gasIncremental < 5`); `Capped` is
   * the bound the accompanying comment asks for ("Not more than 5x multiplier"): retry
   * only while the next multiplier stays below 5.
   */
  datatype RetryGuard = AsWritten | Capped

  predicate Retries(guard: RetryGuard, multiplier10: int, increment10: int)
  {
    match guard
    case AsWritten => increment10 != 0 && increment10 < 50
    case Capped => increment10 != 0 && multiplier10 + increment10 < 50
  }

  /**
   * The outcome of `sendEther(to, balance, multiplier, increment)` over the given rounds.
   * Each round reads the gas price and the estimate afresh and sends `wei` to `to` with
   * the current multiplier; a refused send is retried with the multiplier raised by the
   * increment when the guard allows it.
   */
  function EtherRun(guard: RetryGuard, from: Address, to: Address, wei: int,
                    multiplier10: int, increment10: int, attempts: seq<Attempt>): EtherOutcome
    decreases |attempts|
  {
    if attempts == [] then Unfinished
    else
      var a := attempts[0];
      if a.gasPrice.None? || a.estimate.None? then ReadFailed(1)
      else if a.accepted then
        Sent(TxRequest(from, to, a.gasPrice.value, GasFor(a.estimate.value, multiplier10), wei), multiplier10, 1)
      else if !Retries(guard, multiplier10, increment10) then GaveUp(1)
      else Later(EtherRun(guard, from, to, wei, multiplier10 + increment10, increment10, attempts[1..]))
  }

  /**
   * After `n` refused and retried rounds the run continues as a fresh run over the rest,
   * with the multiplier raised by `n` increments.
   */
  lemma {:induction false} SkipRefused(guard: RetryGuard, from: Address, to: Address, wei: int,
                                       multiplier10: int, increment10: int, attempts: seq<Attempt>, n: nat)
    requires n <= |attempts|
    requires forall j :: 0 <= j < n ==> Refused(attempts[j]) && Retries(guard, multiplier10 + j * increment10, increment10)
    ensures EtherRun(guard, from, to, wei, multiplier10, increment10, attempts) ==
      LaterBy(n, EtherRun(guard, from, to, wei, multiplier10 + n * increment10, increment10, attempts[n..]))
    decreases n
  {
    if n > 0 {
      var m' := multiplier10 + increment10;
      forall j | 0 <= j < n - 1
        ensures Refused(attempts[1..][j]) && Retries(guard, m' + j * increment10, increment10)
      {
        assert m' + j * increment10 == multiplier10 + (j + 1) * increment10;
      }
      SkipRefused(guard, from, to, wei, m', increment10, attempts[1..], n - 1);
      assert attempts[1..][n - 1..] == attempts[n..];
      assert m' + (n - 1) * increment10 == multiplier10 + n * increment10;
      var rest := EtherRun(guard, from, to, wei, multiplier10 + n * increment10, increment10, attempts[n..]);
      assert Later(LaterBy(n - 1, rest)) == LaterBy(n, rest);
    }
  }

  /** A transaction handed to `sendTransaction` in one round, with the multiplier (in tenths) that round used. */
  datatype Submission = Submission(request: TxRequest, multiplier10: int)

  /**
   * Every transaction `sendEther` hands to `sendTransaction` over the given rounds, in
   * order: each round whose two reads succeed submits one, whether or not the node
   * then accepts it.
   */
  function Submitted(guard: RetryGuard, from: Address, to: Address, wei: int,
                     multiplier10: int, increment10: int, attempts: seq<Attempt>): seq<Submission>
    decreases |attempts|
  {
    if attempts == [] then []
    else
      var a := attempts[0];
      if a.gasPrice.None? || a.estimate.None? then []
      else
        var s := Submission(TxRequest(from, to, a.gasPrice.value, GasFor(a.estimate.value, multiplier10), wei), multiplier10);
        if a.accepted || !Retries(guard, multiplier10, increment10) then [s]
        else [s] + Submitted(guard, from, to, wei, multiplier10 + increment10, increment10, attempts[1..])
  }

  /**
   * The `k`-th submitted transaction belongs to round `k`, whose reads succeeded: it
   * keeps the destination and the amount, uses the gas price read in that round, and
   * asks for `round(estimate * (multiplier + k * increment))` gas; every round before the
   * last submitted one was refused and retried.
   */
  lemma {:induction false} SubmittedShape(guard: RetryGuard, from: Address, to: Address, wei: int,
                                          multiplier10: int, increment10: int, attempts: seq<Attempt>)
    ensures var s := Submitted(guard, from, to, wei, multiplier10, increment10, attempts);
      |s| <= |attempts| &&
      forall k :: 0 <= k < |s| ==>
        attempts[k].gasPrice.Some? && attempts[k].estimate.Some? &&
        s[k].multiplier10 == multiplier10 + k * increment10 &&
        s[k].request == TxRequest(from, to, attempts[k].gasPrice.value,
                                  GasFor(attempts[k].estimate.value, multiplier10 + k * increment10), wei) &&
        (k < |s| - 1 ==> Refused(attempts[k]) && Retries(guard, multiplier10 + k * increment10, increment10))
    decreases |attempts|
  {
    var s := Submitted(guard, from, to, wei, multiplier10, increment10, attempts);
    if attempts != [] && attempts[0].gasPrice.Some? && attempts[0].estimate.Some?
       && !attempts[0].accepted && Retries(guard, multiplier10, increment10) {
      var m' := multiplier10 + increment10;
      var rest := Submitted(guard, from, to, wei, m', increment10, attempts[1..]);
      SubmittedShape(guard, from, to, wei, m', increment10, attempts[1..]);
      forall k | 1 <= k < |s|
        ensures attempts[k] == attempts[1..][k - 1] && s[k] == rest[k - 1]
        ensures m' + (k - 1) * increment10 == multiplier10 + k * increment10
      {
      }
    }
  }

  /**
   * The submissions and the outcome agree: an accepted run's last submission is the
   * transaction it reports, a run that gave up submitted in each of its rounds, a run
   * whose read failed submitted in every round but the last, and an unfinished run
   * submitted in every round given.
   */
  lemma {:induction false} SubmittedMatchesOutcome(guard: RetryGuard, from: Address, to: Address, wei: int,
                                                   multiplier10: int, increment10: int, attempts: seq<Attempt>)
    ensures var r := EtherRun(guard, from, to, wei, multiplier10, increment10, attempts);
      var s := Submitted(guard, from, to, wei, multiplier10, increment10, attempts);
      (r.Sent? ==> |s| == r.attempts && s[|s| - 1] == Submission(r.request, r.multiplier10)) &&
      (r.GaveUp? ==> |s| == r.attempts) &&
      (r.ReadFailed? ==> |s| == r.attempts - 1) &&
      (r.Unfinished? ==> |s| == |attempts|)
    decreases |attempts|
  {
    if attempts != [] && Refused(attempts[0]) && Retries(guard, multiplier10, increment10) {
      SubmittedMatchesOutcome(guard, from, to, wei, multiplier10 + increment10, increment10, attempts[1..]);
    }
  }

  /** Every submission in `s` uses a multiplier of at most `cap` tenths. */
  predicate MultipliersAtMost(s: seq<Submission>, cap: int)
  {
    forall k :: 0 <= k < |s| ==> s[k].multiplier10 <= cap
  }

  /**
   * With the guard the comment asks for, no transaction is ever submitted with a
   * multiplier above 5, accepted or not.
   */
  lemma {:induction false} CappedSubmissionsBounded(from: Address, to: Address, wei: int,
                                                    multiplier10: int, increment10: int, attempts: seq<Attempt>)
    requires multiplier10 <= 50
    ensures MultipliersAtMost(Submitted(Capped, from, to, wei, multiplier10, increment10, attempts), 50)
    decreases |attempts|
  {
    var s := Submitted(Capped, from, to, wei, multiplier10, increment10, attempts);
    if attempts != [] && attempts[0].gasPrice.Some? && attempts[0].estimate.Some?
       && !attempts[0].accepted && Retries(Capped, multiplier10, increment10) {
      var rest := Submitted(Capped, from, to, wei, multiplier10 + increment10, increment10, attempts[1..]);
      CappedSubmissionsBounded(from, to, wei, multiplier10 + increment10, increment10, attempts[1..]);
      assert s == [s[0]] + rest;
    }
  }

  /**
   * A run that ends with an accepted transaction: the attempt that was accepted read both
   * values, and its transaction carries the same destination and amount as the first,
   * the gas price it read, and `round(estimate * (multiplier + k * increment))` gas when
   * it is the `k`-th retry; every earlier attempt was refused and retried.
   */
  lemma {:induction false} SentShape(guard: RetryGuard, from: Address, to: Address, wei: int,
                                     multiplier10: int, increment10: int, attempts: seq<Attempt>)
    ensures var r := EtherRun(guard, from, to, wei, multiplier10, increment10, attempts);
      r.Sent? ==>
        1 <= r.attempts <= |attempts| &&
        var a := attempts[r.attempts - 1];
        a.accepted && a.gasPrice.Some? && a.estimate.Some? &&
        r.multiplier10 == multiplier10 + (r.attempts - 1) * increment10 &&
        r.request == TxRequest(from, to, a.gasPrice.value, GasFor(a.estimate.value, r.multiplier10), wei) &&
        forall j :: 0 <= j < r.attempts - 1 ==>
          Refused(attempts[j]) && Retries(guard, multiplier10 + j * increment10, increment10)
    decreases |attempts|
  {
    var r := EtherRun(guard, from, to, wei, multiplier10, increment10, attempts);
    if attempts != [] && Refused(attempts[0]) && Retries(guard, multiplier10, increment10) {
      var m' := multiplier10 + increment10;
      var rest := EtherRun(guard, from, to, wei, m', increment10, attempts[1..]);
      SentShape(guard, from, to, wei, m', increment10, attempts[1..]);
      if r.Sent? {
        assert r.attempts == rest.attempts + 1 && r.request == rest.request && r.multiplier10 == rest.multiplier10;
        assert attempts[r.attempts - 1] == attempts[1..][rest.attempts - 1];
        assert m' + (rest.attempts - 1) * increment10 == multiplier10 + (r.attempts - 1) * increment10;
        forall j | 0 <= j < r.attempts - 1
          ensures Refused(attempts[j]) && Retries(guard, multiplier10 + j * increment10, increment10)
        {
          if j > 0 {
            assert attempts[j] == attempts[1..][j - 1];
            assert m' + (j - 1) * increment10 == multiplier10 + j * increment10;
          }
        }
      }
    }
  }

  /**
   * Under the source's guard the retry decision never changes from one round to the
   * next, so a refused send with a retrying increment is never answered by giving up.
   */
  lemma {:induction false} AsWrittenNeverGivesUp(from: Address, to: Address, wei: int,
                                                 multiplier10: int, increment10: int, attempts: seq<Attempt>)
    requires Retries(AsWritten, multiplier10, increment10)
    ensures !EtherRun(AsWritten, from, to, wei, multiplier10, increment10, attempts).GaveUp?
    decreases |attempts|
  {
    if attempts != [] {
      AsWrittenNeverGivesUp(from, to, wei, multiplier10 + increment10, increment10, attempts[1..]);
    }
  }

  /** Under the source's guard, a refused send with a non-retrying increment ends the call after one attempt with `undefined`. */
  lemma AsWrittenSingleAttempt(from: Address, to: Address, wei: int,
                               multiplier10: int, increment10: int, attempts: seq<Attempt>)
    requires !Retries(AsWritten, multiplier10, increment10)
    requires attempts != [] && Refused(attempts[0])
    ensures EtherRun(AsWritten, from, to, wei, multiplier10, increment10, attempts) == GaveUp(1)
  {
  }

  /**
   * Under the source's guard, refusals are retried for as long as they come: however
   * many refused rounds there are, the call has not ended.
   */
  lemma {:induction false} AsWrittenNeverStops(from: Address, to: Address, wei: int,
                                               multiplier10: int, increment10: int, attempts: seq<Attempt>)
    requires Retries(AsWritten, multiplier10, increment10)
    requires forall j :: 0 <= j < |attempts| ==> Refused(attempts[j])
    ensures EtherRun(AsWritten, from, to, wei, multiplier10, increment10, attempts) == Unfinished
    decreases |attempts|
  {
    if attempts != [] {
      AsWrittenNeverStops(from, to, wei, multiplier10 + increment10, increment10, attempts[1..]);
    }
  }

  /**
   * With the default multiplier 2 and increment 0.1, a transaction accepted after 31
   * refusals is submitted and sent with multiplier 5.1, and its gas exceeds five times
   * the estimate.
   */
  lemma UncappedMultiplier(from: Address, to: Address, wei: int, attempts: seq<Attempt>)
    requires |attempts| == 32
    requires forall j :: 0 <= j < 31 ==> Refused(attempts[j])
    requires attempts[31].accepted && attempts[31].gasPrice.Some? && attempts[31].estimate == Some(10)
    ensures var r := EtherRun(AsWritten, from, to, wei, 20, 1, attempts);
      r.Sent? && r.multiplier10 == 51 && r.request.gas > 5 * 10
    ensures var s := Submitted(AsWritten, from, to, wei, 20, 1, attempts);
      |s| == 32 && s[31].multiplier10 == 51
  {
    forall j | 0 <= j < 31
      ensures Refused(attempts[j]) && Retries(AsWritten, 20 + j * 1, 1)
    {
    }
    SkipRefused(AsWritten, from, to, wei, 20, 1, attempts, 31);
    var last := EtherRun(AsWritten, from, to, wei, 51, 1, attempts[31..]);
    assert last == Sent(TxRequest(from, to, attempts[31].gasPrice.value, GasFor(10, 51), wei), 51, 1);
    LaterByAdds(31, last);
    SubmittedMatchesOutcome(AsWritten, from, to, wei, 20, 1, attempts);
  }

  /** Seen from `n` attempts earlier, an outcome counts `n` more attempts. */
  lemma {:induction false} LaterByAdds(n: nat, r: EtherOutcome)
    ensures r.Sent? ==> LaterBy(n, r) == Sent(r.request, r.multiplier10, r.attempts + n)
    ensures r.GaveUp? ==> LaterBy(n, r) == GaveUp(r.attempts + n)
    ensures r.ReadFailed? ==> LaterBy(n, r) == ReadFailed(r.attempts + n)
    ensures r.Unfinished? ==> LaterBy(n, r) == Unfinished
  {
    if n > 0 {
      LaterByAdds(n - 1, r);
    }
  }

  /** With the guard the comment asks for, a transaction is never sent with a multiplier above 5. */
  lemma {:induction false} CappedMultiplierBound(from: Address, to: Address, wei: int,
                                                 multiplier10: int, increment10: int, attempts: seq<Attempt>)
    requires multiplier10 <= 50
    ensures var r := EtherRun(Capped, from, to, wei, multiplier10, increment10, attempts);
      r.Sent? ==> r.multiplier10 <= 50
    decreases |attempts|
  {
    if attempts != [] && Refused(attempts[0]) && Retries(Capped, multiplier10, increment10) {
      CappedMultiplierBound(from, to, wei, multiplier10 + increment10, increment10, attempts[1..]);
    }
  }

  /**
   * With the guard the comment asks for and a positive increment, the call ends after at
   * most `51 - multiplier` rounds (counting in tenths).
   */
  lemma {:induction false} CappedRunEnds(from: Address, to: Address, wei: int,
                                         multiplier10: int, increment10: int, attempts: seq<Attempt>)
    requires 0 < increment10 && multiplier10 <= 50 && |attempts| > 50 - multiplier10
    ensures EtherRun(Capped, from, to, wei, multiplier10, increment10, attempts) != Unfinished
    decreases |attempts|
  {
    if Refused(attempts[0]) && Retries(Capped, multiplier10, increment10) {
      CappedRunEnds(from, to, wei, multiplier10 + increment10, increment10, attempts[1..]);
    }
  }

  /**
   * `sendEther` as a loop over the rounds: each round reads the gas price and the
   * estimate, sends `wei` to `to` with the current multiplier, and on a refusal either
   * retries with the multiplier raised by the increment or resolves to `undefined`.
   */
  method SendEther(guard: RetryGuard, from: Address, to: Address, wei: int,
                   gasMultiplier10: int, gasIncremental10: int, attempts: seq<Attempt>)
    returns (outcome: EtherOutcome, submitted: seq<Submission>)
    ensures outcome == EtherRun(guard, from, to, wei, gasMultiplier10, gasIncremental10, attempts)
    ensures submitted == Submitted(guard, from, to, wei, gasMultiplier10, gasIncremental10, attempts)
  {
    var multiplier10 := gasMultiplier10;
    submitted := [];
    var i := 0;
    while i < |attempts|
      invariant 0 <= i <= |attempts|
      invariant multiplier10 == gasMultiplier10 + i * gasIncremental10
      invariant forall j :: 0 <= j < i ==>
        Refused(attempts[j]) && Retries(guard, gasMultiplier10 + j * gasIncremental10, gasIncremental10)
      invariant Submitted(guard, from, to, wei, gasMultiplier10, gasIncremental10, attempts) ==
        submitted + Submitted(guard, from, to, wei, multiplier10, gasIncremental10, attempts[i..])
    {
      var a := attempts[i];
      if a.gasPrice.None? || a.estimate.None? {
        outcome := ReadFailed(i + 1);
        SkipRefused(guard, from, to, wei, gasMultiplier10, gasIncremental10, attempts, i);
        LaterByAdds(i, ReadFailed(1));
        return;
      }
      var request := TxRequest(from, to, a.gasPrice.value, GasFor(a.estimate.value, multiplier10), wei);
      assert attempts[i..][1..] == attempts[i + 1..];
      submitted := submitted + [Submission(request, multiplier10)];
      if a.accepted {
        outcome := Sent(request, multiplier10, i + 1);
        SkipRefused(guard, from, to, wei, gasMultiplier10, gasIncremental10, attempts, i);
        LaterByAdds(i, Sent(request, multiplier10, 1));
        return;
      }
      if !Retries(guard, multiplier10, gasIncremental10) {
        outcome := GaveUp(i + 1);
        SkipRefused(guard, from, to, wei, gasMultiplier10, gasIncremental10, attempts, i);
        LaterByAdds(i, GaveUp(1));
        return;
      }
      multiplier10 := multiplier10 + gasIncremental10;
      i := i + 1;
    }
    outcome := Unfinished;
    SkipRefused(guard, from, to, wei, gasMultiplier10, gasIncremental10, attempts, i);
    LaterByAdds(i, Unfinished);
  }
}
