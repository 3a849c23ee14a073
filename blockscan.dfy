/**
 * The block-range scanner: `EthEngine.scanBlockRange` with its inner functions
 * `scanTransactionCallback`, `scanBlockCallback`, `asyncScanNextBlock` and `exitThread`.
 *
 * The scanner runs on one cooperative thread. A number of "slots" are started. Each
 * slot claims the next block number from a shared, post-incremented counter and asks
 * the node for that block. When the reply arrives, the slot classifies the block's
 * transactions and claims again. The scanner is modelled as a state machine: an object
 * of class `Scan` with the closure's variables as fields, one method per step
 * (`Launch`, `NextBlock`, `ExitThread`, `FetchCompleted`) and the order in which
 * replies arrive chosen by the caller of `FetchCompleted`.
 */
module BlockScan {
  import opened Wrappers

  /** A transaction as the node returns it. `to` is null for a contract creation. */
  datatype Txn = Txn(from: Address, to: Option<Address>, value: nat)

  /** A block as the node returns it; a block without a transaction list is skipped. */
  datatype Block = Block(timestamp: int, transactions: Option<seq<Txn>>)

  /**
   * One entry of the result list. The source stores a message built from the timestamp,
   * the amount in ether and the counterparty: "+amount from sender" for a credit,
   * "-amount to recipient" for a debit. The model keeps the three parts.
   */
  datatype Entry =
    | Credit(timestamp: int, amount: nat, sender: Address)
    | Debit(timestamp: int, amount: nat, recipient: Option<Address>)

  /** The engine's fixed number of slots (`maxThreads`). */
  const MaxThreads: nat := 20

  function Min(a: int, b: int): int { if a <= b then a else b }

  // ---------------------------------------------------------------------------
  // Range setup

  /** A JavaScript argument is falsy when it is missing or the number 0. */
  predicate Truthy(arg: Option<int>) { arg.Some? && arg.value != 0 }

  /**
   * What the range setup leads to. In both failure cases the scan promise never
   * settles: the chain-height read rejects inside the promise executor, or the
   * executor returns -1 without calling `resolve` or `reject`.
   */
  datatype RangeSetup =
    | Range(start: int, stop: int)
    | HeightUnavailable
    | InvalidRange(start: int, stop: int)

  /**
   * Fills in the missing bounds and validates them. The chain height is read only when
   * the stop block is falsy; a falsy start becomes stop - 10.
   */
  function ResolveRange(startingBlock: Option<int>, stoppingBlock: Option<int>, chainHeight: Option<int>): (r: RangeSetup)
    ensures r.HeightUnavailable? <==> !Truthy(stoppingBlock) && chainHeight.None?
    ensures r.Range? ==> r.start <= r.stop
    ensures r.InvalidRange? ==> r.start > r.stop
    ensures (r.Range? || r.InvalidRange?) && Truthy(stoppingBlock) ==> r.stop == stoppingBlock.value
    ensures (r.Range? || r.InvalidRange?) && !Truthy(stoppingBlock) ==> r.stop == chainHeight.value
    ensures (r.Range? || r.InvalidRange?) && Truthy(startingBlock) ==> r.start == startingBlock.value
    ensures (r.Range? || r.InvalidRange?) && !Truthy(startingBlock) ==> r.start == r.stop - 10
  {
    if !Truthy(stoppingBlock) && chainHeight.None? then HeightUnavailable
    else
      var stop := if Truthy(stoppingBlock) then stoppingBlock.value else chainHeight.value;
      var start := if Truthy(startingBlock) then startingBlock.value else stop - 10;
      if start > stop then InvalidRange(start, stop) else Range(start, stop)
  }

  /** The chain height is consulted only when no truthy stop block is given. */
  lemma HeightReadOnlyWhenStopFalsy(startingBlock: Option<int>, stop: int, h1: Option<int>, h2: Option<int>)
    requires stop != 0
    ensures ResolveRange(startingBlock, Some(stop), h1) == ResolveRange(startingBlock, Some(stop), h2)
  {
  }

  /** Block 0 given as a bound counts as missing, like an omitted argument. */
  lemma ZeroIsMissing(startingBlock: Option<int>, stoppingBlock: Option<int>, h: Option<int>)
    ensures ResolveRange(Some(0), stoppingBlock, h) == ResolveRange(None, stoppingBlock, h)
    ensures ResolveRange(startingBlock, Some(0), h) == ResolveRange(startingBlock, None, h)
  {
  }

  // ---------------------------------------------------------------------------
  // Classification of transactions

  /**
   * `scanTransactionCallback`: the entries one transaction adds. A transaction to the
   * observed account is a credit; otherwise one from it is a debit; otherwise nothing.
   */
  function Classify(t: Txn, timestamp: int, observed: Address): (r: seq<Entry>)
    ensures |r| <= 1
    ensures |r| == 1 <==> t.to == Some(observed) || t.from == observed
    ensures |r| == 1 ==> r[0].timestamp == timestamp && r[0].amount == t.value
    ensures |r| == 1 && r[0].Credit? <==> t.to == Some(observed)
    ensures |r| == 1 && r[0].Credit? ==> r[0].sender == t.from
    ensures |r| == 1 && r[0].Debit? ==> r[0].recipient == t.to
  {
    if t.to == Some(observed) then [Credit(timestamp, t.value, t.from)]
    else if t.from == observed then [Debit(timestamp, t.value, t.to)]
    else []
  }

  /** A transfer from the observed account to itself is recorded once, as a credit. */
  lemma SelfTransferIsCredit(t: Txn, timestamp: int, observed: Address)
    requires t.from == observed && t.to == Some(observed)
    ensures Classify(t, timestamp, observed) == [Credit(timestamp, t.value, observed)]
  {
  }

  /** The entries a list of transactions adds, in list order. */
  function Matches(txns: seq<Txn>, timestamp: int, observed: Address): (r: seq<Entry>)
    ensures |r| <= |txns|
  {
    if txns == [] then []
    else
      var n := |txns| - 1;
      Matches(txns[..n], timestamp, observed) + Classify(txns[n], timestamp, observed)
  }

  /** Scanning one more transaction of a list appends its classification. */
  lemma MatchesStep(txns: seq<Txn>, timestamp: int, observed: Address, k: nat)
    requires k < |txns|
    ensures Matches(txns[..k + 1], timestamp, observed) == Matches(txns[..k], timestamp, observed) + Classify(txns[k], timestamp, observed)
  {
    assert txns[..k + 1][..k] == txns[..k];
  }

  /** `scanBlockCallback`: the entries a fetched block adds. */
  function BlockMatches(block: Block, observed: Address): seq<Entry>
  {
    if block.transactions.Some? then Matches(block.transactions.value, block.timestamp, observed) else []
  }

  /** Scanning two lists one after the other adds the same entries as scanning their concatenation. */
  lemma {:induction false} MatchesAppend(a: seq<Txn>, b: seq<Txn>, timestamp: int, observed: Address)
    ensures Matches(a + b, timestamp, observed) == Matches(a, timestamp, observed) + Matches(b, timestamp, observed)
    decreases |b|
  {
    if b != [] {
      var n := |b| - 1;
      assert (a + b)[..|a + b| - 1] == a + b[..n];
      assert (a + b)[|a + b| - 1] == b[n];
      MatchesAppend(a, b[..n], timestamp, observed);
    } else {
      assert a + b == a;
    }
  }

  /**
   * Every entry comes from a transaction of the list: a credit from one sent to the
   * observed account, a debit from one sent by it to someone else.
   */
  lemma {:induction false} MatchesSound(txns: seq<Txn>, timestamp: int, observed: Address, k: nat)
    requires k < |Matches(txns, timestamp, observed)|
    ensures var e := Matches(txns, timestamp, observed)[k];
      e.timestamp == timestamp &&
      exists t :: t in txns && t.value == e.amount &&
        (e.Credit? ==> t.to == Some(observed) && t.from == e.sender) &&
        (e.Debit? ==> t.from == observed && t.to != Some(observed) && t.to == e.recipient)
  {
    var n := |txns| - 1;
    var front := Matches(txns[..n], timestamp, observed);
    if k < |front| {
      MatchesSound(txns[..n], timestamp, observed, k);
      var e := front[k];
      var t :| t in txns[..n] && t.value == e.amount &&
        (e.Credit? ==> t.to == Some(observed) && t.from == e.sender) &&
        (e.Debit? ==> t.from == observed && t.to != Some(observed) && t.to == e.recipient);
      assert t in txns;
    } else {
      assert txns[n] in txns;
    }
  }

  /**
   * Each transaction contributes exactly its own classification, at its own place in the
   * list: the entries are those of the transactions before it, then its own, then those
   * of the transactions after it. A transaction that touches the observed account
   * therefore always leaves an entry.
   */
  lemma {:induction false} MatchesComplete(txns: seq<Txn>, timestamp: int, observed: Address, i: nat)
    requires i < |txns|
    ensures Matches(txns, timestamp, observed) ==
      Matches(txns[..i], timestamp, observed) + Classify(txns[i], timestamp, observed) + Matches(txns[i + 1..], timestamp, observed)
    ensures txns[i].to == Some(observed) || txns[i].from == observed ==> |Matches(txns, timestamp, observed)| > 0
  {
    assert txns[..i + 1] + txns[i + 1..] == txns;
    MatchesAppend(txns[..i + 1], txns[i + 1..], timestamp, observed);
    MatchesStep(txns, timestamp, observed, i);
  }

  // ---------------------------------------------------------------------------
  // The slot table

  /** Where a slot is: inside a step, waiting for a block, stopped by a failed fetch, or gone. */
  datatype Slot = Running | Fetching(block: int) | Stalled | Exited

  /** How many slots are in each state. */
  datatype Tally = Tally(running: nat, fetching: nat, stalled: nat, exited: nat)
  {
    function Plus(x: Slot): Tally
    {
      match x
      case Running => Tally(running + 1, fetching, stalled, exited)
      case Fetching(_) => Tally(running, fetching + 1, stalled, exited)
      case Stalled => Tally(running, fetching, stalled + 1, exited)
      case Exited => Tally(running, fetching, stalled, exited + 1)
    }

    /** The count of `x`'s state. */
    function Of(x: Slot): nat
    {
      match x
      case Running => running
      case Fetching(_) => fetching
      case Stalled => stalled
      case Exited => exited
    }

    function Minus(x: Slot): Tally
      requires Of(x) > 0
    {
      match x
      case Running => Tally(running - 1, fetching, stalled, exited)
      case Fetching(_) => Tally(running, fetching - 1, stalled, exited)
      case Stalled => Tally(running, fetching, stalled - 1, exited)
      case Exited => Tally(running, fetching, stalled, exited - 1)
    }

  }

  /** The tally of the first `n` slots. */
  function TallyTo(slots: seq<Slot>, n: int): Tally
    requires 0 <= n <= |slots|
  {
    if n == 0 then Tally(0, 0, 0, 0) else TallyTo(slots, n - 1).Plus(slots[n - 1])
  }

  function TallyOf(slots: seq<Slot>): Tally
  {
    TallyTo(slots, |slots|)
  }

  /** Tables that agree on their first `n` slots have the same tally there. */
  lemma {:induction false} TallyToPrefix(a: seq<Slot>, b: seq<Slot>, n: int)
    requires 0 <= n <= |a| && n <= |b|
    requires forall k :: 0 <= k < n ==> a[k] == b[k]
    ensures TallyTo(a, n) == TallyTo(b, n)
  {
    if n > 0 {
      TallyToPrefix(a, b, n - 1);
    }
  }

  lemma TallyAppend(slots: seq<Slot>, x: Slot)
    ensures TallyOf(slots + [x]) == TallyOf(slots).Plus(x)
  {
    TallyToPrefix(slots + [x], slots, |slots|);
  }

  lemma {:induction false} TallyToUpdate(slots: seq<Slot>, i: nat, x: Slot, n: int)
    requires i < |slots| && 0 <= n <= |slots|
    ensures n <= i ==> TallyTo(slots[i := x], n) == TallyTo(slots, n)
    ensures n > i ==> TallyTo(slots[i := x], n).Plus(slots[i]) == TallyTo(slots, n).Plus(x)
  {
    if n > 0 {
      var u := slots[i := x];
      TallyToUpdate(slots, i, x, n - 1);
      if n - 1 == i {
        PlusCommutes(TallyTo(slots, i), x, slots[i]);
      } else if n - 1 > i {
        assert u[n - 1] == slots[n - 1];
        PlusCommutes(TallyTo(u, n - 1), slots[n - 1], slots[i]);
        PlusCommutes(TallyTo(slots, n - 1), x, slots[n - 1]);
      }
    }
  }

  /** Counting two slots in either order gives the same tally. */
  lemma PlusCommutes(t: Tally, a: Slot, b: Slot)
    ensures t.Plus(a).Plus(b) == t.Plus(b).Plus(a)
  {
  }

  lemma {:induction false} TallyToPositive(slots: seq<Slot>, j: nat, n: int)
    requires j < n <= |slots|
    ensures slots[j].Running? ==> TallyTo(slots, n).running > 0
    ensures slots[j].Fetching? ==> TallyTo(slots, n).fetching > 0
    ensures slots[j].Stalled? ==> TallyTo(slots, n).stalled > 0
    ensures slots[j].Exited? ==> TallyTo(slots, n).exited > 0
  {
    if j < n - 1 {
      TallyToPositive(slots, j, n - 1);
    }
  }

  /** A slot in some state makes that state's count positive. */
  lemma TallyPositive(slots: seq<Slot>, j: nat)
    requires j < |slots|
    ensures slots[j].Running? ==> TallyOf(slots).running > 0
    ensures slots[j].Fetching? ==> TallyOf(slots).fetching > 0
    ensures slots[j].Stalled? ==> TallyOf(slots).stalled > 0
    ensures slots[j].Exited? ==> TallyOf(slots).exited > 0
  {
    TallyToPositive(slots, j, |slots|);
  }

  /** Replacing slot `i` by `x` moves one slot from the old state's count to `x`'s. */
  lemma TallyUpdate(slots: seq<Slot>, i: nat, x: Slot)
    requires i < |slots|
    ensures TallyOf(slots).Of(slots[i]) > 0
    ensures TallyOf(slots[i := x]) == TallyOf(slots).Minus(slots[i]).Plus(x)
  {
    TallyToUpdate(slots, i, x, |slots|);
    TallyPositive(slots, i);
  }

  /** A positive count of stalled slots among the first `n` names one of them. */
  lemma {:induction false} TallyToStalled(slots: seq<Slot>, n: int)
    requires 0 <= n <= |slots| && TallyTo(slots, n).stalled > 0
    ensures exists j :: 0 <= j < n && slots[j] == Stalled
  {
    if slots[n - 1] != Stalled {
      TallyToStalled(slots, n - 1);
    }
  }

  /** Every slot is counted once: the live and exited counts add up to the table's size. */
  lemma {:induction false} TallyToSize(slots: seq<Slot>, n: int)
    requires 0 <= n <= |slots|
    ensures var t := TallyTo(slots, n); t.running + t.fetching + t.stalled + t.exited == n
  {
    if n > 0 {
      TallyToSize(slots, n - 1);
    }
  }

  // ---------------------------------------------------------------------------
  // Claimed block numbers and progress lines

  /** The block numbers lo, lo + 1, ..., hi - 1. */
  function Span(lo: int, hi: int): seq<int>
    decreases hi - lo
  {
    if hi <= lo then [] else Span(lo, hi - 1) + [hi - 1]
  }

  /** `Span(lo, hi)` lists each number of [lo, hi) once, in increasing order. */
  lemma {:induction false} SpanFacts(lo: int, hi: int)
    requires lo <= hi
    ensures |Span(lo, hi)| == hi - lo
    ensures forall k :: 0 <= k < hi - lo ==> Span(lo, hi)[k] == lo + k
    decreases hi - lo
  {
    if lo < hi {
      SpanFacts(lo, hi - 1);
    }
  }

  /**
   * Whether claiming block `b` writes a progress line: every `maxThreads`-th block and
   * the stop block. JavaScript's `%` truncates while Dafny's is Euclidean, but the two
   * agree on whether the remainder is zero. (Zero slots never claim, so the division by
   * zero never happens.)
   */
  predicate ShouldReport(b: int, maxThreads: nat, stop: int)
  {
    (maxThreads != 0 && b % maxThreads == 0) || b == stop
  }

  /** The blocks of [lo, hi) that write a progress line when claimed, in increasing order. */
  function Reports(lo: int, hi: int, maxThreads: nat, stop: int): seq<int>
    decreases hi - lo
  {
    if hi <= lo then []
    else Reports(lo, hi - 1, maxThreads, stop) + (if ShouldReport(hi - 1, maxThreads, stop) then [hi - 1] else [])
  }

  /** A block has a progress line exactly when it was claimed and meets the reporting condition. */
  lemma {:induction false} ReportsExactly(lo: int, hi: int, maxThreads: nat, stop: int, x: int)
    ensures x in Reports(lo, hi, maxThreads, stop) <==> lo <= x < hi && ShouldReport(x, maxThreads, stop)
    decreases hi - lo
  {
    if lo < hi {
      ReportsExactly(lo, hi - 1, maxThreads, stop, x);
    }
  }

  // ---------------------------------------------------------------------------
  // The scanner's state machine

  class Scan {
    const start: int
    const stop: int
    const maxThreads: nat
    /** The account whose credits and debits are collected (`web3.defaultAccount`). */
    const observed: Address

    /** The next block number to claim (shared by all slots). */
    var blockNumber: int
    /** Set by the first failed block fetch; never cleared. */
    var gotError: bool
    /** Slots not yet exited. */
    var numThreads: int
    /** The result list, appended to in processing order. */
    var results: seq<Entry>
    /** Whether `resolve(results)` has been called; the first call settles the promise. */
    var resolved: bool
    /** The block numbers requested from the node, in request order. */
    var claims: seq<int>
    /** The block numbers for which a progress line was written. */
    var reported: seq<int>
    /** The `gotError` value of each summary line (and completion callback). */
    var summaries: seq<bool>
    /** Where each started slot is; slot `j` is the `j`-th started. */
    ghost var slots: seq<Slot>
    /** How many slots are in each state. */
    ghost var tally: Tally

    ghost predicate Valid()
      reads this
    {
      start <= stop &&
      start <= blockNumber <= stop + 1 &&
      claims == Span(start, blockNumber) &&
      reported == Reports(start, blockNumber, maxThreads, stop) &&
      |slots| <= maxThreads &&
      tally == TallyOf(slots) &&
      numThreads == tally.running + tally.fetching + tally.stalled &&
      (gotError <==> tally.stalled > 0) &&
      (resolved <==> tally.exited > 0) &&
      // a slot exits only on an error or once the counter has passed the stop block
      (tally.exited > 0 && !gotError ==> blockNumber == stop + 1) &&
      // the summary line is written when the last live slot exits
      summaries == (if numThreads == 0 && tally.exited > 0 then [false] else [])
    }

    /** No slot is in the middle of a step: the state between two events. */
    ghost predicate Idle()
      reads this
    {
      tally.running == 0
    }

    /** Steps still to come: blocks not yet claimed plus slots that will still move. */
    ghost function Remaining(): int
      reads this
    {
      (stop + 1 - blockNumber) + tally.running + tally.fetching
    }

    /** The closure's state right after the range check. */
    constructor (start: int, stop: int, maxThreads: nat, observed: Address)
      requires start <= stop
      ensures Valid() && Idle()
      ensures this.start == start && this.stop == stop && this.maxThreads == maxThreads && this.observed == observed
      ensures blockNumber == start && !gotError && numThreads == 0 && results == [] && !resolved
      ensures claims == [] && reported == [] && summaries == [] && slots == []
    {
      this.start := start;
      this.stop := stop;
      this.maxThreads := maxThreads;
      this.observed := observed;
      blockNumber := start;
      gotError := false;
      numThreads := 0;
      results := [];
      resolved := false;
      claims := [];
      reported := [];
      summaries := [];
      slots := [];
      tally := Tally(0, 0, 0, 0);
    }

    /**
     * The start-up loop: start slots while fewer than `maxThreads` are running and the
     * next one would still have a block. Each new slot claims its first block at once.
     */
    method Launch() returns (nt: nat)
      requires Valid() && slots == [] && blockNumber == start
      modifies this
      ensures Valid() && Idle()
      ensures nt == Min(maxThreads, stop - start + 1)
      ensures numThreads == nt && |slots| == nt
      ensures forall j :: 0 <= j < nt ==> slots[j] == Fetching(start + j)
      ensures blockNumber == start + nt && claims == Span(start, start + nt)
      ensures !gotError && !resolved && summaries == [] && results == old(results)
      ensures Remaining() == stop + 1 - start
    {
      nt := 0;
      while nt < maxThreads && start + nt <= stop
        invariant Valid() && Idle()
        invariant nt <= maxThreads && start + nt <= stop + 1
        invariant |slots| == nt && numThreads == nt && blockNumber == start + nt
        invariant forall j :: 0 <= j < nt ==> slots[j] == Fetching(start + j)
        invariant !gotError && !resolved && summaries == [] && results == old(results)
        invariant Remaining() == stop + 1 - start
      {
        ghost var before := slots;
        TallyAppend(slots, Running);
        numThreads := numThreads + 1;
        slots := slots + [Running];
        tally := tally.Plus(Running);
        assert Valid();
        NextBlock(nt);
        assert slots == before + [Fetching(start + nt)];
        nt := nt + 1;
      }
    }

    /**
     * `asyncScanNextBlock` for slot `i`: exit when the error flag is set or the counter
     * has passed the stop block; otherwise claim the counter's value, increment it,
     * possibly write a progress line and request that block.
     */
    method NextBlock(i: nat)
      requires Valid() && i < |slots| && slots[i] == Running
      modifies this
      ensures Valid()
      ensures tally.running == old(tally.running) - 1
      ensures results == old(results) && gotError == old(gotError)
      ensures old(gotError) || old(blockNumber) > stop ==>
        slots == old(slots)[i := Exited] && claims == old(claims) && blockNumber == old(blockNumber) &&
        numThreads == old(numThreads) - 1 && resolved
      ensures !old(gotError) && old(blockNumber) <= stop ==>
        slots == old(slots)[i := Fetching(old(blockNumber))] && claims == old(claims) + [old(blockNumber)] &&
        blockNumber == old(blockNumber) + 1 && numThreads == old(numThreads) &&
        resolved == old(resolved) && summaries == old(summaries)
      ensures Remaining() == old(Remaining()) - 1
    {
      if gotError || blockNumber > stop {
        ExitThread(i);
        return;
      }
      var myBlockNumber := blockNumber;
      blockNumber := blockNumber + 1;
      claims := claims + [myBlockNumber];
      if ShouldReport(myBlockNumber, maxThreads, stop) {
        reported := reported + [myBlockNumber];
      }
      TallyUpdate(slots, i, Fetching(myBlockNumber));
      tally := tally.Minus(Running).Plus(Fetching(myBlockNumber));
      slots := slots[i := Fetching(myBlockNumber)];
    }

    /**
     * `exitThread` for slot `i`: one slot fewer; when none is left, write the summary
     * and call the completion callback with the error flag. Every exit resolves the
     * promise with the (shared, still growing) result list; only the first one settles it.
     */
    method ExitThread(i: nat)
      requires Valid() && i < |slots| && slots[i] == Running
      requires gotError || blockNumber > stop
      modifies this
      ensures Valid()
      ensures tally.running == old(tally.running) - 1
      ensures slots == old(slots)[i := Exited] && numThreads == old(numThreads) - 1 && resolved
      ensures summaries == if numThreads == 0 then old(summaries) + [gotError] else old(summaries)
      ensures blockNumber == old(blockNumber) && claims == old(claims) && reported == old(reported)
      ensures gotError == old(gotError) && results == old(results)
      ensures Remaining() == old(Remaining()) - 1
    {
      TallyUpdate(slots, i, Exited);
      numThreads := numThreads - 1;
      tally := tally.Minus(Running).Plus(Exited);
      slots := slots[i := Exited];
      if numThreads == 0 {
        summaries := summaries + [gotError];
      }
      resolved := true;
    }

    /**
     * The `getBlock` callback for slot `i`, which was waiting for its block. A failed
     * fetch sets the error flag and the slot stops: it neither claims again nor exits.
     * A successful one records the block's entries and lets the slot take its next step.
     */
    method FetchCompleted(i: nat, reply: Option<Block>)
      requires Valid() && Idle() && i < |slots| && slots[i].Fetching?
      modifies this
      ensures Valid() && Idle()
      ensures Remaining() == old(Remaining()) - 1
      ensures reply.None? ==>
        gotError && slots == old(slots)[i := Stalled] && numThreads == old(numThreads) &&
        claims == old(claims) && results == old(results) && resolved == old(resolved) && summaries == old(summaries)
      ensures reply.Some? ==>
        results == old(results) + BlockMatches(reply.value, observed) && gotError == old(gotError)
      ensures reply.Some? && (old(gotError) || old(blockNumber) > stop) ==>
        slots == old(slots)[i := Exited] && claims == old(claims) && numThreads == old(numThreads) - 1 && resolved
      ensures reply.Some? && !old(gotError) && old(blockNumber) <= stop ==>
        slots == old(slots)[i := Fetching(old(blockNumber))] && claims == old(claims) + [old(blockNumber)] &&
        numThreads == old(numThreads)
    {
      match reply
      case None =>
        TallyUpdate(slots, i, Stalled);
        gotError := true;
        tally := tally.Minus(slots[i]).Plus(Stalled);
        slots := slots[i := Stalled];
      case Some(block) =>
        ScanBlock(block);
        TallyUpdate(slots, i, Running);
        tally := tally.Minus(slots[i]).Plus(Running);
        slots := slots[i := Running];
        NextBlock(i);
    }

    /** `scanBlockCallback`: classify each transaction of the block in order. */
    method ScanBlock(block: Block)
      modifies this`results
      ensures results == old(results) + BlockMatches(block, observed)
    {
      if block.transactions.Some? {
        var txns := block.transactions.value;
        for k := 0 to |txns|
          invariant results == old(results) + Matches(txns[..k], block.timestamp, observed)
        {
          MatchesStep(txns, block.timestamp, observed, k);
          ScanTransaction(txns[k], block);
        }
        assert txns[..|txns|] == txns;
      }
    }

    /** `scanTransactionCallback`: append the entry of one transaction, if any. */
    method ScanTransaction(t: Txn, block: Block)
      modifies this`results
      ensures results == old(results) + Classify(t, block.timestamp, observed)
    {
      if t.to == Some(observed) {
        results := results + [Credit(block.timestamp, t.value, t.from)];
      } else if t.from == observed {
        results := results + [Debit(block.timestamp, t.value, t.to)];
      }
    }

    /**
     * The claimed block numbers are `start`, `start + 1`, ... in claim order, so no block
     * is requested twice, none lies outside the range, and the counter is the next one.
     */
    lemma ClaimsInRange()
      requires Valid()
      ensures |claims| == blockNumber - start
      ensures forall k :: 0 <= k < |claims| ==> claims[k] == start + k && start <= claims[k] <= stop
    {
      SpanFacts(start, blockNumber);
    }

    /**
     * Once no slot is running or waiting for a block, nothing more happens, and there are
     * two ways it can end. If a fetch failed, the failed slots stay counted in
     * `numThreads` for ever, so the summary line and the completion callback never come.
     * Otherwise every slot exited, every block of the range was claimed exactly once and
     * in order, the promise was resolved, and the completion callback was called once,
     * with `false`.
     */
    lemma Quiescent()
      requires Valid() && slots != [] && tally.running == 0 && tally.fetching == 0
      ensures gotError <==> numThreads > 0
      ensures gotError ==> summaries == []
      ensures !gotError ==> resolved && numThreads == 0 && summaries == [false] && blockNumber == stop + 1
      ensures !gotError ==> |claims| == stop + 1 - start && forall k :: 0 <= k < |claims| ==> claims[k] == start + k
    {
      TallyToSize(slots, |slots|);
      SpanFacts(start, blockNumber);
    }

    /**
     * In every reachable state after a failed fetch, the failed slot is still in the
     * table and still counted in `numThreads`, so the count can never reach 0 and no
     * summary line or completion callback has been, or will be, produced.
     */
    lemma ErrorKeepsScanOpen()
      requires Valid() && gotError
      ensures exists j :: 0 <= j < |slots| && slots[j] == Stalled
      ensures numThreads > 0 && summaries == []
    {
      TallyToStalled(slots, |slots|);
    }
  }

  /**
   * `scanBlockRange`: resolve the bounds, and on a valid range set up the closure's state
   * and run the start-up loop with the engine's `MaxThreads` slots. `chainHeight` is the
   * result of the chain-height read, used only when the stop block is falsy. When the
   * setup fails no scan exists and the promise never settles.
   */
  method ScanBlockRange(startingBlock: Option<int>, stoppingBlock: Option<int>, chainHeight: Option<int>, observed: Address)
    returns (setup: RangeSetup, scan: Scan?)
    ensures setup == ResolveRange(startingBlock, stoppingBlock, chainHeight)
    ensures setup.Range? <==> scan != null
    ensures scan != null ==>
      fresh(scan) && scan.Valid() && scan.Idle() &&
      scan.start == setup.start && scan.stop == setup.stop && scan.observed == observed &&
      scan.numThreads == Min(MaxThreads, setup.stop - setup.start + 1) &&
      scan.claims == Span(setup.start, setup.start + scan.numThreads) &&
      !scan.gotError && !scan.resolved && scan.results == [] && scan.summaries == []
    ensures scan != null ==>
      scan.maxThreads == MaxThreads && scan.blockNumber == setup.start + scan.numThreads &&
      |scan.slots| == scan.numThreads &&
      forall j :: 0 <= j < scan.numThreads ==> scan.slots[j] == Fetching(setup.start + j)
  {
    setup := ResolveRange(startingBlock, stoppingBlock, chainHeight);
    scan := null;
    if setup.Range? {
      scan := new Scan(setup.start, setup.stop, MaxThreads, observed);
      var nt := scan.Launch();
    }
  }

  /**
   * A failed fetch does not keep the promise from being resolved: a slot that exits
   * after the error flag is set resolves it with the entries gathered so far, while the
   * failed slot keeps the completion callback from ever being called. Here
   * `scanBlockRange(1, 6)` starts six slots over blocks 1 to 6; the fetch of block 1
   * fails, and the slot that fetched block 2 then exits.
   */
  method ErrorResolvesPartialResults() returns (scan: Scan)
    ensures scan.Valid() && scan.gotError && scan.resolved
    ensures scan.numThreads == 5 && scan.summaries == []
    ensures scan.start == 1 && scan.stop == 6
  {
    var setup, started := ScanBlockRange(Some(1), Some(6), None, "observed");
    assert setup == Range(1, 6);
    scan := started;
    scan.FetchCompleted(0, None);
    scan.FetchCompleted(1, Some(Block(0, None)));
  }
}
