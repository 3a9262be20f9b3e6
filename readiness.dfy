/**
 * The readiness prober behind `is_file_ready`: the file's size is read once per
 * poll until two consecutive reads agree (ready), a read fails (not ready: the
 * file vanished or cannot be read), or the timeout has passed (not ready).
 *
 * The clock and the file system are observations given as inputs: a `Probe`
 * holds the clock reading taken at start-up, the reading taken at the k-th
 * test of the loop guard, and the outcome of the k-th size read.
 */
module Readiness {
  import opened Wrappers

  /** The default `timeout` of is_file_ready, in clock ticks (seconds). */
  const READY_TIMEOUT := 30
  /** The default `check_interval` slept between two polls. */
  const POLL_INTERVAL := 1

  datatype Probe = Probe(start: int, clock: nat -> int, size: nat -> Option<nat>)

  /** A poll that goes on sleeps POLL_INTERVAL first, so the clock has advanced at least that much at the next guard test. */
  ghost predicate Advancing(p: Probe)
  {
    forall k: nat :: Sleeps(p, k)
  }

  /** Between the k-th and the (k+1)-th guard test the clock advanced by at least POLL_INTERVAL. */
  predicate Sleeps(p: Probe, k: nat)
  {
    p.clock(k) + POLL_INTERVAL <= p.clock(k + 1)
  }

  /** The k-th guard test still sees the timeout in the future. */
  predicate InTime(p: Probe, k: nat)
  {
    p.clock(k) - p.start < READY_TIMEOUT
  }

  /** The k-th read succeeded and returned the same size as the read before it. */
  predicate Repeats(p: Probe, k: nat)
  {
    k >= 1 && p.size(k).Some? && p.size(k) == p.size(k - 1)
  }

  /** `last` is what the loop remembers before its k-th read: -1 at first, then the previous size. */
  predicate Remembers(p: Probe, k: nat, last: int)
  {
    if k == 0 then last == -1 else p.size(k - 1).Some? && p.size(k - 1).value == last
  }

  /**
   * The outcome `(ready, reads)` of the polling loop entered at its k-th guard
   * test with `last` as the remembered size; `reads` is the number of size
   * reads performed in all.
   */
  function PollFrom(p: Probe, k: nat, last: int): (r: (bool, nat))
    requires Advancing(p) && Remembers(p, k, last)
    decreases READY_TIMEOUT - (p.clock(k) - p.start)
  {
    if !InTime(p, k) then (false, k)
    else
      match p.size(k)
      case None => (false, k + 1)
      case Some(s) =>
        if s == last then (true, k + 1)
        else
          assert Sleeps(p, k);
          PollFrom(p, k + 1, s)
  }

  /** Every guard test the loop passed, and so every read it made, was inside the timeout. */
  lemma {:induction false} PollReadsInTime(p: Probe, k: nat, last: int)
    requires Advancing(p) && Remembers(p, k, last)
    ensures var n := PollFrom(p, k, last).1;
            k <= n && forall j :: k <= j < n ==> InTime(p, j)
    decreases READY_TIMEOUT - (p.clock(k) - p.start)
  {
    if InTime(p, k) && p.size(k).Some? && p.size(k).value != last {
      assert Sleeps(p, k);
      PollReadsInTime(p, k + 1, p.size(k).value);
    }
  }

  /** Every read but the last one succeeded and differed from the read before it. */
  lemma {:induction false} PollEarlierReadsMoved(p: Probe, k: nat, last: int)
    requires Advancing(p) && Remembers(p, k, last)
    ensures var n := PollFrom(p, k, last).1;
            forall j :: k <= j < n - 1 ==> p.size(j).Some? && !Repeats(p, j)
    decreases READY_TIMEOUT - (p.clock(k) - p.start)
  {
    if InTime(p, k) && p.size(k).Some? && p.size(k).value != last {
      assert Sleeps(p, k);
      assert !Repeats(p, k);
      PollEarlierReadsMoved(p, k + 1, p.size(k).value);
    }
  }

  /**
   * The loop ends ready exactly when its last read repeated the read before
   * it; otherwise the last read failed or the timeout had passed.
   */
  lemma {:induction false} PollOutcome(p: Probe, k: nat, last: int)
    requires Advancing(p) && Remembers(p, k, last)
    ensures var (ready, n) := PollFrom(p, k, last);
            && (ready <==> n > k && Repeats(p, n - 1))
            && (!ready ==> (n > k && p.size(n - 1).None?) || !InTime(p, n))
    decreases READY_TIMEOUT - (p.clock(k) - p.start)
  {
    if InTime(p, k) && p.size(k).Some? && p.size(k).value != last {
      assert Sleeps(p, k);
      PollOutcome(p, k + 1, p.size(k).value);
    }
  }

  /** The outcome of is_file_ready from its first guard test. */
  function Poll(p: Probe): (bool, nat)
    requires Advancing(p)
  {
    PollFrom(p, 0, -1)
  }

  /** Ready means at least two reads, the last two equal; nothing before them failed or repeated. */
  lemma ReadyNeedsTwoEqualReads(p: Probe)
    requires Advancing(p)
    ensures var (ready, n) := Poll(p);
            ready ==> n >= 2 && p.size(n - 1).Some? && p.size(n - 1) == p.size(n - 2) &&
                      forall j :: 0 <= j < n - 1 ==> p.size(j).Some? && !Repeats(p, j)
  {
    var (ready, n) := PollFrom(p, 0, -1);
    PollEarlierReadsMoved(p, 0, -1);
    PollOutcome(p, 0, -1);
    if ready {
      assert Repeats(p, n - 1);
      assert forall j :: 0 <= j < n - 1 ==> p.size(j).Some? && !Repeats(p, j);
    }
  }

  /** Not ready means the last read failed or the timeout passed before a repeat was seen. */
  lemma NotReadyMeansFailureOrTimeout(p: Probe)
    requires Advancing(p)
    ensures var (ready, n) := Poll(p);
            !ready ==> (n >= 1 && p.size(n - 1).None?) || p.clock(n) - p.start >= READY_TIMEOUT
  {
    PollOutcome(p, 0, -1);
  }

  /** A size that never repeats while the timeout has not passed gives not ready. */
  lemma NeverRepeatsNotReady(p: Probe)
    requires Advancing(p)
    ensures (forall j: nat :: InTime(p, j) ==> !Repeats(p, j)) ==> !Poll(p).0
  {
    var (ready, n) := PollFrom(p, 0, -1);
    PollReadsInTime(p, 0, -1);
    PollOutcome(p, 0, -1);
    if ready {
      assert InTime(p, n - 1) && Repeats(p, n - 1);
    }
  }

  /**
   * A file whose size changes on each of its first k reads and then repeats,
   * with that (k+1)-th read still inside the timeout, is ready after exactly
   * k + 1 reads.
   */
  lemma {:induction false} StableAfterReads(p: Probe, k: nat, i: nat, last: int)
    requires Advancing(p) && Remembers(p, i, last) && i <= k
    requires k >= 1 && Repeats(p, k) && InTime(p, k)
    requires forall j :: i <= j < k ==> p.size(j).Some? && !Repeats(p, j)
    ensures PollFrom(p, i, last) == (true, k + 1)
    decreases k - i
  {
    if i < k {
      ClockMonotone(p, i, k);
      var s := p.size(i).value;
      assert p.size(i).Some? && !Repeats(p, i);
      assert s != last && InTime(p, i);
      assert PollFrom(p, i, last) == PollFrom(p, i + 1, s);
      StableAfterReads(p, k, i + 1, s);
    } else {
      assert p.size(k).value == last;
    }
  }

  /** The readings of an advancing clock never go down. */
  lemma {:induction false} ClockMonotone(p: Probe, i: nat, k: nat)
    requires Advancing(p) && i <= k
    ensures p.clock(i) <= p.clock(k)
    decreases k - i
  {
    if i < k {
      assert Sleeps(p, i);
      ClockMonotone(p, i + 1, k);
    }
  }

  /** A read error before any repeat makes the file not ready, whatever later reads would say. */
  lemma {:induction false} VanishedIsNotReady(p: Probe, k: nat, i: nat, last: int)
    requires Advancing(p) && Remembers(p, i, last) && i <= k
    requires p.size(k).None?
    requires forall j :: i <= j < k ==> p.size(j).Some? && !Repeats(p, j)
    ensures !PollFrom(p, i, last).0
    decreases k - i
  {
    if i < k && InTime(p, i) {
      var s := p.size(i).value;
      assert p.size(i).Some? && !Repeats(p, i);
      assert s != last;
      assert PollFrom(p, i, last) == PollFrom(p, i + 1, s);
      VanishedIsNotReady(p, k, i + 1, s);
    }
  }
}
