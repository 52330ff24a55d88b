/** The playlist orchestrator of `download_playlist`: a first pass that
    attempts every item once, a tally into a success count and an ordered
    failed list, then up to `retry_attempts` sequential retry rounds over the
    failed list, stopping early once it is empty.

    Whether one download succeeds is given by an oracle `ok(i, k)`: the
    outcome of the download of the item at 1-based position `i` in round `k`,
    where round 0 is the first (concurrent) pass and round `k >= 1` is retry
    round `k`. */
module Batch {
  import opened Seqs

  type Oracle = (nat, nat) -> bool

  /** What one download task hands back: its position and whether it succeeded. */
  datatype Outcome = Outcome(index: nat, success: bool)

  /** A success count and the positions that failed, in list order. */
  datatype Tally = Tally(succeeded: nat, failed: seq<nat>)

  /** The reconciled summary: `retried[k - 1]` is the failed list retry round `k` worked through. */
  datatype BatchResult = BatchResult(total: nat, succeeded: nat, failed: seq<nat>, retried: seq<seq<nat>>)

  /** `x` failed in every round from `lo` up to, not including, `hi`. */
  predicate FailsThrough(ok: Oracle, x: nat, lo: nat, hi: nat)
    decreases hi - lo
  {
    lo >= hi || (!ok(x, lo) && FailsThrough(ok, x, lo + 1, hi))
  }

  lemma {:induction false} FailsThroughMeaning(ok: Oracle, x: nat, lo: nat, hi: nat)
    ensures FailsThrough(ok, x, lo, hi) <==> forall k :: lo <= k < hi ==> !ok(x, k)
    decreases hi - lo
  {
    if lo < hi {
      FailsThroughMeaning(ok, x, lo + 1, hi);
    }
  }

  /** Failing every round of `lo..hi` is failing every round of `lo..mid` and of `mid..hi`. */
  lemma {:induction false} FailsThroughSplit(ok: Oracle, x: nat, lo: nat, mid: nat, hi: nat)
    requires lo <= mid <= hi
    ensures FailsThrough(ok, x, lo, hi) <==> FailsThrough(ok, x, lo, mid) && FailsThrough(ok, x, mid, hi)
    decreases mid - lo
  {
    if lo < mid {
      FailsThroughSplit(ok, x, lo + 1, mid, hi);
    }
  }

  /** Reference definition: the items of `xs`, in order, that failed every round from `lo` to `hi`. */
  function StillFailing(xs: seq<nat>, ok: Oracle, lo: nat, hi: nat): seq<nat>
  {
    if |xs| == 0 then []
    else (if FailsThrough(ok, xs[0], lo, hi) then [xs[0]] else []) + StillFailing(xs[1..], ok, lo, hi)
  }

  lemma {:induction false} StillFailingMembers(xs: seq<nat>, ok: Oracle, lo: nat, hi: nat)
    ensures forall x :: x in StillFailing(xs, ok, lo, hi) <==> x in xs && FailsThrough(ok, x, lo, hi)
    decreases |xs|
  {
    if |xs| > 0 {
      StillFailingMembers(xs[1..], ok, lo, hi);
      assert xs == [xs[0]] + xs[1..];
    }
  }

  lemma {:induction false} StillFailingKeepsOrder(xs: seq<nat>, ok: Oracle, lo: nat, hi: nat)
    ensures IsSubsequence(StillFailing(xs, ok, lo, hi), xs)
    decreases |xs|
  {
    if |xs| > 0 {
      StillFailingKeepsOrder(xs[1..], ok, lo, hi);
      var rest := StillFailing(xs[1..], ok, lo, hi);
      if FailsThrough(ok, xs[0], lo, hi) {
        assert ([xs[0]] + rest)[1..] == rest;
      } else {
        assert [] + rest == rest;
      }
    }
  }

  /** Filtering in two stages, first by rounds `lo..mid` and then by rounds
      `mid..hi`, is filtering by rounds `lo..hi`. */
  lemma {:induction false} StillFailingCompose(xs: seq<nat>, ok: Oracle, lo: nat, mid: nat, hi: nat)
    requires lo <= mid <= hi
    ensures StillFailing(StillFailing(xs, ok, lo, mid), ok, mid, hi) == StillFailing(xs, ok, lo, hi)
    decreases |xs|
  {
    if |xs| > 0 {
      StillFailingCompose(xs[1..], ok, lo, mid, hi);
      var x := xs[0];
      var inner := StillFailing(xs, ok, lo, mid);
      var innerRest := StillFailing(xs[1..], ok, lo, mid);
      FailsThroughSplit(ok, x, lo, mid, hi);
      if FailsThrough(ok, x, lo, mid) {
        assert inner == [x] + innerRest;
        assert inner[1..] == innerRest;
      } else {
        assert inner == innerRest;
      }
    }
  }

  /** How many retry rounds may run: `range(1, retry_attempts + 1)` when retrying is on. */
  function RetryBudget(retry: bool, attempts: int): (b: nat)
    ensures b == if retry then |Range(1, attempts + 1)| else 0
  {
    RangeLength(1, attempts + 1);
    if retry && attempts > 0 then attempts else 0
  }

  /** Python's `list(range(lo, hi))`. */
  function Range(lo: int, hi: int): seq<int>
    decreases hi - lo
  {
    if lo >= hi then [] else [lo] + Range(lo + 1, hi)
  }

  lemma {:induction false} RangeLength(lo: int, hi: int)
    ensures |Range(lo, hi)| == if lo < hi then hi - lo else 0
    decreases hi - lo
  {
    if lo < hi {
      RangeLength(lo + 1, hi);
    }
  }

  /** `enumerate(playlist.videos, 1)`: the positions 1 to `n`. */
  function Positions(n: nat): (ps: seq<nat>)
    ensures |ps| == n && StrictlyIncreasing(ps)
    ensures n > 0 ==> ps[0] == 1 && ps[n - 1] == n
  {
    seq(n, j => j + 1)
  }

  lemma PositionsMembers(n: nat)
    ensures forall x :: x in Positions(n) <==> 1 <= x <= n
  {
    forall x | 1 <= x <= n
      ensures x in Positions(n)
    {
      assert Positions(n)[x - 1] == x;
    }
  }

  /** Each item of `items`, in list order, attempted once in `round`. */
  function Attempt(items: seq<nat>, round: nat, ok: Oracle): (rs: seq<Outcome>)
    ensures |rs| == |items| && forall j :: 0 <= j < |rs| ==> rs[j].index == items[j]
    ensures forall o :: o in rs ==> o.success == ok(o.index, round)
  {
    seq(|items|, j requires 0 <= j < |items| => Outcome(items[j], ok(items[j], round)))
  }

  /** Walk the outcomes in order: count each success, append each failure. */
  function TallyOutcomes(rs: seq<Outcome>): (t: Tally)
    ensures t.succeeded + |t.failed| == |rs|
  {
    if |rs| == 0 then Tally(0, [])
    else
      var rest := TallyOutcomes(rs[1..]);
      if rs[0].success then
        Tally(rest.succeeded + 1, rest.failed)
      else
        Tally(rest.succeeded, [rs[0].index] + rest.failed)
  }

  /** One pass: attempt every item of `items` in `round`, then tally. The
      first pass is `executor.map`, whose results come back in input order;
      a retry round attempts and tallies item by item, to the same effect
      since an item's outcome depends only on the item and the round. */
  function Pass(items: seq<nat>, round: nat, ok: Oracle): (t: Tally)
    ensures t.succeeded + |t.failed| == |items|
    ensures t.failed == StillFailing(items, ok, round, round + 1)
  {
    PassFailures(items, round, ok);
    TallyOutcomes(Attempt(items, round, ok))
  }

  /** The tally of one pass keeps exactly the items that failed it, in order. */
  lemma {:induction false} PassFailures(items: seq<nat>, round: nat, ok: Oracle)
    ensures TallyOutcomes(Attempt(items, round, ok)).failed == StillFailing(items, ok, round, round + 1)
    decreases |items|
  {
    if |items| > 0 {
      assert Attempt(items, round, ok)[1..] == Attempt(items[1..], round, ok);
      PassFailures(items[1..], round, ok);
      assert FailsThrough(ok, items[0], round + 1, round + 1);
    }
  }

  /** The failed list after rounds `0..rounds` are over: positions in `1..n` that
      failed each of them, in increasing order. */
  lemma FailedAfter(n: nat, ok: Oracle, rounds: nat)
    ensures forall x :: x in StillFailing(Positions(n), ok, 0, rounds) <==> 1 <= x <= n && FailsThrough(ok, x, 0, rounds)
    ensures StrictlyIncreasing(StillFailing(Positions(n), ok, 0, rounds))
  {
    PositionsMembers(n);
    StillFailingMembers(Positions(n), ok, 0, rounds);
    StillFailingKeepsOrder(Positions(n), ok, 0, rounds);
    SubsequenceKeepsIncreasing(StillFailing(Positions(n), ok, 0, rounds), Positions(n));
  }

  /** Retry round `j + 1` worked through `retried[j]`: the positions, in
      order, that had failed every round before it, never an empty list. */
  ghost predicate RoundsLogged(n: nat, ok: Oracle, retried: seq<seq<nat>>)
  {
    forall j :: 0 <= j < |retried| ==>
      retried[j] != [] && retried[j] == StillFailing(Positions(n), ok, 0, j + 1)
  }

  lemma RoundsLoggedAppend(n: nat, ok: Oracle, retried: seq<seq<nat>>, failed: seq<nat>)
    requires RoundsLogged(n, ok, retried)
    requires failed != [] && failed == StillFailing(Positions(n), ok, 0, |retried| + 1)
    ensures RoundsLogged(n, ok, retried + [failed])
  {
  }

  /** Only failed items are re-tried: retry round `j + 1` attempts exactly the
      positions that failed every earlier round. */
  lemma RetriedMembers(n: nat, ok: Oracle, retried: seq<seq<nat>>, j: nat)
    requires RoundsLogged(n, ok, retried) && j < |retried|
    ensures forall x :: x in retried[j] <==> 1 <= x <= n && FailsThrough(ok, x, 0, j + 1)
    ensures StrictlyIncreasing(retried[j])
  {
    FailedAfter(n, ok, j + 1);
  }

  /** Every attempt made for `x` failed: the first pass, and each retry round whose list held it. */
  ghost predicate EveryAttemptFailed(ok: Oracle, x: nat, retried: seq<seq<nat>>)
  {
    !ok(x, 0) && forall j :: 0 <= j < |retried| && x in retried[j] ==> !ok(x, j + 1)
  }

  /** How many times `x` was downloaded: once in the first pass, once per retry round that held it. */
  function TimesAttempted(x: nat, retried: seq<seq<nat>>): (t: nat)
    ensures 1 <= t <= |retried| + 1
  {
    if |retried| == 0 then 1
    else TimesAttempted(x, retried[..|retried| - 1]) + (if x in retried[|retried| - 1] then 1 else 0)
  }

  /** The downloads of `x` in the retry rounds: one per occurrence in each round's list. */
  function RetryOccurrences(x: nat, retried: seq<seq<nat>>): nat
  {
    if |retried| == 0 then 0
    else RetryOccurrences(x, retried[..|retried| - 1]) + multiset(retried[|retried| - 1])[x]
  }

  /** `TimesAttempted` counts real downloads: the first pass, plus every time a
      retry round's list holds `x`, which is at most once per round. */
  lemma {:induction false} RetryAttemptsCounted(n: nat, ok: Oracle, retried: seq<seq<nat>>, x: nat)
    requires RoundsLogged(n, ok, retried)
    ensures TimesAttempted(x, retried) == 1 + RetryOccurrences(x, retried)
    decreases |retried|
  {
    if |retried| > 0 {
      var k := |retried| - 1;
      assert RoundsLogged(n, ok, retried[..k]) by {
        forall j | 0 <= j < k
          ensures retried[..k][j] != [] && retried[..k][j] == StillFailing(Positions(n), ok, 0, j + 1)
        {
          assert retried[..k][j] == retried[j];
        }
      }
      RetryAttemptsCounted(n, ok, retried[..k], x);
      RetriedMembers(n, ok, retried, k);
      IncreasingCountsOnce(retried[k], x);
    }
  }

  /** An item that failed every attempt made for it failed every round up to `k`. */
  lemma {:induction false} FailsEveryRoundUpTo(n: nat, ok: Oracle, retried: seq<seq<nat>>, x: nat, k: nat)
    requires RoundsLogged(n, ok, retried) && 1 <= x <= n
    requires EveryAttemptFailed(ok, x, retried) && k <= |retried|
    ensures FailsThrough(ok, x, 0, k + 1)
    decreases k
  {
    if k == 0 {
      assert FailsThrough(ok, x, 1, 1);
    } else {
      FailsEveryRoundUpTo(n, ok, retried, x, k - 1);
      RetriedMembers(n, ok, retried, k - 1);
      assert x in retried[k - 1];
      assert FailsThrough(ok, x, k, k + 1) by {
        assert FailsThrough(ok, x, k + 1, k + 1);
      }
      FailsThroughSplit(ok, x, 0, k, k + 1);
    }
  }

  /** An item ends in the final failed list exactly when every attempt made for it failed. */
  lemma FinalFailedIffEveryAttemptFailed(n: nat, ok: Oracle, retried: seq<seq<nat>>, x: nat)
    requires RoundsLogged(n, ok, retried) && 1 <= x <= n
    ensures x in StillFailing(Positions(n), ok, 0, |retried| + 1) <==> EveryAttemptFailed(ok, x, retried)
  {
    FailedAfter(n, ok, |retried| + 1);
    FailsThroughMeaning(ok, x, 0, |retried| + 1);
    if EveryAttemptFailed(ok, x, retried) {
      FailsEveryRoundUpTo(n, ok, retried, x, |retried|);
    }
  }

  /** No retry round runs once a round has left nothing failed. */
  lemma EmptyRoundEndsRetries(n: nat, ok: Oracle, retried: seq<seq<nat>>, k: nat)
    requires RoundsLogged(n, ok, retried)
    requires StillFailing(Positions(n), ok, 0, k + 1) == []
    ensures |retried| <= k
  {
    if |retried| > k {
      RoundNonEmpty(n, ok, retried, k);
      assert false;
    }
  }

  lemma RoundNonEmpty(n: nat, ok: Oracle, retried: seq<seq<nat>>, j: nat)
    requires RoundsLogged(n, ok, retried) && j < |retried|
    ensures StillFailing(Positions(n), ok, 0, j + 1) != []
  {
    assert retried[j] != [];
  }

  /** The retry rounds of `download_playlist`, entered with a non-empty failed list
      left by the first pass: round `attempt` re-tries the current failed list
      once, and the loop breaks as soon as a round leaves nothing failed. */
  method RetryFailed(n: nat, attempts: int, ok: Oracle, first: Tally) returns (final: Tally, retried: seq<seq<nat>>)
    requires first.succeeded + |first.failed| == n
    requires first.failed != [] && first.failed == StillFailing(Positions(n), ok, 0, 1)
    ensures final.succeeded + |final.failed| == n
    ensures |retried| <= RetryBudget(true, attempts)
    ensures final.failed == [] || |retried| == RetryBudget(true, attempts)
    ensures final.failed == StillFailing(Positions(n), ok, 0, |retried| + 1)
    ensures RoundsLogged(n, ok, retried)
  {
    var succeeded: nat := first.succeeded;
    var failed: seq<nat> := first.failed;
    retried := [];
    var attempt := 1;
    while attempt <= attempts
      invariant 1 <= attempt && |retried| == attempt - 1
      invariant attempt == 1 || attempt <= attempts + 1
      invariant succeeded + |failed| == n
      invariant failed != [] && failed == StillFailing(Positions(n), ok, 0, attempt)
      invariant RoundsLogged(n, ok, retried)
      decreases attempts - attempt
    {
      var pass := Pass(failed, attempt, ok);
      StillFailingCompose(Positions(n), ok, 0, attempt, attempt + 1);
      RoundsLoggedAppend(n, ok, retried, failed);
      retried := retried + [failed];
      succeeded := succeeded + pass.succeeded;
      failed := pass.failed;
      if failed == [] {
        final := Tally(succeeded, failed);
        return;
      }
      attempt := attempt + 1;
    }
    final := Tally(succeeded, failed);
  }

  /** `download_playlist` without its I/O: the first pass over positions
      `1..n`, the tally, then the retry rounds when retrying is on and
      something failed. */
  method DownloadPlaylist(n: nat, retry: bool, attempts: int, ok: Oracle) returns (r: BatchResult)
    ensures r.total == n && r.succeeded + |r.failed| == r.total
    ensures |r.retried| <= RetryBudget(retry, attempts)
    ensures r.failed == [] || |r.retried| == RetryBudget(retry, attempts)
    ensures r.failed == StillFailing(Positions(n), ok, 0, |r.retried| + 1)
    ensures forall x :: x in r.failed <==> 1 <= x <= n && FailsThrough(ok, x, 0, |r.retried| + 1)
    ensures StrictlyIncreasing(r.failed)
    ensures RoundsLogged(n, ok, r.retried)
  {
    var first := Pass(Positions(n), 0, ok);
    if retry && first.failed != [] {
      var final, retried := RetryFailed(n, attempts, ok, first);
      r := BatchResult(n, final.succeeded, final.failed, retried);
    } else {
      r := BatchResult(n, first.succeeded, first.failed, []);
    }
    FailedAfter(n, ok, |r.retried| + 1);
  }

  /** Items 2 and 4 fail the first pass; every other attempt succeeds. */
  function FlakyOracle(): Oracle
  {
    (i: nat, k: nat) => !(k == 0 && (i == 2 || i == 4))
  }

  lemma FlakyRounds()
    ensures StillFailing(Positions(5), FlakyOracle(), 0, 1) == [2, 4]
    ensures StillFailing(Positions(5), FlakyOracle(), 0, 2) == []
  {
    var ok := FlakyOracle();
    var p := Positions(5);
    assert p == [1, 2, 3, 4, 5];
    assert p[1..] == [2, 3, 4, 5] && p[2..] == [3, 4, 5] && p[3..] == [4, 5] && p[4..] == [5] && p[5..] == [];
    assert FailsThrough(ok, 2, 1, 1) && FailsThrough(ok, 4, 1, 1);
    assert !FailsThrough(ok, 2, 1, 2) && !FailsThrough(ok, 4, 1, 2);
  }

  /** Five items with retrying on and two attempts allowed: the two first-pass
      failures are re-tried once, both come through, and the second round never runs. */
  method RecoveredOnRetry() returns (r: BatchResult)
    ensures r.total == 5 && r.succeeded == 5 && r.failed == [] && r.retried == [[2, 4]]
  {
    r := DownloadPlaylist(5, true, 2, FlakyOracle());
    FlakyRounds();
    assert |r.retried| != 0;
    EmptyRoundEndsRetries(5, FlakyOracle(), r.retried, 1);
    assert r.retried[0] == [2, 4];
  }

  /** The same items with retrying off: the first-pass failures are final. */
  method FailuresKeptWithoutRetry() returns (r: BatchResult)
    ensures r.succeeded == 3 && r.failed == [2, 4] && r.retried == []
  {
    r := DownloadPlaylist(5, false, 2, FlakyOracle());
    FlakyRounds();
  }
}
