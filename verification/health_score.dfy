/**
 The scoring half of the probe's self-health check: how one health host's
 ping outcome becomes a code, how the codes received on one tick are folded
 into a score, and how that score is judged against the number of hosts.
 */
module HealthScore {

  /** What running one health ping produced. `RunError` is a ping that
      returned an error (it could not even be carried out); `Completed`
      carries the result's embedded error message, empty on success. */
  datatype Outcome = RunError | Completed(errorMsg: string)

  /** The health judgement. The source encodes it as 0 (healthy) and 1 (unhealthy). */
  datatype HealthState = Healthy | Unhealthy

  /** A ping that ran but reported an error message. */
  predicate IsSoftFailure(o: Outcome) {
    o.Completed? && o.errorMsg != ""
  }

  /** The code a host's goroutine sends on the results channel. */
  function Code(o: Outcome): (c: nat)
    ensures c == 0 || c == 1 || c == 3
    ensures c == 3 <==> o.RunError?
    ensures c == 1 <==> IsSoftFailure(o)
    ensures c == 0 <==> o == Completed("")
  {
    match o
    case RunError => 3
    case Completed(msg) => if msg != "" then 1 else 0
  }

  /** Folds the codes of `arrived`, in the order they were received, into a
      score for `n` health hosts: a hard error overwrites the running score
      with `n`, every other code is added to it. */
  function Score(arrived: seq<Outcome>, n: nat): (score: nat)
    ensures RunError in arrived ==> score >= n
    ensures RunError !in arrived ==> score <= |arrived|
    decreases |arrived|
  {
    if |arrived| == 0 then 0
    else
      var prior := Score(arrived[..|arrived| - 1], n);
      var c := Code(arrived[|arrived| - 1]);
      assert arrived == arrived[..|arrived| - 1] + [arrived[|arrived| - 1]];
      if c == 3 then n else prior + c
  }

  /** Reference count of the soft failures among `os`, independent of the fold. */
  function SoftFailures(os: seq<Outcome>): (k: nat)
    ensures k <= |os|
  {
    if |os| == 0 then 0
    else (if IsSoftFailure(os[0]) then 1 else 0) + SoftFailures(os[1..])
  }

  /** Judges a score for `n` hosts: unhealthy when the score exceeds half the
      host count, halved with integer division. */
  function Classify(score: int, n: nat): (h: HealthState)
    ensures h == Unhealthy <==> 2 * score > n
    ensures n == 0 && score <= 0 ==> h == Healthy
  {
    if score > n / 2 then Unhealthy else Healthy
  }

  /** The state one tick derives from the outcomes it received from `n`
      hosts: any hard error is fatal, and without one the tick cannot be
      unhealthy unless the outcomes could form a strict majority. */
  function Derive(arrived: seq<Outcome>, n: nat): (d: HealthState)
    ensures RunError in arrived && n >= 1 ==> d == Unhealthy
    ensures RunError !in arrived && 2 * |arrived| <= n ==> d == Healthy
  {
    Classify(Score(arrived, n), n)
  }

  lemma {:induction false} SoftFailuresAppend(a: seq<Outcome>, b: seq<Outcome>)
    ensures SoftFailures(a + b) == SoftFailures(a) + SoftFailures(b)
    decreases |a|
  {
    if |a| == 0 {
      assert a + b == b;
    } else {
      assert (a + b)[1..] == a[1..] + b;
      SoftFailuresAppend(a[1..], b);
    }
  }

  /** The soft-failure count depends only on which outcomes arrived, not on their order. */
  lemma {:induction false} SoftFailuresPermutation(a: seq<Outcome>, b: seq<Outcome>)
    requires multiset(a) == multiset(b)
    ensures SoftFailures(a) == SoftFailures(b)
    decreases |a|
  {
    if |a| == 0 {
      assert |b| == |multiset(b)| == 0;
    } else {
      var x := a[0];
      assert x in multiset(b);
      var j :| 0 <= j < |b| && b[j] == x;
      var rest := b[..j] + b[j + 1..];
      assert b == b[..j] + ([x] + b[j + 1..]);
      assert a == [x] + a[1..];
      assert multiset(rest) == multiset(b) - multiset{x};
      assert multiset(a[1..]) == multiset(a) - multiset{x};
      SoftFailuresPermutation(a[1..], rest);
      SoftFailuresAppend(b[..j], [x] + b[j + 1..]);
      SoftFailuresAppend([x], b[j + 1..]);
      SoftFailuresAppend(b[..j], b[j + 1..]);
    }
  }

  /** Without hard errors the score is exactly the number of soft failures,
      whatever the arrival order. */
  lemma {:induction false} ScoreWithoutHardErrors(arrived: seq<Outcome>, n: nat)
    requires RunError !in arrived
    ensures Score(arrived, n) == SoftFailures(arrived)
    decreases |arrived|
  {
    if |arrived| > 0 {
      var init := arrived[..|arrived| - 1];
      var last := arrived[|arrived| - 1];
      assert arrived == init + [last];
      ScoreWithoutHardErrors(init, n);
      SoftFailuresAppend(init, [last]);
      assert SoftFailures([last]) == Code(last);
    }
  }

  /** With a hard error, the score is `n` plus the soft failures received
      after the last hard error. */
  lemma {:induction false} ScoreAfterLastHardError(before: seq<Outcome>, after: seq<Outcome>, n: nat)
    requires RunError !in after
    ensures Score(before + [RunError] + after, n) == n + SoftFailures(after)
    decreases |after|
  {
    var arrived := before + [RunError] + after;
    if |after| == 0 {
      assert arrived[..|arrived| - 1] == before;
    } else {
      var init := after[..|after| - 1];
      var last := after[|after| - 1];
      assert after == init + [last];
      assert arrived[..|arrived| - 1] == before + [RunError] + init;
      assert arrived[|arrived| - 1] == last;
      ScoreAfterLastHardError(before, init, n);
      SoftFailuresAppend(init, [last]);
      assert SoftFailures([last]) == Code(last);
    }
  }

  /** The derived state, stated without the fold: unhealthy exactly when some
      ping hit a hard error or strictly more than half the hosts soft-failed. */
  lemma DeriveCharacterised(arrived: seq<Outcome>)
    ensures Derive(arrived, |arrived|) == Unhealthy
            <==> RunError in arrived || 2 * SoftFailures(arrived) > |arrived|
  {
    if RunError !in arrived {
      ScoreWithoutHardErrors(arrived, |arrived|);
    }
  }

  /** Receiving the same outcomes in another order derives the same state. */
  lemma DeriveOrderIndependent(a: seq<Outcome>, b: seq<Outcome>)
    requires multiset(a) == multiset(b)
    ensures Derive(a, |a|) == Derive(b, |b|)
  {
    assert |a| == |multiset(a)| == |multiset(b)| == |b|;
    assert RunError in a <==> RunError in b by {
      assert RunError in a <==> RunError in multiset(a);
      assert RunError in b <==> RunError in multiset(b);
    }
    SoftFailuresPermutation(a, b);
    DeriveCharacterised(a);
    DeriveCharacterised(b);
  }

  /** One hard error among at least one host makes the tick unhealthy,
      whatever the other hosts reported and in whatever order. */
  lemma HardErrorForcesUnhealthy(arrived: seq<Outcome>, n: nat)
    requires RunError in arrived
    requires n >= 1
    ensures Derive(arrived, n) == Unhealthy
  {
  }

  /** With four hosts and no hard error, two soft failures stay healthy and
      three are unhealthy; with no hosts the tick is always healthy. */
  lemma MajorityBoundary(arrived: seq<Outcome>)
    requires RunError !in arrived
    ensures |arrived| == 4 ==>
              (Derive(arrived, 4) == Unhealthy <==> SoftFailures(arrived) >= 3)
    ensures |arrived| == 0 ==> Derive(arrived, 0) == Healthy
  {
    ScoreWithoutHardErrors(arrived, |arrived|);
  }
}
