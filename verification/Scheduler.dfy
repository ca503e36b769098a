/** The discovery scheduler: every tick asks for a run under a key that names the frequency and the
    period the tick falls in. */
module Scheduler {
  import opened Text
  import opened Collections
  import DiscoveryRuns

  const DAY := 86400

  /** Seconds between runs; "2-3x" a week is once in three days. */
  function Interval(frequency: string): nat {
    match frequency
    case "harian" => DAY
    case "2-3x" => 3 * DAY
    case "mingguan" => 7 * DAY
    case _ => DAY
  }

  function Bucket(frequency: string, now: nat): nat {
    now / Interval(frequency)
  }

  function TickKey(frequency: string, now: nat): string {
    "sched-" + frequency + "-" + Itoa(Bucket(frequency, now))
  }

  datatype Profile = Profile(crawlEnabled: bool, crawlFrequency: string)

  /** One tick: the key it triggers a run with, if it triggers one. */
  method Tick(profile: Option<Profile>, now: nat) returns (key: Option<string>)
    ensures key.Some? <==> profile.Some? && profile.value.crawlEnabled
    ensures key.Some? ==> DiscoveryRuns.HasKey(key)
    ensures key.Some? ==>
              var frequency := profile.value.crawlFrequency;
              var days := if frequency == "mingguan" then 7 else if frequency == "2-3x" then 3 else 1;
              key.value == "sched-" + frequency + "-" + Itoa(now / (days * 24 * 60 * 60))
    ensures key.Some? ==> forall later: nat {:trigger TickKey(profile.value.crawlFrequency, later)} ::
              TickKey(profile.value.crawlFrequency, later) == key.value
              <==> later / Interval(profile.value.crawlFrequency) == now / Interval(profile.value.crawlFrequency)
  {
    if profile.None? || !profile.value.crawlEnabled {
      return None;
    }
    var frequency := profile.value.crawlFrequency;
    key := Some("sched-" + frequency + "-" + Itoa(now / Interval(frequency)));
    forall later: nat ensures TickKey(frequency, later) == key.value <==> Bucket(frequency, later) == Bucket(frequency, now) {
      KeyNamesPeriod(frequency, later, frequency, now);
    }
  }

  // ----- the key names the period -----

  lemma DashInside(a: string, d: string, b: string, e: string)
    requires a + "-" + d == b + "-" + e && |a| < |b|
    ensures '-' in d
  {
    assert (b + "-" + e)[|b|] == '-';
    assert (a + "-" + d)[|b|] == d[|b| - |a| - 1];
  }

  /** What stands after the last dash is determined by the whole. */
  lemma LastDash(a: string, d: string, b: string, e: string)
    requires '-' !in d && '-' !in e && a + "-" + d == b + "-" + e
    ensures a == b && d == e
  {
    assert |a| == |b| by {
      if |a| < |b| {
        DashInside(a, d, b, e);
      } else if |b| < |a| {
        DashInside(b, e, a, d);
      }
    }
    assert a == (a + "-" + d)[..|a|] && d == (a + "-" + d)[|a| + 1..];
    assert b == (b + "-" + e)[..|b|] && e == (b + "-" + e)[|b| + 1..];
  }

  lemma ItoaHasNoDash(n: nat)
    ensures '-' !in Itoa(n)
  {
  }

  /** Whatever the frequency is called, two ticks share a key exactly when they share the frequency
      and the period. */
  lemma KeyNamesPeriod(f: string, s: nat, g: string, t: nat)
    ensures TickKey(f, s) == TickKey(g, t) <==> f == g && Bucket(f, s) == Bucket(g, t)
  {
    if TickKey(f, s) == TickKey(g, t) {
      ItoaHasNoDash(Bucket(f, s));
      ItoaHasNoDash(Bucket(g, t));
      LastDash("sched-" + f, Itoa(Bucket(f, s)), "sched-" + g, Itoa(Bucket(g, t)));
      assert f == ("sched-" + f)[6..] && g == ("sched-" + g)[6..];
      ItoaInjective(Bucket(f, s), Bucket(g, t));
    }
  }

  // ----- how many runs a stretch of time can see -----

  ghost predicate TickedIn(frequency: string, ticks: seq<nat>, a: nat, b: nat) {
    forall k :: 0 <= k < |ticks| ==> a <= ticks[k] <= b
  }

  /** Row k was created for the key of tick k. */
  ghost predicate CreatedBy(rows: seq<DiscoveryRuns.RunRow>, frequency: string, ids: seq<nat>, ticks: seq<nat>) {
    && |ids| == |ticks|
    && forall k :: 0 <= k < |ids| ==> ids[k] < |rows| && rows[ids[k]].key == Some(TickKey(frequency, ticks[k]))
  }

  function Buckets(frequency: string, ticks: seq<nat>): seq<nat> {
    seq(|ticks|, k requires 0 <= k < |ticks| => Bucket(frequency, ticks[k]))
  }

  lemma BucketsDiffer(rows: seq<DiscoveryRuns.RunRow>, frequency: string, ids: seq<nat>, ticks: seq<nat>)
    requires DiscoveryRuns.Unique(rows) && CreatedBy(rows, frequency, ids, ticks) && Distinct(ids)
    ensures Distinct(Buckets(frequency, ticks))
  {
    forall j, k | 0 <= j < k < |ticks| ensures Bucket(frequency, ticks[j]) != Bucket(frequency, ticks[k]) {
      KeyNamesPeriod(frequency, ticks[j], frequency, ticks[k]);
      assert rows[ids[j]].key == Some(TickKey(frequency, ticks[j])) && ids[j] != ids[k];
    }
  }

  function Periods(lo: nat, hi: nat): set<nat> {
    if hi <= lo then {} else Periods(lo, hi - 1) + {hi - 1}
  }

  lemma {:induction false} PeriodsCount(lo: nat, hi: nat)
    requires lo <= hi
    ensures |Periods(lo, hi)| == hi - lo
    ensures forall k: nat :: k in Periods(lo, hi) <==> lo <= k < hi
  {
    if lo < hi {
      PeriodsCount(lo, hi - 1);
    }
  }

  lemma DivideOrdered(a: nat, t: nat, b: nat, n: nat)
    requires a <= t <= b && n > 0
    ensures a / n <= t / n <= b / n
  {
    DivideMonotone(a, t, n);
    DivideMonotone(t, b, n);
  }

  lemma {:induction false} Times(n: nat, x: nat, y: nat)
    requires x <= y
    ensures n * x <= n * y
  {
    if x < y {
      Times(n, x, y - 1);
      assert n * y == n * (y - 1) + n;
    }
  }

  lemma DivideMonotone(a: nat, b: nat, n: nat)
    requires a <= b && n > 0
    ensures a / n <= b / n
  {
    Quotients(n, a / n, a % n, b / n, b % n);
  }

  lemma Quotients(n: nat, p: nat, r: nat, q: nat, t: nat)
    requires n * p + r <= n * q + t && t < n
    ensures p <= q
  {
    if q + 1 <= p {
      Times(n, q + 1, p);
    }
  }

  lemma BucketsInPeriods(frequency: string, ticks: seq<nat>, a: nat, b: nat)
    requires a <= b && TickedIn(frequency, ticks, a, b)
    ensures var n := Interval(frequency);
            forall k :: 0 <= k < |ticks| ==> Buckets(frequency, ticks)[k] in Periods(a / n, b / n + 1)
  {
    var n := Interval(frequency);
    DivideOrdered(a, b, b, n);
    PeriodsCount(a / n, b / n + 1);
    forall k | 0 <= k < |ticks| ensures Buckets(frequency, ticks)[k] in Periods(a / n, b / n + 1) {
      DivideOrdered(a, ticks[k], b, n);
    }
  }

  /** However triggers and ticks interleave, the distinct runs created for ticks at times in [a, b]
      under one frequency number at most one more than the period boundaries in between. */
  lemma ScheduledRunsAreFew(steps: seq<DiscoveryRuns.Step>, frequency: string, ids: seq<nat>, ticks: seq<nat>, a: nat, b: nat)
    requires a <= b && TickedIn(frequency, ticks, a, b)
    requires CreatedBy(DiscoveryRuns.Run(steps).rows, frequency, ids, ticks) && Distinct(ids)
    ensures |ids| <= b / Interval(frequency) - a / Interval(frequency) + 1
  {
    DiscoveryRuns.Reachable(steps);
    BucketsDiffer(DiscoveryRuns.Run(steps).rows, frequency, ids, ticks);
    var n := Interval(frequency);
    DivideOrdered(a, b, b, n);
    PeriodsCount(a / n, b / n + 1);
    BucketsInPeriods(frequency, ticks, a, b);
    Pigeonhole(Buckets(frequency, ticks), Periods(a / n, b / n + 1));
  }

  /** Row k was created at most `lag` seconds after tick k, at a time in [a, b]. */
  ghost predicate CreatedWithin(rows: seq<DiscoveryRuns.RunRow>, ids: seq<nat>, ticks: seq<nat>, a: nat, b: nat, lag: nat) {
    && |ids| == |ticks|
    && forall k :: 0 <= k < |ids| ==>
         ids[k] < |rows| && a <= rows[ids[k]].startedAt <= b && ticks[k] <= rows[ids[k]].startedAt <= ticks[k] + lag
  }

  /** The same bound by creation time: rows created in [a, b], each at most `lag` seconds after its
      tick, are counted over the periods from a - lag on. */
  lemma CreatedRunsAreFew(steps: seq<DiscoveryRuns.Step>, frequency: string, ids: seq<nat>, ticks: seq<nat>,
                          a: nat, b: nat, lag: nat)
    requires a <= b && Distinct(ids)
    requires CreatedBy(DiscoveryRuns.Run(steps).rows, frequency, ids, ticks)
    requires CreatedWithin(DiscoveryRuns.Run(steps).rows, ids, ticks, a, b, lag)
    ensures var from := if a < lag then 0 else a - lag;
            |ids| <= b / Interval(frequency) - from / Interval(frequency) + 1
  {
    var from := if a < lag then 0 else a - lag;
    forall k | 0 <= k < |ticks| ensures from <= ticks[k] <= b {
      assert ids[k] < |DiscoveryRuns.Run(steps).rows|;
    }
    ScheduledRunsAreFew(steps, frequency, ids, ticks, from, b);
  }
}
