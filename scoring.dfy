/**
 * The Network Experience Score: a site's raw metrics become a score between
 * 0 and 100, and a score becomes a health label.
 */
module Scoring {
  import opened Wrappers

  /**
   * The metrics dict; `None` is a key the dict does not hold. Each status is
   * a boolean and each measurement a number, as every caller builds it.
   */
  datatype Metrics = Metrics(
    wanStatus: Option<bool>,
    switchStatus: Option<bool>,
    apStatus: Option<bool>,
    latencyMs: Option<real>,
    packetLossPct: Option<real>,
    jitterMs: Option<real>)

  function Min(a: real, b: real): real {
    if a <= b then a else b
  }

  function Max(a: real, b: real): real {
    if a >= b then a else b
  }

  // ---------------------------------------------------------------------------
  // Penalties

  /** A LAN tier that is down (a missing key counts as up) costs exactly 20 points. */
  function AvailabilityPenalty(status: Option<bool>): (p: real)
    ensures p == if status == Some(false) then 20.0 else 0.0
  {
    if !status.GetOr(true) then 20.0 else 0.0
  }

  /** Latency costs a point per 10 ms above 50 ms, at most 30 points, reached from 350 ms on. */
  function LatencyPenalty(latency: real): (p: real)
    ensures latency <= 50.0 ==> p == 0.0
    ensures latency > 50.0 ==> 0.0 < p <= 30.0
    ensures p == 30.0 <==> latency >= 350.0
  {
    if latency > 50.0 then Min((latency - 50.0) / 10.0, 30.0) else 0.0
  }

  /** Packet loss costs 5 points per percent, at most 40 points, reached from 8 % on. */
  function LossPenalty(loss: real): (p: real)
    ensures loss <= 0.0 ==> p == 0.0
    ensures loss > 0.0 ==> 0.0 < p <= 40.0
    ensures p == 40.0 <==> loss >= 8.0
  {
    if loss > 0.0 then Min(loss * 5.0, 40.0) else 0.0
  }

  /** Jitter costs a point per 5 ms above 10 ms, at most 10 points, reached from 60 ms on. */
  function JitterPenalty(jitter: real): (p: real)
    ensures jitter <= 10.0 ==> p == 0.0
    ensures jitter > 10.0 ==> 0.0 < p <= 10.0
    ensures p == 10.0 <==> jitter >= 60.0
  {
    if jitter > 10.0 then Min((jitter - 10.0) / 5.0, 10.0) else 0.0
  }

  /** Everything deducted from 100 for a site whose WAN is up; missing measurements count as 0. */
  function Deductions(m: Metrics): (d: real)
    ensures 0.0 <= d <= 120.0
  {
    AvailabilityPenalty(m.switchStatus) + AvailabilityPenalty(m.apStatus)
    + LatencyPenalty(m.latencyMs.GetOr(0.0))
    + LossPenalty(m.packetLossPct.GetOr(0.0))
    + JitterPenalty(m.jitterMs.GetOr(0.0))
  }

  // ---------------------------------------------------------------------------
  // Rounding to one decimal

  /** The integer nearest to `y`, a tie going to the even neighbour (Python's `round`). */
  function NearestInt(y: real): (n: int)
    ensures y - 0.5 <= n as real <= y + 0.5
    ensures n as real - y == 0.5 || y - n as real == 0.5 ==> n % 2 == 0
  {
    var f := y.Floor;
    var frac := y - f as real;
    if frac < 0.5 then f
    else if frac > 0.5 then f + 1
    else if f % 2 == 0 then f
    else f + 1
  }

  /** `round(x, 1)` on the exact value: the nearest tenth, ties to an even last digit. */
  function Round1(x: real): (r: real)
    ensures x - 0.05 <= r <= x + 0.05
  {
    NearestInt(x * 10.0) as real / 10.0
  }

  /** Rounding to the nearest integer never reverses an order. */
  lemma NearestIntMonotone(x: real, y: real)
    requires x <= y
    ensures NearestInt(x) <= NearestInt(y)
  {
  }

  lemma Round1Monotone(x: real, y: real)
    requires x <= y
    ensures Round1(x) <= Round1(y)
  {
    NearestIntMonotone(x * 10.0, y * 10.0);
  }

  /** A value that already has one decimal is left as it is. */
  lemma Round1Exact(k: int)
    ensures Round1(k as real / 10.0) == k as real / 10.0
  {
    var y := (k as real / 10.0) * 10.0;
    assert y == k as real;
    assert y.Floor == k;
  }

  // ---------------------------------------------------------------------------
  // The score

  /** `calculate_score(metrics)`: 0 when the WAN is down or missing, else 100 less the deductions, rounded and floored at 0. */
  function Score(m: Metrics): (s: real)
    ensures 0.0 <= s <= 100.0
    ensures !m.wanStatus.GetOr(false) ==> s == 0.0
    ensures m.wanStatus == Some(true) ==> 100.0 - Deductions(m) - 0.05 <= s
    ensures m.wanStatus == Some(true) && Deductions(m) <= 99.95 ==> s <= 100.0 - Deductions(m) + 0.05
  {
    if !m.wanStatus.GetOr(false) then 0.0
    else
      Round1Monotone(100.0 - Deductions(m), 100.0);
      Round1Exact(1000);
      Max(0.0, Round1(100.0 - Deductions(m)))
  }

  /** The step-by-step computation of the source, deducting one penalty at a time. */
  method CalculateScore(m: Metrics) returns (score: real)
    ensures score == Score(m)
    ensures 0.0 <= score <= 100.0
  {
    // Critical failure: no WAN, no score.
    if !m.wanStatus.GetOr(false) {
      return 0.0;
    }
    score := 100.0;
    if !m.switchStatus.GetOr(true) {
      score := score - 20.0;
    }
    if !m.apStatus.GetOr(true) {
      score := score - 20.0;
    }
    ghost var lan := AvailabilityPenalty(m.switchStatus) + AvailabilityPenalty(m.apStatus);
    assert score == 100.0 - lan;
    var latency := m.latencyMs.GetOr(0.0);
    if latency > 50.0 {
      var penalty := (latency - 50.0) / 10.0;
      score := score - Min(penalty, 30.0);
    }
    assert score == 100.0 - lan - LatencyPenalty(latency);
    var loss := m.packetLossPct.GetOr(0.0);
    if loss > 0.0 {
      var penalty := loss * 5.0;
      score := score - Min(penalty, 40.0);
    }
    assert score == 100.0 - lan - LatencyPenalty(latency) - LossPenalty(loss);
    var jitter := m.jitterMs.GetOr(0.0);
    if jitter > 10.0 {
      var penalty := (jitter - 10.0) / 5.0;
      score := score - Min(penalty, 10.0);
    }
    assert score == 100.0 - Deductions(m);
    score := Max(0.0, Round1(score));
  }

  /** WAN up, both LAN tiers up, and every measurement within its threshold. */
  predicate Healthy(m: Metrics) {
    && m.wanStatus == Some(true)
    && m.switchStatus != Some(false) && m.apStatus != Some(false)
    && m.latencyMs.GetOr(0.0) <= 50.0
    && m.packetLossPct.GetOr(0.0) <= 0.0
    && m.jitterMs.GetOr(0.0) <= 10.0
  }

  /**
   * A healthy site scores 100; a site with the WAN up that scores 100 loses at
   * most the half-tenth that rounding gives back.
   */
  lemma HealthyScoresHundred(m: Metrics)
    ensures Healthy(m) ==> Score(m) == 100.0
    ensures m.wanStatus == Some(true) && Score(m) == 100.0 ==> Deductions(m) <= 0.05
  {
    if Healthy(m) {
      assert Deductions(m) == 0.0;
      Round1Exact(1000);
      assert 100.0 - Deductions(m) == 1000 as real / 10.0;
    }
  }

  /** Rounding hides a penalty smaller than half a tenth: 50.1 ms of latency still scores 100. */
  lemma SmallPenaltyRoundsAway()
    ensures Score(SiteMetrics(true, true, true, 50.1, 0.0, 5.0)) == 100.0
  {
    assert Deductions(SiteMetrics(true, true, true, 50.1, 0.0, 5.0)) == 0.01;
    assert NearestInt(999.9) == 1000;
  }

  /** A missing WAN status counts as down, and a missing LAN status as up. */
  lemma MissingStatusDefaults(m: Metrics)
    ensures Score(m.(wanStatus := None)) == 0.0
    ensures Score(m.(switchStatus := None)) == Score(m.(switchStatus := Some(true)))
    ensures Score(m.(apStatus := None)) == Score(m.(apStatus := Some(true)))
  {
  }

  /** A missing measurement counts as 0. */
  lemma MissingMeasurementDefaults(m: Metrics)
    ensures Score(m.(latencyMs := None)) == Score(m.(latencyMs := Some(0.0)))
    ensures Score(m.(packetLossPct := None)) == Score(m.(packetLossPct := Some(0.0)))
    ensures Score(m.(jitterMs := None)) == Score(m.(jitterMs := Some(0.0)))
  {
  }

  /** Raising the latency, everything else fixed, never raises the score. */
  lemma LatencyNeverRaisesScore(m: Metrics, low: real, high: real)
    requires low <= high
    ensures Score(m.(latencyMs := Some(high))) <= Score(m.(latencyMs := Some(low)))
  {
    var a, b := m.(latencyMs := Some(low)), m.(latencyMs := Some(high));
    assert LatencyPenalty(low) <= LatencyPenalty(high);
    Round1Monotone(100.0 - Deductions(b), 100.0 - Deductions(a));
  }

  /** Raising the packet loss, everything else fixed, never raises the score. */
  lemma LossNeverRaisesScore(m: Metrics, low: real, high: real)
    requires low <= high
    ensures Score(m.(packetLossPct := Some(high))) <= Score(m.(packetLossPct := Some(low)))
  {
    var a, b := m.(packetLossPct := Some(low)), m.(packetLossPct := Some(high));
    assert LossPenalty(low) <= LossPenalty(high);
    Round1Monotone(100.0 - Deductions(b), 100.0 - Deductions(a));
  }

  /** Raising the jitter, everything else fixed, never raises the score. */
  lemma JitterNeverRaisesScore(m: Metrics, low: real, high: real)
    requires low <= high
    ensures Score(m.(jitterMs := Some(high))) <= Score(m.(jitterMs := Some(low)))
  {
    var a, b := m.(jitterMs := Some(low)), m.(jitterMs := Some(high));
    assert JitterPenalty(low) <= JitterPenalty(high);
    Round1Monotone(100.0 - Deductions(b), 100.0 - Deductions(a));
  }

  /** A LAN tier going down never raises the score. */
  lemma OutageNeverRaisesScore(m: Metrics)
    ensures Score(m.(switchStatus := Some(false))) <= Score(m)
    ensures Score(m.(apStatus := Some(false))) <= Score(m)
  {
    Round1Monotone(100.0 - Deductions(m.(switchStatus := Some(false))), 100.0 - Deductions(m));
    Round1Monotone(100.0 - Deductions(m.(apStatus := Some(false))), 100.0 - Deductions(m));
  }

  function SiteMetrics(wan: bool, switchUp: bool, apUp: bool, latency: real, loss: real, jitter: real): Metrics {
    Metrics(Some(wan), Some(switchUp), Some(apUp), Some(latency), Some(loss), Some(jitter))
  }

  /** A site within every threshold scores the full 100 points. */
  lemma PerfectScore()
    ensures Score(SiteMetrics(true, true, true, 20.0, 0.0, 5.0)) == 100.0
  {
    HealthyScoresHundred(SiteMetrics(true, true, true, 20.0, 0.0, 5.0));
  }

  /** A WAN that is down scores 0 whatever the other metrics say. */
  lemma WanDownScore()
    ensures Score(SiteMetrics(false, true, true, 0.0, 0.0, 0.0)) == 0.0
  {
  }

  /** 150 ms of latency costs 10 points. */
  lemma HighLatencyScore()
    ensures Score(SiteMetrics(true, true, true, 150.0, 0.0, 5.0)) == 90.0
  {
    Round1Exact(900);
  }

  /** 2 % packet loss costs 10 points. */
  lemma PacketLossScore()
    ensures Score(SiteMetrics(true, true, true, 20.0, 2.0, 5.0)) == 90.0
  {
    Round1Exact(900);
  }

  /** A switch tier that is down costs 20 points. */
  lemma SwitchDownScore()
    ensures Score(SiteMetrics(true, false, true, 20.0, 0.0, 5.0)) == 80.0
  {
    Round1Exact(800);
  }

  /** Deductions of 120 points are floored at a score of 0. */
  lemma ScoreFloor()
    ensures Score(SiteMetrics(true, false, false, 500.0, 20.0, 100.0)) == 0.0
  {
    Round1Exact(-200);
  }

  // ---------------------------------------------------------------------------
  // Health labels

  /** `get_health_status(score)`: the first threshold the score reaches names its label. */
  function HealthStatus(score: real): (status: string)
    ensures status in {"Excellent", "Good", "Fair", "Poor", "Critical"}
  {
    if score >= 90.0 then "Excellent"
    else if score >= 70.0 then "Good"
    else if score >= 50.0 then "Fair"
    else if score > 0.0 then "Poor"
    else "Critical"
  }

  /** The label's position from worst (0) to best (4). */
  function Rank(status: string): nat {
    if status == "Excellent" then 4
    else if status == "Good" then 3
    else if status == "Fair" then 2
    else if status == "Poor" then 1
    else 0
  }

  /** Each label holds exactly on its band of scores. */
  lemma HealthBands(score: real)
    ensures HealthStatus(score) == "Excellent" <==> score >= 90.0
    ensures HealthStatus(score) == "Good" <==> 70.0 <= score < 90.0
    ensures HealthStatus(score) == "Fair" <==> 50.0 <= score < 70.0
    ensures HealthStatus(score) == "Poor" <==> 0.0 < score < 50.0
    ensures HealthStatus(score) == "Critical" <==> score <= 0.0
  {
  }

  /** A higher score never gets a worse label. */
  lemma HealthStatusMonotone(low: real, high: real)
    requires low <= high
    ensures Rank(HealthStatus(low)) <= Rank(HealthStatus(high))
  {
  }

  /** A site whose WAN is down or unknown is Critical; a healthy one is Excellent. */
  lemma SiteHealth(m: Metrics)
    ensures !m.wanStatus.GetOr(false) ==> HealthStatus(Score(m)) == "Critical"
    ensures Healthy(m) ==> HealthStatus(Score(m)) == "Excellent"
  {
    if Healthy(m) {
      HealthyScoresHundred(m);
    }
  }
}
