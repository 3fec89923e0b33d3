// The risk score and health verdict of the WhatsApp monitor page
// (src/pages/admin/whatsapp-health.tsx). The stats and alerts that the page
// fetches are parameters.
module WhatsAppHealth {
  import opened Wrappers

  datatype Stats = Stats(queueSize: int, dailyCount: int, dailyLimit: int)

  datatype Alert = Alert(severity: string)

  /** Points for the day's volume, `dailyCount / dailyLimit` against 0.9, 0.7 and 0.5. A
    * zero limit divides to Infinity (40 points) for a positive count and to NaN or
    * -Infinity (no points) otherwise. */
  function VolumePoints(dailyCount: int, dailyLimit: int): (p: int)
    ensures p in {0, 15, 25, 40}
    ensures dailyLimit > 0 ==>
      (p == 40 <==> dailyCount as real / dailyLimit as real > 0.9)
      && (p == 0 <==> dailyCount as real / dailyLimit as real <= 0.5)
  {
    if dailyLimit == 0 then (if dailyCount > 0 then 40 else 0)
    else
      var ratio := dailyCount as real / dailyLimit as real;
      if ratio > 0.9 then 40 else if ratio > 0.7 then 25 else if ratio > 0.5 then 15 else 0
  }

  /** Points for the queue length. */
  function QueuePoints(queueSize: int): (p: int)
    ensures p in {0, 10, 20, 30}
    ensures p == 0 <==> queueSize <= 10
    ensures p == 30 <==> queueSize > 30
  {
    if queueSize > 30 then 30 else if queueSize > 20 then 20 else if queueSize > 10 then 10 else 0
  }

  predicate IsCritical(a: Alert) { a.severity == "critical" }

  /** Points for the unresolved alerts: any critical one, or else more than five. */
  function AlertPoints(alerts: seq<Alert>): (p: int)
    ensures p in {0, 15, 30}
    ensures p == 30 <==> exists i :: 0 <= i < |alerts| && IsCritical(alerts[i])
    ensures p == 15 <==> (forall i :: 0 <= i < |alerts| ==> !IsCritical(alerts[i])) && |alerts| > 5
  {
    if exists i :: 0 <= i < |alerts| && IsCritical(alerts[i]) then 30
    else if |alerts| > 5 then 15
    else 0
  }

  /** The score as the three factors added up and capped at 100. */
  function RiskScoreOf(stats: Option<Stats>, alerts: seq<Alert>): (score: int)
    ensures 0 <= score <= 100
    ensures stats.None? ==> score == 0
  {
    match stats
    case None => 0
    case Some(s) =>
      var total := VolumePoints(s.dailyCount, s.dailyLimit) + QueuePoints(s.queueSize) + AlertPoints(alerts);
      if total < 100 then total else 100
  }

  /** calculateRiskScore, which adds the factors to a running score. */
  method CalculateRiskScore(stats: Option<Stats>, alerts: seq<Alert>) returns (score: int)
    ensures score == RiskScoreOf(stats, alerts)
    ensures 0 <= score <= 100
  {
    if stats.None? {
      return 0;
    }
    var s := stats.value;
    score := 0;
    if s.dailyLimit == 0 {
      if s.dailyCount > 0 {
        score := score + 40;
      }
    } else {
      var volumeRatio := s.dailyCount as real / s.dailyLimit as real;
      if volumeRatio > 0.9 {
        score := score + 40;
      } else if volumeRatio > 0.7 {
        score := score + 25;
      } else if volumeRatio > 0.5 {
        score := score + 15;
      }
    }
    if s.queueSize > 30 {
      score := score + 30;
    } else if s.queueSize > 20 {
      score := score + 20;
    } else if s.queueSize > 10 {
      score := score + 10;
    }
    var critical := exists i :: 0 <= i < |alerts| && IsCritical(alerts[i]);
    if critical {
      score := score + 30;
    } else if |alerts| > 5 {
      score := score + 15;
    }
    if score > 100 {
      score := 100;
    }
  }

  /** The worst case of every factor reaches the cap exactly. */
  lemma WorstCaseIsCapped()
    ensures RiskScoreOf(Some(Stats(31, 50, 50)), [Alert("critical")]) == 100
    ensures RiskScoreOf(Some(Stats(0, 0, 50)), []) == 0
  {
    assert IsCritical([Alert("critical")][0]);
  }

  /** More queued messages never lower the score. */
  lemma ScoreMonotoneInQueue(s: Stats, more: int, alerts: seq<Alert>)
    requires more >= s.queueSize
    ensures RiskScoreOf(Some(s), alerts) <= RiskScoreOf(Some(s.(queueSize := more)), alerts)
  {
  }

  /** More messages sent today never lower the score, for a nonnegative limit. */
  lemma ScoreMonotoneInCount(s: Stats, more: int, alerts: seq<Alert>)
    requires more >= s.dailyCount && s.dailyLimit >= 0
    ensures RiskScoreOf(Some(s), alerts) <= RiskScoreOf(Some(s.(dailyCount := more)), alerts)
  {
    if s.dailyLimit > 0 {
      RatioMonotone(s.dailyCount, more, s.dailyLimit);
    }
  }

  lemma RatioMonotone(a: int, b: int, d: int)
    requires a <= b && d > 0
    ensures a as real / d as real <= b as real / d as real
  {
    var x, y := a as real / d as real, b as real / d as real;
    assert (y - x) * d as real == (b - a) as real;
  }

  datatype Health = Health(status: string, color: string, message: string)

  /** getHealthStatus */
  function HealthStatus(riskScore: int): (h: Health)
    ensures h.status == "SAUDÁVEL" <==> riskScore < 30
    ensures h.status == "ATENÇÃO" <==> 30 <= riskScore < 60
    ensures h.status == "CRÍTICO" <==> riskScore >= 60
  {
    if riskScore < 30 then Health("SAUDÁVEL", "green", "Sistema operando normalmente")
    else if riskScore < 60 then Health("ATENÇÃO", "yellow", "Monitorar de perto")
    else Health("CRÍTICO", "red", "Ação imediata necessária")
  }

  /** A page without stats is healthy; any critical alert alone makes it need attention. */
  lemma HealthExamples(alerts: seq<Alert>)
    ensures HealthStatus(RiskScoreOf(None, alerts)).status == "SAUDÁVEL"
    ensures (exists i :: 0 <= i < |alerts| && IsCritical(alerts[i])) ==>
      HealthStatus(RiskScoreOf(Some(Stats(0, 0, 50)), alerts)).status == "ATENÇÃO"
  {
  }
}
