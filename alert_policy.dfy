/**
 * The alert rule of the dip monitor: whether an observation of one symbol
 * warrants an alert, and how severe that alert is.
 */
module AlertPolicy {
  import opened Wrappers

  /** One fetched quote. Prices and percentages are exact reals; volumes are whole shares. */
  datatype Observation = Observation(
    currentPrice: real,
    previousClose: real,
    pctChange: real,
    volume: int,
    avgVolume: int,
    ma20: real)

  /** Minimum time between two alerts for the same symbol: four hours, in seconds. */
  const CooldownSeconds: int := 4 * 60 * 60

  /** Today's volume must exceed this multiple of the average volume. */
  const VolumeBar: real := 1.2

  /** Today's volume relative to the average; 1 when there is no positive average. */
  function VolumeRatio(data: Observation): (ratio: real)
    ensures data.avgVolume > 0 ==> ratio * (data.avgVolume as real) == data.volume as real
    ensures data.avgVolume <= 0 ==> ratio == 1.0
  {
    if data.avgVolume > 0 then data.volume as real / data.avgVolume as real else 1.0
  }

  /** The ratio clears the bar exactly when the average is positive and
      10 * volume > 12 * average: the division never needs to be computed. */
  lemma VolumeRatioAboveBar(data: Observation)
    ensures VolumeRatio(data) > VolumeBar <==> data.avgVolume > 0 && 10 * data.volume > 12 * data.avgVolume
  {
  }

  /** A previous alert less than four hours before `now` suppresses a new one. */
  function InCooldown(lastAlert: Option<int>, now: int): (suppress: bool)
    ensures lastAlert.None? ==> !suppress
    ensures lastAlert.Some? ==> (suppress <==> now < lastAlert.value + 4 * 3600)
  {
    lastAlert.Some? && now - lastAlert.value < CooldownSeconds
  }

  /** The dip decision for one symbol with the given alert threshold (a percentage). */
  function IsSignificantDip(threshold: real, data: Observation, lastAlert: Option<int>, now: int): (fire: bool)
    ensures fire <==>
      && data.pctChange <= -threshold
      && data.avgVolume > 0 && 10 * data.volume > 12 * data.avgVolume
      && !InCooldown(lastAlert, now)
  {
    if data.pctChange <= -threshold then
      var volumeRatio := VolumeRatio(data);
      if InCooldown(lastAlert, now) then false
      else VolumeRatioAboveBar(data); volumeRatio > VolumeBar
    else false
  }

  /** No dip, no alert: neither volume nor alert history can make a small move fire. */
  lemma NoDipNoAlert(threshold: real, data: Observation, lastAlert: Option<int>, now: int)
    requires data.pctChange > -threshold
    ensures !IsSignificantDip(threshold, data, lastAlert, now)
  {
  }

  /** The cooldown suppresses for strictly less than four hours after the last alert and
      no longer from four hours on. */
  lemma CooldownWindow(threshold: real, data: Observation, last: int, now: int)
    requires data.pctChange <= -threshold && data.avgVolume > 0 && 10 * data.volume > 12 * data.avgVolume
    ensures IsSignificantDip(threshold, data, Some(last), now) <==> now >= last + CooldownSeconds
  {
  }

  /** Alert tiers, from the mildest to the most severe. */
  datatype Severity = Detected | Significant | Major

  function Rank(s: Severity): nat
  {
    match s
    case Detected => 0
    case Significant => 1
    case Major => 2
  }

  /** Severity of a move; each boundary belongs to the stricter tier. */
  function Classify(pctChange: real): (s: Severity)
    ensures s == Major <==> pctChange <= -8.0
    ensures s == Significant <==> -8.0 < pctChange <= -5.0
    ensures s == Detected <==> -5.0 < pctChange
  {
    if pctChange <= -8.0 then Major
    else if pctChange <= -5.0 then Significant
    else Detected
  }

  /** A deeper fall never gets a milder tier. */
  lemma ClassifyMonotone(p: real, q: real)
    requires p <= q
    ensures Rank(Classify(q)) <= Rank(Classify(p))
  {
  }

  /** The worked examples of the alert rule. */
  lemma PolicyExamples(t: int)
    ensures var d := Observation(95.5, 100.0, -4.5, 150000, 100000, 98.0);
            IsSignificantDip(3.0, d, None, t) && Classify(d.pctChange) == Detected
    ensures var d := Observation(91.0, 100.0, -9.0, 150000, 100000, 98.0);
            IsSignificantDip(3.0, d, None, t) && Classify(d.pctChange) == Major
    ensures !IsSignificantDip(3.0, Observation(94.0, 100.0, -6.0, 110000, 100000, 98.0), None, t)
    ensures var d := Observation(95.5, 100.0, -4.5, 150000, 100000, 98.0);
            !IsSignificantDip(3.0, d, Some(t), t + 3 * 3600)
            && IsSignificantDip(3.0, d, Some(t), t + 4 * 3600 + 1)
  {
  }
}
