/**
 * The hotspot control panel: the congestion percentage shown for a hotspot's severity, the
 * severity badge classes, and the panel's four settings (AI mode, intervention threshold,
 * traffic redirection, signal coordination), each changed by its own handler.
 */
module HotspotControl {
  import opened Util
  import opened Traffic
  import opened Text

  /** The progress value of a hotspot's severity: 85 for critical, 72 for high, 58 otherwise. */
  function CongestionPercent(severity: Severity): (p: nat)
    ensures 0 <= p <= 100
    ensures severity == Critical ==> p == 85
    ensures severity == High ==> p == 72
    ensures severity == Medium ==> p == 58
  {
    if severity == Critical then 85 else if severity == High then 72 else 58
  }

  /** The text beside the progress bar, written out by its own conditional; it is the progress value followed by `%`. */
  function CongestionPercentText(severity: Severity): (t: string)
    ensures t == DecimalString(CongestionPercent(severity)) + "%"
  {
    if severity == Critical then "85%" else if severity == High then "72%" else "58%"
  }

  /** The number displayed on screen reads back as the progress value. */
  lemma PercentTextReadsBack(severity: Severity)
    ensures var t := CongestionPercentText(severity);
      |t| >= 2 && t[|t| - 1] == '%'
      && (forall i :: 0 <= i < |t| - 1 ==> '0' <= t[i] <= '9')
      && DecimalValue(t[..|t| - 1]) == CongestionPercent(severity)
  {
    var t := CongestionPercentText(severity);
    assert t[..|t| - 1] == DecimalString(CongestionPercent(severity));
    DecimalRoundTrip(CongestionPercent(severity));
  }

  /** The order of severities, most severe first. */
  function SeverityRank(severity: Severity): nat
  {
    match severity
    case Critical => 2
    case High => 1
    case Medium => 0
  }

  /** A more severe hotspot always shows a higher congestion percentage. */
  lemma PercentFollowsSeverity(a: Severity, b: Severity)
    ensures SeverityRank(a) < SeverityRank(b) <==> CongestionPercent(a) < CongestionPercent(b)
  {
  }

  /** `getSeverityColor`: the badge classes of a severity literal, grey for anything else. */
  function SeverityColor(severity: string): (c: string)
    ensures c == "text-gray-400 bg-gray-500/10 border-gray-500/30" <==> severity !in {"critical", "high", "medium"}
  {
    if severity == "critical" then "text-red-400 bg-red-500/10 border-red-500/30"
    else if severity == "high" then "text-amber-400 bg-amber-500/10 border-amber-500/30"
    else if severity == "medium" then "text-green-400 bg-green-500/10 border-green-500/30"
    else "text-gray-400 bg-gray-500/10 border-gray-500/30"
  }

  /** Each severity has its own badge, red, amber or green, and none falls through to grey. */
  lemma SeverityColorsDistinct(a: Severity, b: Severity)
    ensures SeverityColor(Critical.Name()) == "text-red-400 bg-red-500/10 border-red-500/30"
    ensures SeverityColor(High.Name()) == "text-amber-400 bg-amber-500/10 border-amber-500/30"
    ensures SeverityColor(Medium.Name()) == "text-green-400 bg-green-500/10 border-green-500/30"
    ensures SeverityColor(a.Name()) != "text-gray-400 bg-gray-500/10 border-gray-500/30"
    ensures a != b ==> SeverityColor(a.Name()) != SeverityColor(b.Name())
  {
  }

  class HotspotControlPanel {
    /** The hotspot the panel controls (its `hotspot` prop). */
    const hotspot: HotspotArea
    var aiMode: bool
    /** The slider's values; the slider has one thumb. */
    var interventionLevel: seq<int>
    var trafficRedirection: bool
    var signalCoordination: bool

    constructor (hotspot: HotspotArea)
      ensures this.hotspot == hotspot
      ensures aiMode && interventionLevel == [70] && !trafficRedirection && signalCoordination
    {
      this.hotspot := hotspot;
      aiMode := true;
      interventionLevel := [70];
      trafficRedirection := false;
      signalCoordination := true;
    }

    /** The intervention slider can be moved only in AI mode. */
    predicate SliderDisabled()
      reads this
    {
      !aiMode
    }

    method HandleAiModeToggle(enabled: bool)
      modifies this`aiMode
      ensures aiMode == enabled && (SliderDisabled() <==> !enabled)
      ensures interventionLevel == old(interventionLevel)
      ensures trafficRedirection == old(trafficRedirection) && signalCoordination == old(signalCoordination)
    {
      aiMode := enabled;
    }

    method HandleInterventionChange(value: seq<int>)
      modifies this`interventionLevel
      ensures interventionLevel == value
      ensures aiMode == old(aiMode)
      ensures trafficRedirection == old(trafficRedirection) && signalCoordination == old(signalCoordination)
    {
      interventionLevel := value;
    }

    method HandleTrafficRedirection(enabled: bool)
      modifies this`trafficRedirection
      ensures trafficRedirection == enabled
      ensures aiMode == old(aiMode) && interventionLevel == old(interventionLevel)
      ensures signalCoordination == old(signalCoordination)
    {
      trafficRedirection := enabled;
    }

    method HandleSignalCoordination(enabled: bool)
      modifies this`signalCoordination
      ensures signalCoordination == enabled
      ensures aiMode == old(aiMode) && interventionLevel == old(interventionLevel)
      ensures trafficRedirection == old(trafficRedirection)
    {
      signalCoordination := enabled;
    }

    /**
     * The "Open Timer Configuration" button: when the parent supplied `onOpenSignalControl`
     * (`hasCallback`), it is called with this hotspot's id; otherwise nothing is called.
     * The result is the id the callback receives.
     */
    method HandleManualIntervention(hasCallback: bool) returns (openedFor: Option<string>)
      ensures openedFor.Some? <==> hasCallback
      ensures openedFor.Some? ==> openedFor.value == hotspot.id
    {
      if hasCallback {
        openedFor := Some(hotspot.id);
      } else {
        openedFor := None;
      }
    }
  }
}
