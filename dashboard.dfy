/**
 * The top-level dashboard: the seed lists of areas, signals and hotspots, the two selections
 * (a selected signal and a selected hotspot id, set independently of each other), and the
 * handlers through which the map, the sidebar and the signal control panel change them.
 */
module Dashboard {
  import opened Util
  import opened Traffic
  import opened SignalControl
  import Sidebar

  /** The traffic areas the dashboard lists. */
  function SeedAreas(): (r: seq<TrafficArea>)
    ensures |r| == 4 && UniqueAreaIds(r)
  {
    [ TrafficArea("1", "Downtown Business District", CongestionHigh, 12, "2 min ago"),
      TrafficArea("2", "University Avenue", CongestionMedium, 8, "1 min ago"),
      TrafficArea("3", "Residential North", CongestionLow, 6, "3 min ago"),
      TrafficArea("4", "Industrial Zone", CongestionMedium, 4, "1 min ago") ]
  }

  /** The signals on the map: ids are unique and `sig-4` is the only inactive one. */
  function SeedSignals(): (r: seq<TrafficSignal>)
    ensures |r| == 4 && UniqueSignalIds(r)
    ensures forall i :: 0 <= i < |r| ==> (!r[i].isActive <==> r[i].id == "sig-4")
  {
    [ TrafficSignal("sig-1", 377749, -1224194, Green, "Main St & 1st Ave", true),
      TrafficSignal("sig-2", 377849, -1224094, Red, "Broadway & 2nd St", true),
      TrafficSignal("sig-3", 377649, -1224294, Amber, "Central Ave & Oak St", true),
      TrafficSignal("sig-4", 377549, -1224394, Green, "Park Blvd & Pine St", false) ]
  }

  /** The AI-detected hotspots: ids are unique. */
  function SeedHotspots(): (r: seq<HotspotArea>)
    ensures |r| == 3 && UniqueHotspotIds(r)
  {
    [ HotspotArea("hot-1", "Downtown Intersection", 377749, -1224194, Critical, true, 45, "8-12 min"),
      HotspotArea("hot-2", "Stadium Exit Route", 377649, -1224294, High, true, 32, "5-8 min"),
      HotspotArea("hot-3", "Shopping Center Access", 377549, -1224394, Medium, true, 18, "2-4 min") ]
  }

  /** `hotspots.find(h => h.id === hotspotId)`: the first hotspot with that id, or none. */
  function FindHotspot(hotspots: seq<HotspotArea>, hotspotId: string): (r: Option<HotspotArea>)
    ensures r.None? <==> forall i :: 0 <= i < |hotspots| ==> hotspots[i].id != hotspotId
    ensures r.Some? ==> exists i :: 0 <= i < |hotspots| && hotspots[i] == r.value && r.value.id == hotspotId
                                    && forall k :: 0 <= k < i ==> hotspots[k].id != hotspotId
  {
    if hotspots == [] then None
    else if hotspots[0].id == hotspotId then
      Some(hotspots[0])
    else
      var r := FindHotspot(hotspots[1..], hotspotId);
      assert forall i :: 0 < i < |hotspots| ==> hotspots[i] == hotspots[1..][i - 1];
      if r.Some? then
        var i :| 0 <= i < |hotspots[1..]| && hotspots[1..][i] == r.value && r.value.id == hotspotId
                 && forall k :: 0 <= k < i ==> hotspots[1..][k].id != hotspotId;
        assert forall k :: 0 <= k < i + 1 ==> hotspots[k].id != hotspotId;
        r
      else
        r
  }

  /**
   * The updater `handleSignalStatusChange` passes to `setSelectedSignal`: when a signal is
   * selected and its id is `signalId`, its status becomes `newStatus`; in every other case the
   * selection is returned as it was. No other field of the signal changes.
   */
  function WithStatus(prev: Option<TrafficSignal>, signalId: string, newStatus: SignalStatus): (r: Option<TrafficSignal>)
    ensures r.Some? <==> prev.Some?
    ensures r.Some? ==> r.value.(status := prev.value.status) == prev.value
    ensures r.Some? ==> r.value.status == if prev.value.id == signalId then newStatus else prev.value.status
  {
    if prev.Some? && prev.value.id == signalId then Some(prev.value.(status := newStatus)) else prev
  }

  /** A request for another signal (or with nothing selected) leaves the selection exactly as it was. */
  lemma StaleRequestIgnored(prev: Option<TrafficSignal>, signalId: string, newStatus: SignalStatus)
    requires prev.None? || prev.value.id != signalId
    ensures WithStatus(prev, signalId, newStatus) == prev
  {
  }

  /** Of two requests for the same signal, the later one decides; repeating a request changes nothing more. */
  lemma LaterRequestWins(prev: Option<TrafficSignal>, signalId: string, s1: SignalStatus, s2: SignalStatus)
    ensures WithStatus(WithStatus(prev, signalId, s1), signalId, s2) == WithStatus(prev, signalId, s2)
    ensures WithStatus(WithStatus(prev, signalId, s1), signalId, s1) == WithStatus(prev, signalId, s1)
  {
  }

  /**
   * A change requested by the panel for the selected signal lands on it: the selection then shows
   * the new colour, whose button is disabled, and the other two colours are the enabled ones.
   */
  lemma RequestReachesSelection(signal: TrafficSignal, target: SignalStatus)
    requires !ButtonDisabled(false, signal, target)
    ensures var after := WithStatus(Some(signal), StatusRequest(signal.id, target).signalId, target);
      && after == Some(signal.(status := target))
      && target !in EnabledButtons(false, after.value)
      && |EnabledButtons(false, after.value)| == 2
      && signal.status in EnabledButtons(false, after.value)
  {
  }

  class TrafficDashboard {
    var selectedSignal: Option<TrafficSignal>
    var selectedHotspot: Option<string>
    const trafficAreas: seq<TrafficArea>
    const trafficSignals: seq<TrafficSignal>
    const hotspots: seq<HotspotArea>

    constructor ()
      ensures selectedSignal == None && selectedHotspot == None
      ensures trafficAreas == SeedAreas() && trafficSignals == SeedSignals() && hotspots == SeedHotspots()
    {
      selectedSignal := None;
      selectedHotspot := None;
      trafficAreas := SeedAreas();
      trafficSignals := SeedSignals();
      hotspots := SeedHotspots();
    }

    /** The signal control panel is on screen exactly when a signal is selected. */
    predicate ShowsSignalControl()
      reads this
    {
      selectedSignal.Some?
    }

    /** A signal marker was clicked: it becomes the selected signal; the hotspot selection is untouched. */
    method HandleSignalClick(signal: TrafficSignal)
      modifies this`selectedSignal
      ensures selectedSignal == Some(signal) && selectedHotspot == old(selectedHotspot)
      ensures ShowsSignalControl()
    {
      selectedSignal := Some(signal);
    }

    /**
     * A hotspot card was clicked: its id becomes the selected hotspot whether or not a hotspot has
     * that id; the lookup decides only where the map would navigate (`found`). The signal
     * selection is untouched.
     */
    method HandleHotspotClick(hotspotId: string) returns (found: Option<HotspotArea>)
      modifies this`selectedHotspot
      ensures selectedHotspot == Some(hotspotId) && selectedSignal == old(selectedSignal)
      ensures found == FindHotspot(hotspots, hotspotId)
    {
      selectedHotspot := Some(hotspotId);
      found := FindHotspot(hotspots, hotspotId);
    }

    /** The panel reported a status change: the selected signal is rewritten by WithStatus; nothing else changes. */
    method HandleSignalStatusChange(signalId: string, newStatus: SignalStatus)
      modifies this`selectedSignal
      ensures selectedSignal == WithStatus(old(selectedSignal), signalId, newStatus)
      ensures selectedHotspot == old(selectedHotspot)
    {
      selectedSignal := WithStatus(selectedSignal, signalId, newStatus);
    }

    /** The panel's close button: no signal is selected, so the panel is gone. */
    method CloseSignalControl()
      modifies this`selectedSignal
      ensures selectedSignal == None && selectedHotspot == old(selectedHotspot)
      ensures !ShowsSignalControl()
    {
      selectedSignal := None;
    }
  }

  /**
   * The whole manual change, as the dashboard wires the panel to its handlers: a signal is
   * clicked, the panel is shown for it, a button is pressed, the delay elapses and the panel's
   * report reaches `handleSignalStatusChange`.
   */
  method ManualStatusChange(d: TrafficDashboard, signal: TrafficSignal, target: SignalStatus)
      returns (panel: SignalControlPanel, started: bool)
    modifies d`selectedSignal
    ensures fresh(panel) && Some(panel.signal) == d.selectedSignal
    ensures panel.Valid() && !panel.isChanging
    ensures started <==> signal.isActive && signal.status != target
    ensures d.selectedSignal == Some(if started then signal.(status := target) else signal)
    ensures d.selectedHotspot == old(d.selectedHotspot)
    ensures started ==> target !in panel.Enabled() && signal.status in panel.Enabled() && |panel.Enabled()| == 2
  {
    d.HandleSignalClick(signal);
    panel := new SignalControlPanel(signal);
    started := panel.PressButton(target);
    if started {
      var request := panel.CompleteStatusChange();
      d.HandleSignalStatusChange(request.signalId, request.status);
      // The panel is rendered with the updated selection as its `signal` prop.
      panel.ReceiveSignal(d.selectedSignal.value);
      RequestReachesSelection(signal, target);
    }
  }

  /** After a click on a hotspot card, that card, and only that one, is highlighted in the sidebar. */
  lemma ClickedHotspotIsHighlighted(hotspots: seq<HotspotArea>, i: int)
    requires UniqueHotspotIds(hotspots) && 0 <= i < |hotspots|
    ensures forall j :: 0 <= j < |hotspots| ==>
      (Sidebar.IsHighlighted(Some(hotspots[i].id), hotspots[j]) <==> j == i)
  {
  }
}
