/**
 * The entities of the traffic dashboard: signals, traffic areas and congestion hotspots
 * (the `TrafficSignal`, `TrafficArea` and `HotspotArea` interfaces of the dashboard component).
 * Latitudes and longitudes are whole numbers of ten-thousandths of a degree, the precision
 * at which every coordinate of the dashboard is written.
 */
module Traffic {

  /** The colour a signal shows. */
  datatype SignalStatus = Red | Amber | Green {
    /** The string literal the TypeScript union uses for this status. */
    function Name(): (n: string)
      ensures n in {"red", "amber", "green"}
    {
      match this
      case Red => "red"
      case Amber => "amber"
      case Green => "green"
    }
  }

  /** How bad a hotspot is. */
  datatype Severity = Critical | High | Medium {
    /** The string literal the TypeScript union uses for this severity. */
    function Name(): (n: string)
      ensures n in {"critical", "high", "medium"}
    {
      match this
      case Critical => "critical"
      case High => "high"
      case Medium => "medium"
    }
  }

  /** The congestion summary of a traffic area. */
  datatype CongestionLevel = CongestionHigh | CongestionMedium | CongestionLow {
    /** The string literal the TypeScript union uses for this level. */
    function Name(): (n: string)
      ensures n in {"high", "medium", "low"}
    {
      match this
      case CongestionHigh => "high"
      case CongestionMedium => "medium"
      case CongestionLow => "low"
    }
  }

  /** Different enum values have different literals, so a switch on the literal tells them apart. */
  lemma NamesAreDistinct()
    ensures forall a: SignalStatus, b: SignalStatus :: a != b ==> a.Name() != b.Name()
    ensures forall a: Severity, b: Severity :: a != b ==> a.Name() != b.Name()
    ensures forall a: CongestionLevel, b: CongestionLevel :: a != b ==> a.Name() != b.Name()
  {
  }

  datatype TrafficSignal = TrafficSignal(
    id: string,
    latitude: int,
    longitude: int,
    status: SignalStatus,
    location: string,
    isActive: bool)

  datatype TrafficArea = TrafficArea(
    id: string,
    name: string,
    congestionLevel: CongestionLevel,
    signalCount: int,
    lastUpdated: string)

  datatype HotspotArea = HotspotArea(
    id: string,
    name: string,
    latitude: int,
    longitude: int,
    severity: Severity,
    aiDetected: bool,
    vehicleCount: int,
    estimatedDelay: string)

  /** No two signals share an id. */
  predicate UniqueSignalIds(signals: seq<TrafficSignal>)
  {
    forall i, j :: 0 <= i < j < |signals| ==> signals[i].id != signals[j].id
  }

  /** No two hotspots share an id. */
  predicate UniqueHotspotIds(hotspots: seq<HotspotArea>)
  {
    forall i, j :: 0 <= i < j < |hotspots| ==> hotspots[i].id != hotspots[j].id
  }

  /** No two areas share an id. */
  predicate UniqueAreaIds(areas: seq<TrafficArea>)
  {
    forall i, j :: 0 <= i < j < |areas| ==> areas[i].id != areas[j].id
  }
}
