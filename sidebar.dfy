/**
 * The sidebar: the two search boxes that filter the hotspot and area lists by name, the colour
 * classes of severities and congestion levels, and the highlight of the selected hotspot card.
 * The search strings are plain inputs here, as they are only ever set from the text fields.
 */
module Sidebar {
  import opened Util
  import opened Traffic
  import opened Text
  import Seqs

  /** `getCongestionColor`: the indicator class of a congestion literal, `status-normal` for anything else. */
  function CongestionColor(level: string): (c: string)
    ensures c == "status-normal" <==> level !in {"high", "medium", "low"}
  {
    if level == "high" then "status-high"
    else if level == "medium" then "status-medium"
    else if level == "low" then "status-low"
    else "status-normal"
  }

  /** `getSeverityColor`: the indicator class of a severity literal, `status-normal` for anything else. */
  function SeverityColor(severity: string): (c: string)
    ensures c == "status-normal" <==> severity !in {"critical", "high", "medium"}
  {
    if severity == "critical" then "traffic-red"
    else if severity == "high" then "traffic-amber"
    else if severity == "medium" then "traffic-green"
    else "status-normal"
  }

  /** What each level and each severity is shown with: its own class, never the fallback. */
  lemma ColorsOfEnums()
    ensures CongestionColor(CongestionHigh.Name()) == "status-high"
    ensures CongestionColor(CongestionMedium.Name()) == "status-medium"
    ensures CongestionColor(CongestionLow.Name()) == "status-low"
    ensures SeverityColor(Critical.Name()) == "traffic-red"
    ensures SeverityColor(High.Name()) == "traffic-amber"
    ensures SeverityColor(Medium.Name()) == "traffic-green"
  {
  }

  /** The search rule: `name.toLowerCase().includes(query.toLowerCase())`. */
  predicate NameMatches(name: string, query: string)
  {
    Includes(ToLower(name), ToLower(query))
  }

  /** The same rule stated by occurrence: the lowered query occurs somewhere in the lowered name. */
  ghost predicate MentionsQuery(name: string, query: string)
  {
    exists i :: OccursAt(ToLower(name), ToLower(query), i)
  }

  /** The executable search test and the occurrence statement agree on every name. */
  lemma NameMatchesIff(query: string)
    ensures forall name :: NameMatches(name, query) <==> MentionsQuery(name, query)
  {
    forall name ensures NameMatches(name, query) <==> MentionsQuery(name, query) {
      IncludesIff(ToLower(name), ToLower(query));
    }
  }

  /** The empty query matches every name. */
  lemma EmptyQueryMatchesAll()
    ensures forall name :: NameMatches(name, "")
  {
    assert ToLower("") == "";
    forall name ensures NameMatches(name, "") {
      IncludesEmpty(ToLower(name));
    }
  }

  /**
   * The items whose name matches the query, in their order; each kept item as often as it
   * occurs; everything when the query is empty.
   */
  function FilterByName<T(!new)>(items: seq<T>, name: T -> string, query: string): (r: seq<T>)
    ensures Seqs.IsSubsequence(r, items)
    ensures forall x :: x in r <==> x in items && MentionsQuery(name(x), query)
    ensures forall x :: multiset(r)[x] == if MentionsQuery(name(x), query) then multiset(items)[x] else 0
    ensures query == "" ==> r == items
  {
    var keep := (x: T) => NameMatches(name(x), query);
    NameMatchesIff(query);
    Seqs.FilterIsSubsequence(items, keep);
    if query == "" then
      EmptyQueryMatchesAll();
      Seqs.FilterKeepsAll(items, keep);
      Seqs.Filter(items, keep)
    else
      Seqs.Filter(items, keep)
  }

  /** `filteredHotspots`: the hotspots whose name matches `hotspotSearch`. */
  function FilteredHotspots(hotspots: seq<HotspotArea>, hotspotSearch: string): (r: seq<HotspotArea>)
    ensures Seqs.IsSubsequence(r, hotspots)
    ensures forall h :: h in r <==> h in hotspots && MentionsQuery(h.name, hotspotSearch)
    ensures forall h :: multiset(r)[h] == if MentionsQuery(h.name, hotspotSearch) then multiset(hotspots)[h] else 0
    ensures hotspotSearch == "" ==> r == hotspots
  {
    FilterByName(hotspots, (h: HotspotArea) => h.name, hotspotSearch)
  }

  /** `filteredAreas`: the traffic areas whose name matches `areaSearch`. */
  function FilteredAreas(trafficAreas: seq<TrafficArea>, areaSearch: string): (r: seq<TrafficArea>)
    ensures Seqs.IsSubsequence(r, trafficAreas)
    ensures forall a :: a in r <==> a in trafficAreas && MentionsQuery(a.name, areaSearch)
    ensures forall a :: multiset(r)[a] == if MentionsQuery(a.name, areaSearch) then multiset(trafficAreas)[a] else 0
    ensures areaSearch == "" ==> r == trafficAreas
  {
    FilterByName(trafficAreas, (a: TrafficArea) => a.name, areaSearch)
  }

  /** A hotspot card is drawn highlighted when its id is the selected one. */
  predicate IsHighlighted(selectedHotspot: Option<string>, hotspot: HotspotArea)
  {
    selectedHotspot == Some(hotspot.id)
  }

  /** With unique ids, at most one card is highlighted, and none when nothing is selected. */
  lemma AtMostOneHighlighted(hotspots: seq<HotspotArea>, selectedHotspot: Option<string>, i: int, j: int)
    requires UniqueHotspotIds(hotspots)
    requires 0 <= i < |hotspots| && 0 <= j < |hotspots|
    requires IsHighlighted(selectedHotspot, hotspots[i]) && IsHighlighted(selectedHotspot, hotspots[j])
    ensures i == j && selectedHotspot.Some?
  {
  }
}
