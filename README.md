# Traffic dashboard rules, modelled in Dafny

The traffic-management dashboard is a React front end over mock data. Under the presentation
layer sits a small set of rules, and this project models them and proves properties of them:

- **Synthetic telemetry tick** (`Analytics`). A 3-second timer replaces the analytics record. It
  moves the vehicle total by a random step. Each congestion area gets its own random steps: the
  level is clamped to [30, 100] and the vehicle count is floored at 50. Every other field stays
  the same. The random draws are an explicit `Jitter` argument, and `IsRandomJitter` gives the
  range of each `Math.floor(Math.random() * w - w / 2)` draw: [-10, 9] for vehicles and [-5, 4] for levels.
- **Banding and counting** (`Analytics`). `getEfficiencyColor` bands at 90/75 and
  `getCongestionColor` bands at 80/60. Both are defined but not called by the view, which colours
  the congestion bars with the same thresholds inline. The hotspot count is the number of areas
  above 70. The severity switches and the congestion-level
  switch are in `Sidebar` and `HotspotControl`. The severity-to-percentage mapping 85/72/58 and its
  text are in `HotspotControl`.
- **Manual signal control** (`SignalControl`). Three colour buttons are guarded by `isChanging`,
  the current colour and the active flag. The awaited status change is split at its delay:
  `PressButton` covers everything up to the `await`, and `CompleteStatusChange` is the
  continuation. The continuation reports the request captured at the click, exactly once.
- **Dashboard selections** (`Dashboard`). A selected signal and a selected hotspot id are set
  independently. The status update rewrites the selected signal only when the ids match. Closing
  the panel clears the signal selection. The module also holds the seed lists of signals,
  hotspots and areas.
- **Sidebar search** (`Sidebar`). This is a case-insensitive substring filter that keeps order,
  over both hotspot names and area names.

State the source keeps in React hooks is written as classes whose methods change their fields:
`AnalyticsDashboard`, `SignalControlPanel`, `TrafficDashboard` and `HotspotControlPanel`. Each
method's contract gives the whole new state. The pure updaters and derivations are functions,
and lemmas about those functions state the properties. `Seqs` holds `filter` and the
subsequence relation. `Text` holds `toLowerCase`, `includes` and decimal rendering.

Three facts about the code shape the model:

- **Independent selections.** Selecting a signal does not clear the selected hotspot, and
  selecting a hotspot does not clear the selected signal.
- **Asymmetric random steps.** `Math.floor` of a draw in [-10, 10) or [-5, 5) gives the
  integer ranges [-10, 9] and [-5, 4].
- **No nearest-signal lookup and no hotspot update operation.** A hotspot click only looks the
  hotspot up by id, and the hotspot panel never calls its `onUpdateHotspot` prop.

A change still in flight when the panel is closed still reports back, and what it does then depends
on the selection at that moment:

- With no signal selected, or a different signal selected, `WithStatus` leaves the selection
  unchanged (`Dashboard.StaleRequestIgnored`).
- If the same marker was clicked again during the delay, the late report has a matching id and
  is applied to the new selection.
- The panel shown for that second click is a new one, so its `isChanging` starts false. A second
  change for the same signal can therefore start while the first is still in flight. The later
  report decides the status (`Dashboard.LaterRequestWins`).

The status change rewrites only `selectedSignal` and never the `trafficSignals` list, which is a
constant field of `TrafficDashboard`.

## Model

| member | source | states |
|---|---|---|
| `Traffic.NamesAreDistinct` | src/components/TrafficDashboard.tsx:6-32 | the string literals of each union (status, severity, congestion level) are pairwise distinct, so a switch on them separates the values |
| `Analytics.InitialAnalytics` | src/components/AnalyticsDashboard.tsx:60-95 | the starting record has 24 active of 28 signals and four areas, and it is consistent: every level in [30,100], every vehicle count at least 50 |
| `Analytics.ClampLevel` | src/components/AnalyticsDashboard.tsx:129 | the result lies in [30,100]; it is the input when the input is in range, 30 below the range and 100 above it |
| `Analytics.FloorVehicles` | src/components/AnalyticsDashboard.tsx:130 | the result is at least 50 and at least the input, and it is one of the two |
| `Analytics.NextArea` | src/components/AnalyticsDashboard.tsx:127-131 | a ticked area keeps its name, its level is the clamp of level plus step, its vehicles the floor of vehicles plus step, and it is within both clamps |
| `Analytics.NextAnalytics` | src/components/AnalyticsDashboard.tsx:124-132 | every field except `totalVehicles` and `congestionAreas` is unchanged; `totalVehicles` moves by exactly the draw, with no clamp; the areas keep their number, order and names; every area is within its clamps whatever its previous value; a record with active ≤ total becomes consistent |
| `Analytics.LevelStepIsSmall` | src/components/AnalyticsDashboard.tsx:129 | with a draw in [-5,4], a level already in [30,100] moves by at most 5 down and 4 up |
| `Analytics.TicksKeepShape` | src/components/AnalyticsDashboard.tsx:122-136 | after any number of ticks the untouched fields (signal counts, delay, peak hours, efficiency, hourly traffic) are unchanged and the area count, order and names are kept; after one tick or more every area is within its clamps; consistency, including active ≤ total, is preserved forever |
| `Analytics.TicksVehicleDrift` | src/components/AnalyticsDashboard.tsx:126 | over n ticks with draws in [-10,9], `totalVehicles` moves by between -10n and 9n |
| `Analytics.AnalyticsDashboard.constructor` | src/components/AnalyticsDashboard.tsx:60-95 | the view starts from the initial record and is consistent |
| `Analytics.AnalyticsDashboard.Tick` | src/components/AnalyticsDashboard.tsx:122-136 | one timer firing replaces the record by the updater applied to it, and consistency is kept |
| `Analytics.AnalyticsDashboard.Hotspots` | src/components/AnalyticsDashboard.tsx:219-222 | the "Hotspots" card never shows more than the number of areas |
| `Analytics.HotAreasAreCounted` | src/components/AnalyticsDashboard.tsx:221 | filtering the areas by `level > 70` keeps exactly as many areas as a one-by-one count of the areas above 70 |
| `Analytics.HotspotCount` | src/components/AnalyticsDashboard.tsx:221 | the card's value equals the number of areas with level above 70 (`CountAbove70`), which is at most the number of areas; it is 0 exactly when no area is above 70, and it equals the number of areas exactly when all are above 70 |
| `Analytics.IsRandomJitter` | src/components/AnalyticsDashboard.tsx:124-132 | no ensures; it is the range of the three `Math.floor(Math.random() * w - w / 2)` draws, [-10,9] for vehicles and [-5,4] for levels, one pair per area; `Tick` and `TicksVehicleDrift` assume it of their draws |
| `Analytics.EfficiencyColor` | src/components/AnalyticsDashboard.tsx:138-142 | `getEfficiencyColor`, defined but not called by the view: green classes iff efficiency ≥ 90, amber iff 75 ≤ efficiency < 90, red iff efficiency < 75 (exhaustive and disjoint) |
| `Analytics.CongestionColor` | src/components/AnalyticsDashboard.tsx:144-148 | `getCongestionColor`, defined but not called by the view: `bg-red-500` iff level ≥ 80, `bg-amber-500` iff 60 ≤ level < 80, `bg-green-500` iff level < 60 |
| `SignalControl.ButtonDisabled` | src/components/SignalControlPanel.tsx:131-183 | no ensures; the `disabled` expression shared by the three buttons, whose meaning `ButtonEnabledIff` and `EnabledButtons` state |
| `SignalControl.ButtonEnabledIff` | src/components/SignalControlPanel.tsx:131-183 | the button for colour X is enabled iff no change is in flight, the signal is not showing X and the signal is active |
| `SignalControl.EnabledButtons` | src/components/SignalControlPanel.tsx:131-183 | the clickable colours are exactly the enabled ones; none while changing or for an inactive signal; for an active idle signal exactly two, never the current colour |
| `SignalControl.StatusColor` | src/components/SignalControlPanel.tsx:41-48 | the muted class is returned exactly for a string other than `red`, `amber` and `green`; the classes of the three colours are stated, and shown pairwise distinct, by `StatusColorsDistinct` |
| `SignalControl.StatusColorsDistinct` | src/components/SignalControlPanel.tsx:41-48 | red, amber and green get their red, amber and green badge classes, which are pairwise different classes, none of them the muted fallback |
| `SignalControl.SignalControlPanel.constructor` | src/components/SignalControlPanel.tsx:29 | a new panel shows its signal with no change in flight |
| `SignalControl.SignalControlPanel.Enabled` | src/components/SignalControlPanel.tsx:131-183 | the clickable colours of the panel's current state are exactly those whose button is not disabled |
| `SignalControl.SignalControlPanel.PressButton` | src/components/SignalControlPanel.tsx:31-35 | a click starts a change iff the button is enabled; a started change sets `isChanging` and holds the request (signal id, colour) for the signal shown; a disabled button changes nothing |
| `SignalControl.SignalControlPanel.CompleteStatusChange` | src/components/SignalControlPanel.tsx:37-38 | after the delay the request captured at the click is reported once, and `isChanging` is cleared with nothing left in flight |
| `SignalControl.SignalControlPanel.ReceiveSignal` | src/components/SignalControlPanel.tsx:24-29 | a new `signal` prop replaces the shown signal and keeps the panel's own state |
| `Seqs.Filter` | src/components/TrafficSidebar.tsx:44-50 | `Array.prototype.filter`: the result is no longer than the input; an element is in it iff it is in the input and passes the test; each passing element occurs as often as in the input and a failing one not at all |
| `Text.ToLower` | src/components/TrafficSidebar.tsx:45 | lowering keeps the length, maps each character on its own and leaves no upper-case ASCII letter |
| `Text.Includes` | src/components/TrafficSidebar.tsx:45 | the empty string is included in every string, and a string that is included is no longer than the one searched |
| `Text.IncludesIff` | src/components/TrafficSidebar.tsx:45 | `includes` holds exactly when the searched string occurs at some position |
| `Sidebar.CongestionColor` | src/components/TrafficSidebar.tsx:25-32 | `status-normal` is returned exactly for a string other than `high`, `medium` and `low`; the three classes are stated by `ColorsOfEnums` |
| `Sidebar.SeverityColor` | src/components/TrafficSidebar.tsx:34-41 | `status-normal` is returned exactly for a string other than `critical`, `high` and `medium`; the three classes are stated by `ColorsOfEnums` |
| `Sidebar.ColorsOfEnums` | src/components/TrafficSidebar.tsx:25-41 | high/medium/low map to status-high/medium/low, and critical/high/medium map to traffic-red/amber/green |
| `Sidebar.NameMatches` | src/components/TrafficSidebar.tsx:45 | no ensures; the search test `name.toLowerCase().includes(query.toLowerCase())`, whose meaning `NameMatchesIff` and `EmptyQueryMatchesAll` state |
| `Sidebar.NameMatchesIff` | src/components/TrafficSidebar.tsx:44-50 | the search test holds exactly when the lowered query occurs in the lowered name |
| `Sidebar.EmptyQueryMatchesAll` | src/components/TrafficSidebar.tsx:44-50 | the empty query matches every name |
| `Sidebar.FilterByName` | src/components/TrafficSidebar.tsx:44-50 | the result is a subsequence of the list; an item is in it iff it is in the list and its name matches; each kept item appears as often as in the list; the empty query gives the whole list |
| `Sidebar.FilteredHotspots` | src/components/TrafficSidebar.tsx:44-46 | the filtered hotspots are an order-preserving subsequence; a hotspot is in it iff its lowered name contains the lowered query; multiplicities are kept; the empty search gives all hotspots |
| `Sidebar.FilteredAreas` | src/components/TrafficSidebar.tsx:48-50 | the same subsequence, membership, multiplicity and empty-search rules over area names |
| `Sidebar.IsHighlighted` | src/components/TrafficSidebar.tsx:89 | no ensures; a card is highlighted when its id is the selected hotspot id; `AtMostOneHighlighted` and `Dashboard.ClickedHotspotIsHighlighted` state its consequences |
| `Sidebar.AtMostOneHighlighted` | src/components/TrafficSidebar.tsx:89-91 | with unique ids, two highlighted cards are the same card, and a highlighted card means some hotspot is selected |
| `Dashboard.SeedAreas` | src/components/TrafficDashboard.tsx:39-68 | four areas with distinct ids |
| `Dashboard.SeedSignals` | src/components/TrafficDashboard.tsx:70-103 | four signals with distinct ids; a signal is inactive iff it is `sig-4` |
| `Dashboard.SeedHotspots` | src/components/TrafficDashboard.tsx:105-136 | three hotspots with distinct ids |
| `Dashboard.FindHotspot` | src/components/TrafficDashboard.tsx:145 | none iff no hotspot has the id; otherwise the first hotspot with that id |
| `Dashboard.WithStatus` | src/components/TrafficDashboard.tsx:155-159 | the selection stays present or absent; no field but `status` changes; the status becomes the new one iff the selected id matches, otherwise it is kept |
| `Dashboard.StaleRequestIgnored` | src/components/TrafficDashboard.tsx:155-159 | with nothing selected, or another signal selected, the update leaves the selection exactly as it was |
| `Dashboard.LaterRequestWins` | src/components/TrafficDashboard.tsx:155-159 | two updates for one id leave the later status; repeating an update changes nothing more |
| `Dashboard.RequestReachesSelection` | src/components/TrafficDashboard.tsx:152-160 | a change the panel may start for the selected signal sets its status; that colour's button is then disabled and the two other colours, including the old one, are enabled |
| `Dashboard.TrafficDashboard.constructor` | src/components/TrafficDashboard.tsx:35-136 | nothing is selected at first, and the lists are the seed lists |
| `Dashboard.TrafficDashboard.ShowsSignalControl` | src/components/TrafficDashboard.tsx:199 | no ensures; the panel is rendered exactly when a signal is selected; `HandleSignalClick` and `CloseSignalControl` state when it holds |
| `Dashboard.TrafficDashboard.HandleSignalClick` | src/components/TrafficDashboard.tsx:138-140 | the clicked signal becomes selected, the control panel shows, and the hotspot selection is untouched |
| `Dashboard.TrafficDashboard.HandleHotspotClick` | src/components/TrafficDashboard.tsx:142-150 | the id becomes the selected hotspot even if no hotspot has it; the lookup result is only reported; the signal selection is untouched |
| `Dashboard.TrafficDashboard.HandleSignalStatusChange` | src/components/TrafficDashboard.tsx:152-160 | the selected signal is rewritten by `WithStatus`; the hotspot selection and the signal list are untouched |
| `Dashboard.TrafficDashboard.CloseSignalControl` | src/components/TrafficDashboard.tsx:204 | no signal is selected afterwards, so the panel is hidden; the hotspot selection is untouched |
| `Dashboard.ManualStatusChange` | src/components/TrafficDashboard.tsx:199-205 | the full flow, from click and press through the delay to the handler, runs on a new panel. It sets the selected signal's status to the target iff the signal is active and not already showing it. It ends with no change in flight and the panel showing the updated selection (the re-render with `signal={selectedSignal}`). After a started change, the target's button is disabled and exactly the two other colours, the old one among them, are enabled |
| `Dashboard.ClickedHotspotIsHighlighted` | src/components/TrafficSidebar.tsx:86-91 | after a card is clicked, that card and no other is highlighted |
| `HotspotControl.CongestionPercent` | src/components/HotspotControlPanel.tsx:163 | the progress value is a percentage in [0,100]: 85 for critical, 72 for high, 58 for medium |
| `HotspotControl.CongestionPercentText` | src/components/HotspotControlPanel.tsx:159 | the displayed text is the decimal rendering of the progress value followed by `%` |
| `HotspotControl.PercentTextReadsBack` | src/components/HotspotControlPanel.tsx:158-164 | the displayed text is digits then `%`, and its digits read back as the progress value |
| `HotspotControl.PercentFollowsSeverity` | src/components/HotspotControlPanel.tsx:159-163 | a more severe hotspot shows a strictly higher percentage, and conversely |
| `HotspotControl.SeverityColor` | src/components/HotspotControlPanel.tsx:34-41 | the grey classes are returned exactly for a string other than `critical`, `high` and `medium`; the three classes are stated, and shown pairwise distinct, by `SeverityColorsDistinct` |
| `HotspotControl.SeverityColorsDistinct` | src/components/HotspotControlPanel.tsx:34-41 | critical, high and medium get the red, amber and green badge classes respectively; these are pairwise different and none is the grey fallback |
| `HotspotControl.HotspotControlPanel.constructor` | src/components/HotspotControlPanel.tsx:29-32 | AI mode on, threshold `[70]`, redirection off, coordination on |
| `HotspotControl.HotspotControlPanel.SliderDisabled` | src/components/HotspotControlPanel.tsx:146 | no ensures; the slider is disabled exactly when AI mode is off; `HandleAiModeToggle` states how it follows the toggle |
| `HotspotControl.HotspotControlPanel.HandleAiModeToggle` | src/components/HotspotControlPanel.tsx:43-46 | sets only `aiMode`, so the slider is disabled iff AI mode was switched off |
| `HotspotControl.HotspotControlPanel.HandleInterventionChange` | src/components/HotspotControlPanel.tsx:48-51 | sets only `interventionLevel` |
| `HotspotControl.HotspotControlPanel.HandleTrafficRedirection` | src/components/HotspotControlPanel.tsx:53-56 | sets only `trafficRedirection` |
| `HotspotControl.HotspotControlPanel.HandleSignalCoordination` | src/components/HotspotControlPanel.tsx:58-61 | sets only `signalCoordination` |
| `HotspotControl.HotspotControlPanel.HandleManualIntervention` | src/components/HotspotControlPanel.tsx:63-68 | the signal-control callback is invoked iff it was provided, and always with this hotspot's id |

## Left out

- Rendering is not modelled. That covers JSX, the recharts charts, the Leaflet map and its markers and popups (src/components/TrafficMap.tsx), the settings view (src/components/SystemSettings.tsx) and the Tailwind configuration. None of them holds a rule.
- Timers are not modelled. `setInterval`/`clearInterval` become one `Tick` call per firing. The awaited `setTimeout` becomes the `PressButton`/`CompleteStatusChange` pair, so real time and durations are not represented.
- `Math.random` is not modelled. Its draws are the `Jitter` argument, restricted to the ranges the `Math.floor` expressions can produce.
- `console.log` output is not modelled. `HandleHotspotClick` returns its lookup result instead of logging it.
- Floating point is not modelled. Coordinates are whole ten-thousandths of a degree, `avgDelay` is in whole tenths, and efficiency and congestion levels are integers, as in all the data. `toFixed` and `toLocaleString` are display-only and left out.
- `Text.ToLower`: lowers only the ASCII letters A-Z. JavaScript's full Unicode case mapping is not modelled.
- The level bar and the level badge in the congestion card (src/components/AnalyticsDashboard.tsx:370-387) are not modelled separately. They use the 80/60 thresholds inline, not `getCongestionColor`. `getEfficiencyColor` and `getCongestionColor` (`Analytics.EfficiencyColor`, `Analytics.CongestionColor`) are defined but not called by the view, and `signalEfficiency` is never rendered.
- The enum unions are modelled as datatypes. The colour switches that take a `string` keep their fallback branch, but no value of the union reaches it. `HotspotControl.CongestionPercent` takes the enum, so its final `58` branch is the medium case.
- The slider's own bounds (0 to 100, step 5) are not modelled. They are enforced by the UI component, and `HandleInterventionChange` accepts whatever values it is given. The `onUpdateHotspot` and `onClose` props of the hotspot panel are not modelled either, because the panel never calls the first and the second is only a callback.
- `HotspotControl.HotspotControlPanel.HandleManualIntervention`: the optional callback is a flag. The model reports the id the callback is called with rather than calling it.
