# Campus parking app: map gestures, building modal and occupancy screen

A Dafny model of the two screens of a campus-parking mobile app that hold
logic beyond layout.

- **Campus map** (`app/map.tsx`). Pinch and pan gestures drive six shared
  values: `scale`, `lastScale`, `translateX/Y` and `lastTranslateX/Y`.
  Pinch and pan frames move the view freely, except that a pinch never
  zooms below scale 1. When a gesture ends, the translation is clamped to
  ±`(scale·dim − dim)/2`, which keeps the zoomed image covering the window.
  Building markers open a modal. Its "View Parking" button navigates to the
  building's route.
- **Occupancy screen** (`app/witherspoon.tsx`). A load calls the fetch
  helper and updates `data`, `loading` and `error`. Retry clears the error
  and loads again. The screen shows a loading indicator, an error panel,
  the dashboard, or "No data available", in that order of precedence. The
  dashboard classifies `occupancy_rate` into three tiers, each drawn in a
  colour with a text, and draws a fill gauge.

Modules:

- `Nullable` (`nullable.dfy`): `Option` stands for a value that may be
  `null`, and `TruthyString` is JavaScript's truthiness test for a nullable
  string.
- `MapGestures` (`map_gestures.dfy`): the pure clamp and bound, the
  reducer `Step`/`Run` over gesture events, and the class `MapView`, with
  one method per gesture callback. Each method is proved equal to `Step`.
  The gesture properties are then proved as lemmas about `Run`.
- `MapBuildings` (`map_buildings.dfy`): the building table (keys, names,
  routes) and the class `BuildingModal` (`modalVisible`, `currentBuilding`).
- `OccupancyStatus` (`occupancy_status.dfy`): the summary record, the
  tiers, the status colour and text, and the fill percentage.
- `OccupancyScreen` (`occupancy_screen.dfy`): the page state and its
  reducer, the render precedence, and the class `OccupancyPage` (load
  halves, whole load, Retry).

Numbers are Dafny `real`s. Every property is about order and bounds, so
rounding plays no part. An animation `withSpring(x)` is modelled by the
value it settles at, `x`.

In three places the code behaves otherwise than one might expect, and the
model follows the code:

- The fetch helper returns the parsed JSON without checking its shape. A
  body that parses but has no `result` field therefore does not produce an
  error. It sets `data` to `undefined`, and the screen says "No data
  available". `ApiResponse.result` is an `Option` for this reason.
- At the end of a pinch, the baseline `lastTranslateX/Y` is the value read
  back right after a spring animation is assigned. It is not the clamped
  target. That read depends on the animation library, so the model takes it
  as an input (`readBackX/Y`). Only the end of a pan commits the clamped
  translation as the baseline.
- An error is never cleared by a later successful poll; only Retry clears it.

## Model

| member | source | states |
|---|---|---|
| `MapGestures.MaxTranslate` | app/map.tsx:147-148 | the bound `(scale·dim − dim)/2` is non-negative exactly when scale ≥ 1, and zero exactly when scale = 1 |
| `MapGestures.Clamp` | app/map.tsx:149-150 | with `m ≥ 0` the result lies in `[-m, m]`, equals an in-range `v`, and is the nearer end for an out-of-range `v` |
| `MapGestures.BoundMeansCoverage` | app/map.tsx:147-150 | an offset lies within ±bound exactly when the image zoomed about its centre still covers the viewport on that axis |
| `MapGestures.ClampIdempotent` | app/map.tsx:149-150 | clamping an already clamped value changes nothing |
| `MapGestures.ClampIsNearest` | app/map.tsx:149-150 | no point of `[-m, m]` is closer to `v` than its clamp |
| `MapGestures.MaxTranslateMonotonic` | app/map.tsx:128-129 | a larger scale never gives a smaller bound |
| `MapGestures.StepKeepsValid` | app/map.tsx:120-156 | each handler call keeps `scale ≥ 1` and `lastScale ≥ 1` |
| `MapGestures.RunKeepsValid` | app/map.tsx:120-135 | after any sequence of pinch and pan events, `scale ≥ 1` |
| `MapGestures.ReleasedPanIsInBounds` | app/map.tsx:145-156 | after any history ending in a pan END, the baseline equals the displayed translation, both are the clamp of the translation before release, both lie within ±bound for the current scale on each axis, and the scale is unchanged |
| `MapGestures.ReleasedPanAtMinimumZoom` | app/map.tsx:147-154 | at scale 1 a completed pan settles the view and its baseline at (0, 0) |
| `MapGestures.ReleasedPinchIsInBounds` | app/map.tsx:124-131 | after any history ending in a pinch END, `scale ≥ 1`, `lastScale = scale`, and the displayed translation is within bounds |
| `MapGestures.PanKeepsScale` | app/map.tsx:138-156 | a sequence of pan events changes neither `scale` nor `lastScale` |
| `MapGestures.PanFramesFollowLatest` | app/map.tsx:138-143 | pan frames do not accumulate: after any frames the view is the baseline plus the latest frame's translation, and the baseline and scale are unchanged |
| `MapGestures.MapView.constructor` | app/map.tsx:31-36 | the values start at scale 1 with no translation |
| `MapGestures.MapView.OnPinchGestureEvent` | app/map.tsx:120-122 | `scale = max(lastScale·factor, 1) ≥ 1`; the baselines and translations are unchanged |
| `MapGestures.MapView.OnPinchHandlerStateChange` | app/map.tsx:124-135 | on END, `scale ≥ 1`, `lastScale = scale`, the translation settles at its clamp within bounds, and the baselines are the values read back; any other state changes nothing |
| `MapGestures.MapView.OnPanGestureEvent` | app/map.tsx:138-143 | `translate = lastTranslate + delta`, unclamped; the baselines and scale are unchanged |
| `MapGestures.MapView.OnPanHandlerStateChange` | app/map.tsx:145-156 | on END, the committed baseline equals the spring target `Clamp(translate, bound)` and lies within ±bound; at scale 1 it is 0; the scale is untouched; any other state changes nothing |
| `MapBuildings.RouteOf` | app/map.tsx:82-101 | the route of every building in the table is `/` followed by its key |
| `MapBuildings.KeysAreTruthy` | app/map.tsx:114 | every key is a non-empty string, so a selected building passes the `if (currentBuilding)` test |
| `MapBuildings.BuildingModal.constructor` | app/map.tsx:26-27 | the modal starts hidden, with no building selected |
| `MapBuildings.BuildingModal.Shown` | app/map.tsx:250-261 | the modal shows a building exactly when it is visible and one is selected, and then it shows the selected building's record |
| `MapBuildings.BuildingModal.ShowBuildingInfo` | app/map.tsx:106-109 | selects the tapped building and opens the modal on it |
| `MapBuildings.BuildingModal.NavigateToBuilding` | app/map.tsx:112-117 | always hides the modal and keeps the selection; pushes a route exactly when a building is selected, and that route is the building's |
| `MapBuildings.BuildingModal.Close` | app/map.tsx:288 | hides the modal without navigating; the selection is unchanged |
| `MapBuildings.BuildingModal.RequestClose` | app/map.tsx:254 | the platform close request hides the modal without navigating; the selection is unchanged |
| `MapBuildings.LastSelectionWins` | app/map.tsx:106-109 | tapping a second marker before dismissing shows the second building |
| `OccupancyStatus.TierOf` | app/witherspoon.tsx:56-70 | the tier is Unknown exactly when there is no data; otherwise the rate lies in the tier's range: below 50, then [50, 80), then 80 and above |
| `OccupancyStatus.TierRangesPartition` | app/witherspoon.tsx:58-61 | the tier of the data is the only tier whose range contains its rate |
| `OccupancyStatus.SeverityMonotonic` | app/witherspoon.tsx:59-61 | a higher occupancy rate never gives a less severe tier |
| `OccupancyStatus.TierPresentationInjective` | app/witherspoon.tsx:56-70 | no two tiers share a colour, and no two share a text |
| `OccupancyStatus.StatusColor` | app/witherspoon.tsx:56-62 | the colour is the tier's colour: green, yellow or red, and gray `#64748b` with no data |
| `OccupancyStatus.StatusText` | app/witherspoon.tsx:64-70 | the text is the tier's text: "Plenty of spots available", "Filling up" or "Almost full", and "Unknown" with no data |
| `OccupancyStatus.ColorAndTextAgree` | app/witherspoon.tsx:56-70 | the colour names a tier exactly when the text names the same tier, and exactly when the rate lies in that tier's range |
| `OccupancyStatus.FillPercentage` | app/witherspoon.tsx:50-53 | 0 with no data; otherwise `p·total = occupied·100`, so `p` is the occupied share in percent |
| `OccupancyStatus.FillPercentageBounds` | app/witherspoon.tsx:50-53 | when `0 ≤ occupied ≤ total`, the gauge is in [0, 100], it is empty exactly when no spot is taken, and full exactly when every spot is |
| `OccupancyStatus.FillPercentageMonotonic` | app/witherspoon.tsx:50-53 | more occupied spots in the same lot never shrink the gauge |
| `OccupancyScreen.Polls` | app/witherspoon.tsx:41-45 | polling is a series of complete loads, and it never clears the error |
| `OccupancyScreen.Render` | app/witherspoon.tsx:89-180 | loading takes precedence, then a truthy error, then the data (with its status colour and text), then "No data available"; each view appears exactly under its condition |
| `OccupancyScreen.RunKeepsValid` | app/witherspoon.tsx:25-29 | the only error any sequence of events can record is "Failed to fetch data" |
| `OccupancyScreen.LoadOutcome` | app/witherspoon.tsx:21-39 | a load ends with `loading = false` whatever the outcome; success replaces `data` wholesale and leaves `error` alone; failure sets the error message and keeps the previous `data` |
| `OccupancyScreen.ErrorClearedOnlyByRetry` | app/witherspoon.tsx:25-29 | once set, the error survives every sequence of events that has no Retry clear |
| `OccupancyScreen.StaleErrorStaysVisible` | app/witherspoon.tsx:89-107 | after a failure, any number of later polls, successful or not, still end on the error panel |
| `OccupancyScreen.RetryOutcome` | app/witherspoon.tsx:99-102 | after Retry, a successful fetch shows its data (or "No data available" when the body has none); a failed one shows the error again and keeps the previous data |
| `OccupancyScreen.OccupancyPage.constructor` | app/witherspoon.tsx:16-18 | the page starts with no data, loading, and no error |
| `OccupancyScreen.OccupancyPage.StartLoad` | app/witherspoon.tsx:22-23 | a load sets `loading = true` and touches nothing else |
| `OccupancyScreen.OccupancyPage.FinishLoad` | app/witherspoon.tsx:25-38 | a response replaces `data` and leaves `error` as it was; `null` sets the error message and keeps `data`; either way `loading = false` |
| `OccupancyScreen.OccupancyPage.LoadData` | app/witherspoon.tsx:21-39 | a whole load is the start followed by the finish |
| `OccupancyScreen.OccupancyPage.Retry` | app/witherspoon.tsx:99-102 | Retry clears the error first and then performs exactly one load |

## Left out

- The fetch helper (`services/api.tsx`) is not modelled. It is an HTTP GET to a fixed local address, with JSON decoding and console logging. Its outcome is an input of `FinishLoad`: the decoded body, or `None` for `null`. `None` covers network errors, non-2xx statuses and JSON parse failures.
- The `catch` branch of `loadData` (app/witherspoon.tsx:30-35) is not modelled. The fetch helper catches every exception and returns `null` instead, so this branch cannot be reached.
- The 120-second polling timer and its cancellation on unmount are left out, because they are timers. Overlapping asynchronous loads, and a late response arriving after unmount, are left out because they are concurrency. Each load is a start event and a finish event. `Polls` is a sequence of complete loads.
- `OccupancyStatus.FillPercentage`: requires `total_spots > 0` when data is present. The source divides without a guard, and JavaScript then yields `NaN` or `Infinity`. The real numbers here cannot represent those values.
- Field types inside the response body are not checked by the source. The model assumes they have the declared types. A `vacant_spots` that disagrees with `total − occupied` is kept as received.
- Animation timing is left out. This covers spring and timing curves and durations, the marker pulse and shadow loops, and the tooltip timers (app/map.tsx:43-78). A spring is modelled by its target.
- The pinch-end baseline `lastTranslateX/Y` is not claimed to be clamped. Its value depends on the animation library's read-back and is an input of the handler.
- Rendering, styles and navigation chrome are left out. This includes the back buttons, the legend alert, the home screen links (app/index.tsx) and the PDF parking-map screen (app/parkingmap.tsx).
- Building descriptions, images, locations, hours and departments are left out. Only keys, names and routes are kept. The "Last updated" clock text (app/witherspoon.tsx:161) is left out because it reads the clock.
- Navigation is the returned route, not a router stack. Markers only ever pass the two table keys, so `ShowBuildingInfo` requires a known key.
