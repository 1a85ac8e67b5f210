# Resource/demand map dashboard — a Dafny model of its deterministic core

The dashboard overlays two user-uploaded datasets on a city map: medical
resource sites (with a capacity) and demand points (a case count per
village). An AI service turns uploaded CSV text into records and writes a
strategic report once both datasets are loaded. This project models the
parts of that program that are pure logic, and proves what they promise:

- `map_component.dfy` (`MapComponent`): the ten-step colour ramps that
  encode a magnitude per hundred (`getResourceColor`, `getDemandColor`),
  and which circle markers are drawn for the visible layers.
- `app.dfy` (`App`): the session owned by the top-level component — both
  stores, the visible-layer set, the density scale, the report text, the
  `loading` / window-open / minimised flags — with one transition function
  per handler, the derived aggregates, and the 1500 ms debounce driven by
  an explicit virtual clock (`Tick`): each store change cancels the armed
  timer and arms a new one; a passed deadline fires once, and requests a
  report only when both stores hold records.
- `sidebar.dfy` (`Sidebar`): the upload handler — each parsed record gets
  `id = prefix + index + "-" + clock reading`, the tagged batch is appended,
  failures leave the session alone, the busy flag and file input are reset.
- `gemini_service.dfy` (`GeminiService`): the fallback geocoder over a
  district table, the 15-record payload truncation, and the treatment of
  an absent, empty or unparsable extraction reply as an empty array.
- `types.dfy`, `decimal.dfy`, `wrappers.dfy`: the records, decimal
  numerals of whole numbers, and `Option` / `Settled`.

Inputs the program takes from its environment are parameters: the virtual
clock (`now`, `dt`), the `Date.now()` readings (`clock(i)` for record `i`),
the `Math.random()` draws (`r1`, `r2`), the district table, the extraction
reply (`ServiceReply`), `JSON.parse` (a function returning `None` when it
throws) and the report reply (`InsightReply`). Every member is a pure
function, so the classifier reads no state and always gives the same token
for the same magnitude and layer.

Behaviour the model takes from the code as written, where a reader might
expect otherwise:
- the timer is re-armed on every store change whatever the store sizes
  (also by the mount, an empty batch, and a reset); the size test happens
  only when it fires;
- a malformed extraction reply does not surface as an error: the parse
  helper returns an empty array and the empty batch is loaded silently;
  only a failed call or a non-array JSON value (whose `.map` throws) takes
  the failure path;
- identities are unique within a batch for any clock readings; since
  indices restart at 0 in every batch, two records of different batches
  share an identity exactly when they have the same index and the same
  clock reading (`Sidebar.ResourceIdsAcrossBatches`); a later upload, whose
  readings all come after the earlier one's, therefore never collides
  (`Sidebar.LaterUploadKeepsIdsDistinct`);
- an empty district hint is falsy and is not searched, like an absent one.

## Model

| member | source | states |
|---|---|---|
| MapComponent.Level | components/MapComponent.tsx:23 | the level is the floor of the magnitude over 100: 100·level <= m < 100·(level+1), negatives included |
| MapComponent.BucketIndex | components/MapComponent.tsx:23-33 | the step is the floored level clamped into 0..9: 0 for any level <= 0, 9 for any level >= 9, the level itself in between |
| MapComponent.ResourceColor | components/MapComponent.tsx:22-34 | `getResourceColor` always yields a blue-ramp token, the one at the clamped step |
| MapComponent.DemandColor | components/MapComponent.tsx:37-49 | `getDemandColor` always yields a rose-ramp token, the one at the clamped step |
| MapComponent.Classify | components/MapComponent.tsx:121 | the colour chosen for a record is a token of its own layer's ramp and never one of the other layer's |
| MapComponent.ClassifyIsPaletteEntry | components/MapComponent.tsx:22-49 | the colour chain always yields the palette entry at the clamped step, so every magnitude gets exactly one of the ten tokens of its layer |
| MapComponent.LightestBelowOneHundred | components/MapComponent.tsx:23-24 | every magnitude below 100, negatives included, gets the lightest token (`#dbeafe` / `#ffe4e6`) |
| MapComponent.DarkestFromNineHundred | components/MapComponent.tsx:33 | every magnitude from 900 up gets the darkest token (`#172554` / `#4c0519`) |
| MapComponent.MiddleBucket | components/MapComponent.tsx:25-32 | a magnitude in [100k, 100(k+1)) with 1 <= k <= 8 gets step k of its ramp |
| MapComponent.ClassifyExamples | components/MapComponent.tsx:22-49 | 50 gives `#dbeafe`, 250 gives `#93c5fd`, 950 gives `#172554`, a negative count gives `#ffe4e6` |
| MapComponent.BucketIndexMonotone | components/MapComponent.tsx:23 | a larger magnitude never falls into a lower step |
| MapComponent.ClassifyMonotone | components/MapComponent.tsx:22-49 | a larger magnitude never gets a lighter token: ranks on the ramp are ordered like the magnitudes |
| MapComponent.PalettesDistinct | components/MapComponent.tsx:24-33 | the ten tokens of each ramp are pairwise distinct, so a token's rank is its step |
| MapComponent.PalettesDisjoint | components/MapComponent.tsx:39-48 | no resource token is a demand token |
| MapComponent.ResourceMarkers | components/MapComponent.tsx:118-123 | with the resource layer visible, one marker per record in store order at its coordinates, radius 12, coloured by capacity; hidden, no markers |
| MapComponent.DemandMarkers | components/MapComponent.tsx:152-157 | with the demand layer visible, one marker per record in order, radius 12 times the density scale, coloured by count; hidden, no markers |
| MapComponent.ResourceMarkersIgnoreDensity | components/MapComponent.tsx:122-123 | the drawn resource markers are the same for every density scale and all have radius 12 |
| MapComponent.Render | components/MapComponent.tsx:116-179 | after a redraw a hidden layer has no markers and a shown one has one per record; resource markers have radius 12 and a blue token, demand markers radius 12 times the density scale and a rose token |
| MapComponent.LayersDrawnIndependently | components/MapComponent.tsx:116-179 | hiding one layer does not change the other layer's markers |
| GeminiService.Includes | services/geminiService.ts:99 | the empty name is found in every text, and a name longer than the text is never found |
| GeminiService.IncludesWitness | services/geminiService.ts:99 | when the substring test holds, the name occurs at some position of the text |
| GeminiService.OccursGivesIncludes | services/geminiService.ts:99 | an occurrence of the name at any position makes the substring test hold |
| GeminiService.IncludesIffOccurs | services/geminiService.ts:99 | the substring test holds exactly when the name occurs at some position of the text |
| GeminiService.RowMatches | services/geminiService.ts:99 | a row matches whenever its name is in the address; without a hint, or with an empty one, it matches exactly then |
| GeminiService.Geocode | services/geminiService.ts:97-107 | the result is the centre of the first matching row in table order plus the two jitters, or exactly (22.9997, 120.2270) without jitter when no row matches |
| GeminiService.GeocodeWithoutHint | services/geminiService.ts:99 | without a district hint (or with an empty one) only the address is searched; no name in the address gives the fixed centre |
| GeminiService.Jitter | services/geminiService.ts:100-103 | a draw in [0, 1) moves a coordinate by an offset in [-0.0025, 0.0025), and by nothing exactly for the draw 0.5 |
| GeminiService.GeocodeNearACentre | services/geminiService.ts:98-106 | with draws in [0, 1), the result is the fixed centre or within 0.0025 degrees per axis of a matching row's centre |
| GeminiService.Take | services/geminiService.ts:116-117 | the slice has length min(size, n) and is a prefix of the input |
| GeminiService.InsightPayload | services/geminiService.ts:112-117 | the report request carries prefixes of both stores of length min(size, 15): the whole store when it is small, exactly 15 records otherwise |
| GeminiService.ReplyText | services/geminiService.ts:45 | absent and empty reply text are read as `[]`; any other text is read as it is |
| GeminiService.ParseCsvReply | services/geminiService.ts:44-49 | a failed call rejects; an answered call never rejects: absent, empty or unparsable text gives the empty array, parsable text gives what it parses to |
| App.Initial | App.tsx:10-19 | the session starts at clock 0 with empty stores, both layers visible, density 1.0, no report, all flags false, and the mount's timer armed for 1500 ms |
| App.Session.Rearm | App.tsx:61-67 | re-arming replaces any pending timer by one due a quiet period from now, keeps the timer invariant, and changes nothing else |
| App.ToggleLayer | App.tsx:21-28 | toggling flips membership of that layer only; the other layer and the rest of the session are unchanged |
| App.ToggleTwiceRestores | App.tsx:21-28 | toggling the same layer twice restores the session |
| App.HandleReset | App.tsx:30-35 | resetting empties only that layer's store, clears the report and closes its window whichever layer it was, and re-arms the timer |
| App.ResetIdempotent | App.tsx:30-35 | resetting a layer twice is the same as resetting it once |
| App.HandleDataLoaded | App.tsx:37-43 | loading a batch appends it, in order, to its own layer's store only, and re-arms the timer; nothing else changes |
| App.EmptyBatchKeepsStores | App.tsx:39-41 | loading an empty batch leaves both stores as they were |
| App.Sum | App.tsx:72 | the fold of an empty list is 0, and of a list with non-negative terms is non-negative |
| App.SumAppend | App.tsx:72 | the fold of two concatenated lists is the sum of their folds |
| App.TotalCapacity | App.tsx:84 | the header's capacity total is 0 for no sites and never negative when no capacity is |
| App.TotalCount | App.tsx:72 | the demand count total is 0 for no records and never negative when no count is |
| App.DataLoadedAggregates | App.tsx:37-43 | a load adds the batch's length to its store's length and the batch's total to its store's total |
| App.AverageDemand | App.tsx:71-73 | the average is 0 for no demand records; otherwise it times the number of records equals the total count |
| App.AverageDemandExample | App.tsx:71-73 | counts 100 and 300 average to 200 |
| App.GenerateInsights | App.tsx:45-49 | with either store empty nothing happens; otherwise loading starts, the window opens un-minimised, and the request carries at most 15 records of each kind |
| App.CompleteInsights | App.tsx:50-58 | completion always stops loading; an answer stores its text (empty when absent), a failure stores the fixed fallback message; nothing else changes |
| App.Tick | App.tsx:61-68 | a wait before the armed deadline only moves the clock; a wait past it spends the timer and, exactly when both stores are non-empty, sets loading, opens the window un-minimised and issues a request with the current stores' prefixes; otherwise it issues nothing |
| App.NoFireWithinQuietPeriod | App.tsx:31-68 | after a store change (a load or a reset), no request is issued before 1500 ms have passed, whatever timer was armed before it |
| App.QuietPeriodFires | App.tsx:61-68 | an armed timer with both stores non-empty issues the request within one quiet period, starting the loading state |
| App.FiresAtMostOnce | App.tsx:62-67 | a timer that fired is spent: further waiting issues no second request |
| App.DebounceScenario | App.tsx:61-68 | loads at 0 ms and 1000 ms issue nothing at 1000 ms or 1500 ms and the request at 2500 ms |
| App.OpenInsights | App.tsx:161 | reopening shows the report window un-minimised and changes nothing else |
| App.ReopenKeepsData | App.tsx:161 | reopening keeps the stores, the report text, the timer and whether the reopen button is offered |
| App.Session.HasInsights | App.tsx:162 | the reopen button is offered exactly when the report text is non-empty |
| App.ReportButtonShown | App.tsx:162 | the reopen button is absent on mount and after any reset, present after a failed request, and present after an answer exactly when the answer has text |
| App.CloseInsights | App.tsx:107 | closing hides the window and changes nothing else |
| App.ToggleMinimize | App.tsx:108 | minimising flips the minimised flag and changes nothing else |
| App.SetDensityScale | App.tsx:158 | the slider sets the density scale and changes nothing else |
| App.Apply | App.tsx:21-68 | only waiting moves the clock, and no other event issues a report request |
| App.ApplyPreservesValid | App.tsx:61-68 | under every event an armed deadline stays within the next 1500 ms |
| App.RequestsOnlyFromTimer | App.tsx:45-68 | no event except waiting past an armed deadline with both stores non-empty issues a report request |
| App.StoresAndReportOwnership | App.tsx:30-59 | only loading and resetting change the stores; only a report completion and a reset change the report text |
| Decimal.NatToString | components/Sidebar.tsx:49 | an index renders to a non-empty string of digits, of length one exactly below 10 |
| Decimal.NatToStringInjective | components/Sidebar.tsx:49 | distinct numbers render to distinct numerals |
| Sidebar.SplitAtFirstDash | components/Sidebar.tsx:49 | a numeral followed by `-` is recovered, with what follows, from the joined text |
| Sidebar.ItemId | components/Sidebar.tsx:49 | an identity is its prefix, then the index's numeral, then `-`, then a non-empty numeral (the reading's) |
| Sidebar.ItemIdInjective | components/Sidebar.tsx:49 | an identity with a given prefix determines both its index and its clock reading |
| Sidebar.ItemIdsDiffer | components/Sidebar.tsx:49 | identities with the same prefix differ whenever their indices or their readings differ |
| Sidebar.PrefixesSeparateLayers | components/Sidebar.tsx:47-57 | an identity starting `res-` never equals one starting `dem-` |
| Sidebar.TagResources | components/Sidebar.tsx:47-50 | tagging keeps length and order, keeps every field of each record, adds `res-<index>-<reading>`, and gives pairwise distinct identities whatever the readings |
| Sidebar.TagDemands | components/Sidebar.tsx:54-57 | tagging keeps length and order, keeps every field of each record, adds `dem-<index>-<reading>`, and gives pairwise distinct identities whatever the readings |
| Sidebar.ResourceIdsAcrossBatches | components/Sidebar.tsx:47-50 | a record of one upload and a record of another share an identity exactly when they have the same index and the same reading |
| Sidebar.TwoResourceBatchesDistinct | components/Sidebar.tsx:47-51 | across two uploads all identities are distinct unless some index gets the same reading in both |
| Sidebar.JoinedIdsDistinct | components/Sidebar.tsx:47-51 | the same, for any two joined batches whose identities were formed by index and reading |
| Sidebar.LaterUploadKeepsIdsDistinct | components/Sidebar.tsx:47-51 | two uploads, the second read later (sizes 3 and 5, say), give a store of their summed size with pairwise distinct identities |
| Sidebar.LayersNeverShareIds | components/Sidebar.tsx:47-57 | no tagged resource shares an identity with a tagged demand record |
| Sidebar.BeginUpload | components/Sidebar.tsx:36-40 | without a selected file nothing happens; with one the panel becomes busy |
| Sidebar.TaggedBatch | components/Sidebar.tsx:44-62 | a batch reaches the store exactly when the parse resolved to an array, and it is then the tagged parsed array for the layer whose input fired |
| Sidebar.FinishUpload | components/Sidebar.tsx:44-66 | the panel always ends idle with the input cleared; a throw leaves the session exactly as it was; otherwise the tagged batch is loaded |
| Sidebar.ResourceUploadAppends | components/Sidebar.tsx:45-51 | a resource upload keeps the old records as a prefix and appends the parsed ones in order, each with only an identity added; demand is untouched |
| Sidebar.DemandUploadAppends | components/Sidebar.tsx:52-58 | a demand upload keeps the old records as a prefix and appends the parsed ones in order, each with only an identity added; resources are untouched |
| Sidebar.FailedCallKeepsSession | components/Sidebar.tsx:60-62 | a failed extraction call leaves the whole session untouched |
| Sidebar.EmptyReplyKeepsStores | components/Sidebar.tsx:46-51 | an absent, empty or unparsable reply loads an empty batch: both stores keep their contents, and the timer is re-armed |

## Left out

- Map rendering through Leaflet (panes, tiles, zoom control, district labels, popups) and the remote boundary fetch with its county-name filter: drawing through an unseen library and network input; markers are values here.
- The AI calls themselves, their prompts and response schemas: a remote service; the model takes their replies as inputs.
- `JSON.parse` internals: abstracted as a function that returns the parsed value or nothing when it throws; records are assumed to carry the schema's fields (an item missing a field is not modelled).
- Sidebar.FinishUpload: models only a successful file read. The source sets no read-error handler, so a failed read never reaches the `finally` that clears the busy flag; the panel then stays busy and both upload buttons stay disabled. The idle panel holds only once the read has succeeded.
- FileReader: browser input.
- Template downloads, the report download, `alert`, `console.error`, and the report window's rendering: browser input and output.
- Real timers, `Date.now()` and `Math.random()`: replaced by a virtual millisecond clock and explicit readings and draws.
- Overlapping report requests, where a late reply overwrites a newer one: an interleaving of asynchronous completions, not a sequential property; each completion is applied to the session as it is when it arrives.
- Magnitudes are whole numbers: fractional and non-finite magnitudes (a NaN falls through every test to the darkest token) and IEEE-754 rounding are not modelled; coordinates and the density scale are exact reals.
- `toFixed(1)` and `toLocaleString` formatting of the aggregates: string formatting; `App.AverageDemand` returns the unformatted mean, with 0 standing for the literal `"0"`.
- The district-centroid table and the city centre constant live in a constants file that is not part of this model; the table is a parameter of `GeminiService.Geocode`.
- The density slider's bounds and step, and the buttons disabled while busy: user-interface constraints on input, not logic.
