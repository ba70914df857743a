# Life wheel interaction engine, modelled in Dafny

The life wheel is a radial input widget with eight life categories ("Helse", "Jobb", "Kjærlighet", …). Each category has one wedge. While the pointer hovers over a wedge, the distance from the centre is turned into a live value from 0 to 10. A click commits that value. Two buttons export the chart as a PNG: one downloads it as `livshjulet.png`, the other copies it to the clipboard.

This project models the widget's engine in two versions:

- **The amCharts version** (`src/components/ui/LifeWheel.tsx`):
  - `quantizer.dfy` holds the value quantizer, `min(ceil(y·yMax), yMax)`.
  - `hover_engine.dfy` holds the hover/commit state machine. It keeps the hover series, the committed series, the column opacities and the two closure variables `lastHoverDataIndex` and `lastHoverValue`. There is a value view (`Wedges`) with one function per event handler. Lemmas prove properties about those functions, including over whole event traces. The class `LifeWheelChart` updates arrays in place and is proved to follow the functions.
  - `export_pipeline.dfy` holds `getExportedPng`, `base64ToBlob` and the data-URL prefix strip.
  - `buttons.dfy` holds the download and copy button state machines and the copy button's icon and disabled mapping.
- **The earlier recharts version** (`src/components/ui/__LifeWheelRechart.tsx`), in `rechart_wheel.dfy`. It is a pure model over maps: the initial maps, the clamp-and-round quantizer, the move and click handlers and the derived chart rows.

`wrappers.dfy` defines the `Option` type used throughout.

The geometry is taken as input:

- A cursor event arrives as an optional `(dataIndex, y)` sample. The index is the series item that `getSeriesItem` found, and `y` is the radial axis position.
- The leave test is computed from the pointer, the chart size and the axis height. It compares squared distances. `LeaveTestMatchesDistance` proves this is the same as the source's square-root comparison.
- The exporting plugin appears only as its outcome. The browser's base64 decoder is a function parameter that yields `None` where it would throw.
- Each asynchronous button handler is split into the steps it runs through: press, export settled, dwell elapsed.

Several behaviours of the code are easy to miss. The model follows the code in each of them:

- There is no "no active category" state. `lastHoverDataIndex` starts at 0, and a click before any hover writes 0 at wedge 0 (`ClickBeforeHover`).
- A click always commits `lastHoverValue`. That value can be stale. After the pointer leaves the region every wedge shows 0, but the click commits the value from before the leave (`ClickAfterLeaveCommitsPreviousValue`). Moving to a new wedge at the very centre also leaves the old value in place, and a click commits it to the new wedge (`SwitchAtCentreCommitsPreviousValue`).
- The quantizer has no lower clamp. A position at or below `-1/yMax` gives a negative value (`QuantizeSamples`). Committed values stay in `[0, 10]` as long as no cursor sample lies inside the centre (`RunKeepsCommittedInRange`).
- The highlight does not come back when the pointer re-enters the same wedge after a leave. The wedge index has not changed, so its column stays at rest opacity (`ReenterSameWedgeStaysAtRest`).
- `URL.revokeObjectURL` runs inside the `try`, not in a `finally`. A throw in a DOM step after the URL is created leaves the URL unreleased (`DownloadButton.ExportSettled`, `DownloadWithThrowingClick`).

## Model

| member | source | states |
|---|---|---|
| `Quantizer.Ceil` | src/components/ui/LifeWheel.tsx:270 | `Math.ceil` on exact reals: the result is the least integer at or above its argument |
| `Quantizer.Quantize` | src/components/ui/LifeWheel.tsx:268-270 | The value is never above `yMax`. Below the clamp it is the ceiling of `y·yMax`; once `y·yMax` exceeds `yMax` it is exactly `yMax`. It is non-negative whenever both `y·yMax` and `yMax` are |
| `Quantizer.QuantizeNonNegative` | src/components/ui/LifeWheel.tsx:268-270 | A position at or outside the centre never selects a negative value |
| `Quantizer.QuantizeMonotone` | src/components/ui/LifeWheel.tsx:270 | A position further out never selects a smaller value |
| `Quantizer.QuantizeRequantize` | src/components/ui/LifeWheel.tsx:270 | Re-quantizing the position `v/yMax` gives `v` back for every `v` in `[0, yMax]` |
| `Quantizer.QuantizeSamples` | src/components/ui/LifeWheel.tsx:268-270 | Positions 0, 0.65 and 1 select 0, 7 and 10 on the ten-step axis, and -0.25 selects -2 (no lower clamp) |
| `HoverEngine.Initial` | src/components/ui/LifeWheel.tsx:229-255 | The chart starts with all values 0 and every column at rest. Wedge 0 is remembered as hovered, with live value 0. The invariant holds |
| `HoverEngine.OnCursorMoved` | src/components/ui/LifeWheel.tsx:258-291 | With no series item nothing changes. Otherwise, on a wedge switch the old wedge goes to hover 0 and opacity 0.8 and the new wedge is highlighted at 0.3. The wedge under the cursor then shows the quantized value. The remembered value changes only when the wedge's value changed. Committed values and other wedges are untouched, and the invariant is preserved |
| `HoverEngine.Outside` | src/components/ui/LifeWheel.tsx:296-304 | A negative axis height makes every pointer outside; the chart centre is outside exactly when the axis height is negative |
| `HoverEngine.LeaveTestMatchesDistance` | src/components/ui/LifeWheel.tsx:295-304 | The squared-distance leave test holds exactly when `distance > 1.1 × maxRadius` for the non-negative root `distance` |
| `HoverEngine.OnGlobalPointerMove` | src/components/ui/LifeWheel.tsx:304-311 | Outside the region, the remembered wedge's hover value becomes 0 and its opacity 0.8, and afterwards every wedge is at rest. Inside the region nothing changes. The remembered index and value and the committed values are never touched |
| `HoverEngine.OnClick` | src/components/ui/LifeWheel.tsx:315-320 | The committed value at the remembered wedge becomes the remembered live value. No other committed value and nothing of the hover state changes |
| `HoverEngine.RunPreservesInvariant` | src/components/ui/LifeWheel.tsx:254-320 | Across any sequence of moves, leave checks and clicks, every wedge except the remembered one stays at rest. The remembered wedge is highlighted or at rest, and its hover value is 0 or the remembered value |
| `HoverEngine.RunKeepsCommittedInRange` | src/components/ui/LifeWheel.tsx:268-320 | While no cursor sample lies inside the centre, every committed value stays in `[0, 10]` |
| `HoverEngine.StepCommitsAtMostOne` | src/components/ui/LifeWheel.tsx:258-320 | Moves and leave checks never change committed values. A click changes at most the one at the remembered wedge |
| `HoverEngine.ClickBeforeHover` | src/components/ui/LifeWheel.tsx:254-255 | A click before any hover writes 0 at wedge 0 and leaves the initial state as it was |
| `HoverEngine.ClickAfterLeaveCommitsPreviousValue` | src/components/ui/LifeWheel.tsx:304-320 | After a leave every wedge is at rest, yet a click commits the live value from before the leave |
| `HoverEngine.SwitchAtCentreCommitsPreviousValue` | src/components/ui/LifeWheel.tsx:272-290 | Hover wedge 0 at 0.5, then move to wedge 1 at the centre, then click. Wedge 1 shows 0 but is committed as 5 |
| `HoverEngine.ReenterSameWedgeStaysAtRest` | src/components/ui/LifeWheel.tsx:272-311 | Re-entering the same wedge after a leave restores its hover value but not its 0.3 highlight |
| `HoverEngine.LifeWheelChart.constructor` | src/components/ui/LifeWheel.tsx:229-255 | The arrays and closure variables start in the initial state |
| `HoverEngine.LifeWheelChart.CursorMoved` | src/components/ui/LifeWheel.tsx:258-291 | The in-place handler leaves the chart in the state `OnCursorMoved` gives and keeps the invariant |
| `HoverEngine.LifeWheelChart.GlobalPointerMove` | src/components/ui/LifeWheel.tsx:294-311 | The in-place handler leaves the chart in the state `OnGlobalPointerMove` gives for the computed leave test |
| `HoverEngine.LifeWheelChart.Click` | src/components/ui/LifeWheel.tsx:315-320 | The in-place handler writes only the committed array, as `OnClick` says |
| `HoverEngine.HoverThenClick` | src/components/ui/LifeWheel.tsx:258-320 | Start from a built chart, hover wedge 3 at 0.65, then click. The committed values become `[0,0,0,7,0,0,0,0]` |
| `ExportPipeline.StripPngPrefix` | src/components/ui/LifeWheel.tsx:69 | With the PNG data-URL prefix present, the prefix followed by the result is the input. Without it, the input is returned unchanged |
| `ExportPipeline.StripPrefixed` | src/components/ui/LifeWheel.tsx:69 | Stripping a prefixed payload gives exactly the payload. Only one copy of the prefix is removed |
| `ExportPipeline.CharCodeByte` | src/components/ui/LifeWheel.tsx:48-50 | The byte stored for a character agrees with its code modulo 256, and equals the code when the code is below 256 |
| `ExportPipeline.BinaryStringBytes` | src/components/ui/LifeWheel.tsx:44-50 | One byte per character, in order, each the character's stored byte; on a binary string each byte equals its character's code |
| `ExportPipeline.BinaryStringRoundTrip` | src/components/ui/LifeWheel.tsx:44-50 | On a decoded binary string (codes below 256), reading the copied bytes back gives the string |
| `ExportPipeline.BytesRoundTrip` | src/components/ui/LifeWheel.tsx:48-50 | Every byte sequence is the copy of the binary string it reads back as |
| `ExportPipeline.Base64ToBlob` | src/components/ui/LifeWheel.tsx:43-53 | A decoder failure gives no blob. Otherwise the blob is a PNG with one byte per decoded character: its code modulo 256 |
| `ExportPipeline.ExportedPng` | src/components/ui/LifeWheel.tsx:65-80 | A blob exists exactly when the plugin renders and the decoder accepts the stripped payload. Any blob is typed PNG |
| `ExportPipeline.GetExportedPng` | src/components/ui/LifeWheel.tsx:65-80 | The export catches every failure (no plugin, a throwing render, a throwing decoder) and yields `ExportedPng` |
| `ExportPipeline.ExportedPngCarriesDecodedBytes` | src/components/ui/LifeWheel.tsx:65-71 | A rendered data URL whose payload decodes to a binary string yields a blob holding exactly that string's bytes |
| `ActionButtons.CompletesInOrder` | src/components/ui/LifeWheel.tsx:86-94 | In the download's `try` block a step completes only if every earlier step did |
| `ActionButtons.DownloadButton.constructor` | src/components/ui/LifeWheel.tsx:59 | The download button starts enabled, with nothing exported or saved |
| `ActionButtons.DownloadButton.Press` | src/components/ui/LifeWheel.tsx:82-83 | A press while disabled is ignored. Otherwise the button becomes disabled |
| `ActionButtons.DownloadButton.ExportSettled` | src/components/ui/LifeWheel.tsx:84-98 | One export runs. `livshjulet.png` is saved exactly when a blob exists and the anchor click completes. An object URL stays live exactly when it was created and its revocation did not complete. The button stays disabled |
| `ActionButtons.DownloadButton.DwellElapsed` | src/components/ui/LifeWheel.tsx:99-100 | After the dwell the button is enabled, whatever the outcome |
| `ActionButtons.DownloadButton.HandleDownload` | src/components/ui/LifeWheel.tsx:81-101 | An invocation while disabled changes nothing. Otherwise it runs one export and ends enabled |
| `ActionButtons.DownloadPressedTwice` | src/components/ui/LifeWheel.tsx:81-101 | Of two presses before the export settles, the second is rejected. Exactly one export runs, at most one file is saved, and the button ends enabled |
| `ActionButtons.DownloadWithThrowingClick` | src/components/ui/LifeWheel.tsx:86-97 | When the anchor click throws, no file is saved and one object URL stays live |
| `ActionButtons.CopyIconFor` | src/components/ui/LifeWheel.tsx:347-355 | The clipboard icon shows exactly in phase 0, the spinner exactly in phase 1, the check exactly above 1 and the cross exactly below 0 |
| `ActionButtons.CopyButtonDisabled` | src/components/ui/LifeWheel.tsx:345 | The button is enabled exactly when the clipboard icon shows |
| `ActionButtons.CopyIconMatchesText` | src/components/ui/LifeWheel.tsx:345-356 | In every consistent phase the button is enabled exactly when the clipboard icon shows. The check icon shows exactly with "Kopiert!", the cross icon exactly with "Kopiering feilet", and the idle text exactly with the clipboard or spinner icon |
| `ActionButtons.CopyButton.constructor` | src/components/ui/LifeWheel.tsx:60-61 | The copy button starts in phase 0 with "Kopier til utklippstavle" |
| `ActionButtons.CopyButton.Press` | src/components/ui/LifeWheel.tsx:104-105 | A press in any phase other than 0 is ignored. Otherwise the phase becomes 1 |
| `ActionButtons.CopyButton.ExportSettled` | src/components/ui/LifeWheel.tsx:106-128 | A blob plus an accepted write gives phase 2 with "Kopiert!" and the blob on the clipboard. A missing blob or a refused write gives phase -1 with "Kopiering feilet" |
| `ActionButtons.CopyButton.DwellElapsed` | src/components/ui/LifeWheel.tsx:116-130 | After the dwell the phase is 0 again with "Kopier til utklippstavle" |
| `ActionButtons.CopyButton.HandleCopyToClipboard` | src/components/ui/LifeWheel.tsx:103-131 | An invocation when not idle changes nothing. Otherwise it shows phase 2 with "Kopiert!" and appends the blob to the clipboard when a blob exists and the write is accepted; else it shows phase -1 with "Kopiering feilet" and leaves the clipboard unchanged. It always ends idle with the original text |
| `ActionButtons.CopyWithoutExporter` | src/components/ui/LifeWheel.tsx:103-131 | Copying with no exporting plugin shows the cross icon and "Kopiering feilet", then returns to phase 0 with the original text |
| `RechartWheel.ZeroFold` | src/components/ui/__LifeWheelRechart.tsx:43 | Folding names into a map sets exactly those names to 0 and keeps every other key |
| `RechartWheel.Initial` | src/components/ui/__LifeWheelRechart.tsx:42-47 | Both maps hold exactly the eight category names, all at 0 |
| `RechartWheel.Round` | src/components/ui/__LifeWheelRechart.tsx:64 | `Math.round` on exact reals: the nearest integer, with halves rounded up |
| `RechartWheel.QuantizeRadius` | src/components/ui/__LifeWheelRechart.tsx:62-68 | The selected value always lies in `[0, 10]` |
| `RechartWheel.QuantizeRadiusEnds` | src/components/ui/__LifeWheelRechart.tsx:62-68 | The centre selects 0. The rim and anything beyond it select 10 |
| `RechartWheel.QuantizeRadiusMonotone` | src/components/ui/__LifeWheelRechart.tsx:62-68 | For a fixed chart radius, moving outward never lowers the value |
| `RechartWheel.OnMouseMove` | src/components/ui/__LifeWheelRechart.tsx:56-75 | A move with a payload sets only that category's live value, to the quantized radius. Missing radii default to 1000 and 0. A move without a payload changes nothing, and committed values never change |
| `RechartWheel.OnClick` | src/components/ui/__LifeWheelRechart.tsx:77-79 | The committed map becomes exactly the live map. The live map is unchanged |
| `RechartWheel.Rows` | src/components/ui/__LifeWheelRechart.tsx:49-54 | There is one row per category, in category order, with its committed value, its live value and full mark 10 |
| `RechartWheel.RunStaysInRange` | src/components/ui/__LifeWheelRechart.tsx:56-79 | Across any moves and clicks, every value of both maps stays in `[0, 10]` and every category stays present |
| `RechartWheel.InitialInRange` | src/components/ui/__LifeWheelRechart.tsx:42-47 | The initial state is in range and covers every category |
| `RechartWheel.RowsAfterClick` | src/components/ui/__LifeWheelRechart.tsx:49-54 | After a click every row's committed value equals its live value and lies within its full mark |

## Left out

- Chart construction and geometry are left out: root, themes, axes, series, colour set and cursor setup (`LifeWheel.tsx:133-252`). This includes `toAxisPosition`, `getSeriesItem`, `chart.width()`/`height()` and `yAxis.maxHeight()`. These are library calls, and their results are inputs to the model.
- Column lookups through `series.columns.getIndex(i)?.` are modelled as if every column exists. Before a column is rendered, the source's optional chaining skips the opacity write.
- Floating point is left out. `Math.ceil`, `Math.round`, `Math.sqrt` and `Math.pow` are modelled on exact reals: a ceiling, a round-half-up and a squared-distance comparison.
- `RechartWheel.QuantizeRadius`: requires a non-zero chart radius. JavaScript would divide by zero there and produce `Infinity` or `NaN`. The same requirement reaches `RechartWheel.OnMouseMove` (an outer radius of exactly 0 is excluded), `RechartWheel.ValidEvent` and, through it, `RechartWheel.RunStaysInRange`.
- The export path's foreign calls are left out: `exporting.export`, `window.atob`, `Blob`, `ClipboardItem`, `navigator.clipboard.write`, `URL.createObjectURL`/`revokeObjectURL` and the DOM anchor. Only their success or failure is modelled, plus the files saved, the URLs left live and the blobs written. Base64 decoding itself is a parameter.
- Strings are modelled as sequences of Unicode code points, not UTF-16 code units. `charCodeAt` and the code point agree on the binary strings the decoder produces.
- Timers and async interleaving are left out. `sleep(2000)` is the `DwellElapsed` step. React state batching and render-time reads of `downloadBtnDisabled` and `clipboardBtnState` are modelled as direct reads and writes.
- Rendering, logging and teardown are left out: JSX, the recharts components (`__LifeWheelRechart.tsx:81-116`), `console.log`/`console.error` and `root.dispose()`.
- `src/App.tsx` (routing and layout) and `src/components/ui/ErrorBoundary.tsx` (a React fallback wrapper) contain no engine logic and are not part of this model.
