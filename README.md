# Timewave core model

Timewave is a browser script that inspects the animations running on a
page. For each animation it draws a timeline canvas with one bar graph per
animated property, and an SVG graph of the animation's easing curve. Almost
all of `timewave.js` is DOM, canvas and event plumbing. This project models
the deterministic logic inside it, with numbers as Dafny `real`:

- **Numberize** — the string step of `Timewave.numberize`. It cuts the first
  maximal run of ASCII letters, for example the unit of `"10px"`.
- **MinMax** — `Timewave.getMinMax`, a running maximum and minimum over a
  non-empty array.
- **Keyframes** — the fold in `Timewave.build` over the keyframe list, which
  builds the `properties` dictionary of per-property `{min, max}` records
  and skips the reserved keys `computedOffset`, `offset` and `easing`. It
  also covers the vertical scale `yrate`, which is 0 for a flat property.
- **Timeline** — `totalTime`, the displayed window `resultTotalTime`
  (a tenth longer), the time each canvas column samples, the top of each
  bar, and the column and property loops of `Timewave.updateCanvas`.
- **Easing** — the preset table of `Timewave.updateEasingGraph`,
  `Timewave.cubicBezier`, the horizontal extent `maxx` and the geometry of
  the drawn path. The graph takes its preset table as a parameter: with the
  table as written (`SourcePreset`) it draws what the code draws, and with
  the CSS table (`Preset`) it draws the curve the browser animates with.

Two host capabilities become function parameters. `number: string -> real`
stands for JavaScript's `Number(...)`. `style: (real, string) -> Option<string>`
stands for the computed style of a property after the animation is sought
to a time; `None` is a name the computed style does not have.

`totalTime` is `duration + delay` (timewave.js:66); iterations play no
part. The two preset tuples that differ from CSS are under "## Findings".

## Model

| member | source | states |
|---|---|---|
| `Numberize.FirstLetter` | timewave.js:295 | the leftmost match starts at the first letter at or after `from`: nothing before it is a letter |
| `Numberize.RunEnd` | timewave.js:295 | a greedy `[A-Za-z]+` run ends at the first non-letter |
| `Numberize.StripLetters` | timewave.js:295 | the replace never lengthens the string, and leaves it unchanged exactly when it has no ASCII letter |
| `Numberize.StripLettersRemovesFirstRun` | timewave.js:295 | for the leftmost maximal letter run `s[i..j]`, the result is `s[..i] + s[j..]`: only that run goes, everything else stays in order |
| `Numberize.FirstRunExists` | timewave.js:295 | every string with a letter has such a leftmost maximal run |
| `Numberize.StripLettersKeepsSuffix` | timewave.js:295 | the result is shorter by the run's length, keeps the prefix before the run and continues with what followed it |
| `Numberize.StripLettersExamples` | timewave.js:294-296 | `"10px"` gives `"10"`, `"-2.5em"` gives `"-2.5"`, and `"0.5"` is unchanged |
| `Numberize.StripLettersOnlyFirstRun` | timewave.js:295 | with no `g` flag only the first run is cut: `"1px2em"` gives `"12em"` |
| `MinMax.GetMinMax` | timewave.js:297-305 | on a non-empty array, `max` and `min` are elements of the array and bound every element from above and below |
| `Keyframes.Visit` | timewave.js:41-59 | one inner-loop step is `Record`: a reserved key is skipped, a first sighting sets both bounds, a later one widens them |
| `Keyframes.VisitKeyframe` | timewave.js:40-60 | the `for..in` loop over one keyframe visits its entries in order |
| `Keyframes.BuildProperties` | timewave.js:38-61 | the nested loops leave exactly `Summarize(number, keyframes)` in `properties` |
| `Keyframes.RecordAllKeys` | timewave.js:40-51 | the table stays a dictionary (each key once, names and records agree, `min <= max`); a key is in it exactly when it is not reserved and some entry has it |
| `Keyframes.RecordRangeAt` | timewave.js:52-59 | one visit keeps each record equal to the least and greatest value seen for its key |
| `Keyframes.RecordAllRanges` | timewave.js:52-59 | after any sequence of entries, each record's `min`/`max` is attained by an entry of that key and bounds all its values |
| `Keyframes.FlattenMembers` | timewave.js:39-40 | an entry is visited exactly when some keyframe has it |
| `Keyframes.SummarizeSpec` | timewave.js:39-61 | over the keyframes: reserved keys never become properties, every other key seen does (once), and each record is the minimum and maximum of that key's numberized values, so `min <= max` |
| `Keyframes.YRate` | timewave.js:76-80 | `yrate` is 0 when `max == min`; otherwise `(max - min) * yrate == height`; it is never negative on an interval |
| `Timeline.TotalTime` | timewave.js:66 | the animation ends no earlier than its delay and no earlier than its duration when the other part is not negative |
| `Timeline.ResultTotalTime` | timewave.js:101 | the window is 11/10 of the total time, so a positive animation ends strictly inside it |
| `Timeline.SampleTimeInWindow` | timewave.js:176-182 | for columns `0 <= x < width`, the sampled time lies in `[0, resultTotalTime)`; column 0 samples time 0 |
| `Timeline.SampleTimeIncreasing` | timewave.js:181-182 | columns further right sample strictly later times |
| `Timeline.SampleTimeBeforeEnd` | timewave.js:177-182 | with the window built from `duration + delay`, a column samples before the animation's end exactly when `11 * x < 10 * width`; the rest of the canvas is the trailing margin |
| `Timeline.BarTopEnds` | timewave.js:193 | the bar top is `height` at `min`, 0 at `max` when `max != min`, and `height` for every value of a flat property |
| `Timeline.BarTopWithinCanvas` | timewave.js:193 | a value inside `[min, max]` draws within `[0, height]`, and a greater value draws a taller bar |
| `Timeline.BarTopExample` | timewave.js:193 | keyframe values 0 and 100 on a canvas 200 high give `yrate == 2`, and a sample of 50 rises to 100 |
| `Timeline.DrawColumn` | timewave.js:185-195 | fails exactly when some property has no computed value (`numberize(undefined)` throws); otherwise one bar per property, in key order, each at the bar top of that property's sampled value |
| `Timeline.UpdateCanvas` | timewave.js:176-196 | fails exactly when some column meets a property without a computed value; otherwise `width` columns, column `x` sampling time `x * resultTotalTime / width`, and bar `i` the bar top of property `names[i]` at that time |
| `Easing.SourcePreset` | timewave.js:219-240 | the switch as written: defined exactly for `linear`, `ease`, `ease-in`, `ease-in-out` and `ease-out`, each tuple in the unit square |
| `Easing.Preset` | timewave.js:219-240 | the corrected table: the same five names, with the CSS control values, each in the unit square |
| `Easing.SourcePresetDiffers` | timewave.js:224-235 | the tuples as written for `ease` and `ease-in-out` differ from the CSS ones; the other three names agree |
| `Easing.CubicBezierRoundTrip` | timewave.js:247-249 | on a non-degenerate box, mapping control values to drawing space and reading them back are inverse in both directions |
| `Easing.CubicBezierInBox` | timewave.js:247-249 | for both control points, y = 1 maps to 0 and y = 0 to `maxy`; a curve in the unit square maps into `[0, maxx] x [0, maxy]` when both are non-negative |
| `Easing.MaxX` | timewave.js:215-216 | `maxx` is a finite number exactly when the window is non-empty |
| `Easing.MaxXIsShareOfWidth` | timewave.js:215-216 | with the window `build` derives from `duration + delay`, `maxx` is 10/11 of the view-box width, whatever the delay and duration |
| `Easing.EasingGraph` | timewave.js:212-245 | for a given preset table, the graph exists exactly when the table knows the name and the window is non-zero (otherwise the code throws on `p` or has no finite `maxx`) |
| `Easing.EasingGraphSpec` | timewave.js:212-245 | with the CSS table, the graph exists exactly for the five names and a non-zero total time; it starts at the bottom left, ends at the top right over `maxx`, drops back to the baseline, and its drawn control points read back as the named curve |
| `Easing.EasingGraphInBox` | timewave.js:212-245 | with the CSS table, for a positive animation and a non-negative box, both control points lie inside `[0, maxx] x [0, height]` |
| `Easing.EaseDrawnAsWritten` | timewave.js:224-226 | the graph drawn with the table as written puts `ease`'s first control point at the top of the box; with the CSS table it sits at 0.9 of the height |

## Left out

- DOM templating and layout are not modelled. This covers cloning, `querySelector`, class toggling, `style` writes and the target name (timewave.js:23-36, 69-99, 197-201, 308-334). None of it has behaviour outside the browser.
- Event and scheduling code is not modelled: the click listeners (timewave.js:264-288), the `requestAnimationFrame` observer and `replay` (timewave.js:129-162), and the `DOMContentLoaded` hook (timewave.js:336-338). The host drives all of it.
- Seeking `animation.currentTime`, `getComputedStyle` and `getAnimations` (timewave.js:130, 169, 183-184) are browser calls. The model takes the computed style as the parameter `style`. It does not model that `updateCanvas` leaves the animation at the last sampled time.
- The canvas stroke calls, the `COLORS` stroke styles and the SVG `d` string (timewave.js:186, 191-194, 242-244) are left out. The model keeps the geometry: the bar tops and the points of the path.
- `Number(...)` in `numberize` is floating-point parsing, so it is the parameter `number`. The ruler labels (timewave.js:102-110) are number formatting and style writes.
- The id assignment in `buildAll` (timewave.js:16-19) is left out. It is plumbing, and every animation gets `animation-1` because `idcount` never increases.
- JavaScript double rounding, NaN and the infinities are not modelled. All arithmetic is exact on `real`, and `1.1` is exactly 11/10.
- Easing.MaxX: returns `None` where JavaScript computes NaN, which happens when the window is 0. `EasingGraph` then has no geometry, while the code writes a path with NaN coordinates.
- Keyframes.BuildProperties: takes each keyframe as the list of keys its `for..in` visits. Browsers that also report a `composite` key feed it through like any other property; `UpdateCanvas` then fails, because the computed style has no such property.
- Timeline.UpdateCanvas: returns the bar tops instead of drawing them, and a failure returns nothing, where the code has already drawn the bars before the one that throws. With `width == 0` it returns no columns and never computes `xrate`; the code computes a non-finite `xrate` that it never uses.
- MinMax.GetMinMax: the empty array is excluded; the code then returns `undefined` for both bounds, a value the model does not have.

## Findings

| source | as written | input that shows it | evidently intended | confidence | as-written member | corrected member |
|---|---|---|---|---|---|---|
| timewave.js:224-226 | `ease` is drawn as `cubicBezier(0.25, 1, 0.25, 1)` | easing `"ease"`: the first control point is drawn at the top of the box (`cy1 == 0`) | `cubic-bezier(0.25, 0.1, 0.25, 1)`, the curve the browser animates with (CSS Easing Functions Level 1, section 2.2) | not executed; high (y1 = 1 looks like 0.1 with the `.1` dropped) | `Easing.SourcePresetDiffers` | `Easing.EasingGraphSpec` |
| timewave.js:232-234 | `ease-in-out` is drawn as `cubicBezier(0.48, 0, 0.58, 1)` | easing `"ease-in-out"`: `x1` is 0.48 | `cubic-bezier(0.42, 0, 0.58, 1)` (CSS Easing Functions Level 1, section 2.2) | not executed; high (0.42 is the `ease-in` value the code uses two cases above) | `Easing.SourcePresetDiffers` | `Easing.EasingGraphSpec` |
