# Portfolio site animations, modelled in Dafny

This is a Dafny model of the three parts of a personal portfolio site that have logic you can state precisely. Everything else in the site is styling and browser calls.

- **Text scramble** (`Scramble`, `scramble.dfy`). This is the `TextScramble` class behind the landing-page title. `setText` builds one queue entry per character position. Each entry holds the old character, the new character, a start frame and an end frame. Each `update` writes the text for the current frame: a position shows the old character before its start frame, a random glyph between start and end, and the new character from its end frame on. `update` then either stops, when every entry has settled, or moves to the next frame. `ScrambledTitle` steps through five phrases in a loop.
- **Falling characters** (`Rain`, `rain.dfy`). This is the `RainingLetters` background: 200 random characters, a per-frame fall step that wraps characters back to the top, and a tick that picks up to five highlighted positions. The same code appears twice in the source, in `components/MatrixRain.tsx` and at `components/modern-animated-hero-section.tsx:135-187`. It is modelled once, and the table cites `MatrixRain.tsx`.
- **Rotating globe** (`Globe`, `globe.dfy`). This is the `RotatingEarth` canvas component. It covers:
  - sizing the container;
  - the rotation, drag-flag and scale state, updated by the autorotation timer, the three drag handlers and the wheel handler;
  - sampling land dots on a 2-degree lattice inside every land feature;
  - the `render` routine as a list of draw commands.

Two helper modules: `Options` (an `Option` datatype) and `Sampling`. `Sampling` defines the type of a `Math.random()` result (a real in [0, 1)) and `Math.floor(Math.random() * n)`.

How the browser is abstracted:
- Every `Math.random()` result is a parameter of type `Sampling.Unit`. The model fixes which draw is used for what. It does not model their distribution.
- Animation frames, timers and intervals are explicit method calls. `requestAnimationFrame(this.update)` becomes "the caller calls `Update` again while `animating` holds". The globe's `d3.timer` callback is `Tick`, and each pointer or wheel listener is a method.
- The heading's `innerText` is the field `TextScramble.text`. The globe's state is the fields of `RotatingEarth`.
- Three d3 calls are function parameters: the orthographic projection (`project`), `d3.geoBounds` (`bounds`) and `d3.geoContains` (`contains`). The loaded dataset is a sequence of features of an arbitrary type `F`.
- Canvas drawing is a `Cmd` sequence. Each redraw is returned by the method that triggers it.
- Numbers are Dafny `real`s, with no floating-point rounding.

Two behaviours of the globe code are worth stating outright:
- The code does not clamp a small window: `Math.min(containerWidth, containerHeight) / 2.3` can be zero or negative. `Globe.Measure` and `Globe.ScaleOk` say what then happens: for a non-positive radius the wheel handler always sets the scale to half the radius. `Render` marks widths computed by dividing by a zero radius as `None` (not finite).
- The code has no resize listener. It measures once per mount (per change of `width`/`height`), and so does the model.

In `TextScramble`, the pending frame request and the unresolved promise of the last `setText` are one field, `animating`. The source requests a frame exactly when it does not resolve, so the two always agree.

## Model

| member | source | states |
|---|---|---|
| `Sampling.Scaled` | components/modern-animated-hero-section.tsx:44 | `Math.floor(r * n)` is an index below `n` when `n > 0`, and 0 when `n == 0`; it is the floor of `r * n`. |
| `Scramble.CharAt` | components/modern-animated-hero-section.tsx:42-43 | Defines `s[i]` with the empty string as fallback: the one-character string at `i`, or the empty string past the end. Used by `Plan`; its properties are proved through `TargetOfPlanPrefix`. |
| `Scramble.NewEntry` | components/modern-animated-hero-section.tsx:42-46 | Defines one planned entry: `from` and `to` are the characters at `i` (or empty), `start` is a draw below 40 and `end` is `start` plus a second draw below 40. `Plan` states what the entries are; `FinishedByLastEnd` bounds their end frames. |
| `Scramble.Plan` | components/modern-animated-hero-section.tsx:32-47 | The queue has exactly as many entries as the longer of the old and new texts has characters. Entry `i` goes from `old[i]` (or `""` past the end) to `new[i]` (or `""`), has no glyph yet, and has `0 <= start <= 39` and `start <= end <= start + 39`. |
| `Scramble.PickGlyph` | components/modern-animated-hero-section.tsx:72 | A drawn glyph is always one of the 18 scramble characters. |
| `Scramble.Rerolled` | components/modern-animated-hero-section.tsx:67-74 | Defines one entry after an `update` at a frame: unchanged before `start` or from `end` on; in between a new glyph when it has none or the draw is below 0.28, otherwise the old glyph. Its properties are proved in `RefreshSpec`. |
| `Scramble.Refresh` | components/modern-animated-hero-section.tsx:59-79 | Defines the queue after one `update`: every entry rerolled with its own draws, same length. Its properties are proved in `RefreshSpec` and `RefreshKeepsConsistent`. |
| `Scramble.Cell` | components/modern-animated-hero-section.tsx:67-78 | Defines the text an entry writes at a frame: `to` from `end` on, the glyph between `start` and `end`, `from` before `start`. `RenderFinished` and `Visit` use it. |
| `Scramble.Render` | components/modern-animated-hero-section.tsx:56-79 | Defines `output`: the cells of the first `n` entries, in queue order. `Sweep` is proved to build exactly this; `RenderFinished` gives it once every entry has settled. |
| `Scramble.Done` | components/modern-animated-hero-section.tsx:56-68 | Defines `complete`: how many of the first `n` entries have reached their end frame. Its properties are proved in `DoneCountsFinished`. |
| `Scramble.RefreshSpec` | components/modern-animated-hero-section.tsx:59-79 | `update` changes only the glyph of each entry, and only while `start <= frame < end`. There it leaves a glyph from the scramble set, and an existing glyph survives unless the 0.28 reroll fires. Other entries are untouched. |
| `Scramble.Visit` | components/modern-animated-hero-section.tsx:60-78 | One pass of the loop body: the entry comes back exactly as `Refresh` prescribes for it, the cell written is that entry's cell at the current frame, and it counts as complete exactly when `frame >= end`. |
| `Scramble.Sweep` | components/modern-animated-hero-section.tsx:56-79 | The loop leaves the refreshed queue, writes the cells of all positions in order, and counts exactly the settled positions. |
| `Scramble.DoneCountsFinished` | components/modern-animated-hero-section.tsx:67-83 | After the first `n` positions the `complete` counter is at most `n`, and equals `n` exactly when each of them has `frame >= end`. |
| `Scramble.RenderFinished` | components/modern-animated-hero-section.tsx:67-69 | Once the first `n` entries have settled, the text written for them is the concatenation of their `to` parts. |
| `Scramble.RefreshKeepsConsistent` | components/modern-animated-hero-section.tsx:59-88 | An update keeps every entry well timed with a glyph from the scramble set, and keeps the text the queue settles on. It resolves exactly when every entry has settled, the text it then writes is that target text, and while some entry is unsettled the frame is below 78. |
| `Scramble.TargetIgnoresGlyphs` | components/modern-animated-hero-section.tsx:73 | Writing glyphs back into the queue does not change the text the queue settles on. |
| `Scramble.TargetOfPlanPrefix` | components/modern-animated-hero-section.tsx:41-46 | The `to` parts of the first `n` planned entries spell the first `n` characters of the new text (all of it once `n` passes its length). |
| `Scramble.PlanSpellsNewText` | components/modern-animated-hero-section.tsx:43 | The planned queue settles on the new text exactly. |
| `Scramble.FinishedByLastEnd` | components/modern-animated-hero-section.tsx:44-45 | Every planned entry has settled by frame 78. |
| `Scramble.UpdatesToFinish` | components/modern-animated-hero-section.tsx:81-88 | From frame `f`, the number of `update` calls up to the one that resolves is between 1 and `79 - f`. The last of them sees every entry settled, and none before it does. |
| `Scramble.TextScramble.constructor` | components/modern-animated-hero-section.tsx:21-29 | A new scrambler has an empty queue, frame 0, no pending animation, and shows the element's text. |
| `Scramble.TextScramble.SetText` | components/modern-animated-hero-section.tsx:31-53 | The new queue is the plan over the displayed text with one update applied at frame 0. The text written is that frame's rendering. The frame is 1 if still animating and 0 if already finished, in which case the text is exactly the new text. |
| `Scramble.TextScramble.Update` | components/modern-animated-hero-section.tsx:55-89 | The queue is refreshed and the text is the rendering at the old frame. If every entry had settled, the animation stops, the frame stays put and the text equals the target. Otherwise the frame grows by exactly 1. The frame never passes 78. |
| `Scramble.ScrambledTitle.constructor` | components/modern-animated-hero-section.tsx:92-131 | The title starts at phrase 0 with no `next` call made yet, over a scrambler showing the placeholder `Loading...`. |
| `Scramble.ScrambledTitle.Next` | components/modern-animated-hero-section.tsx:111-119 | `next` scrambles to `phrases[counter]` and then advances the counter by one, back to 0 after the fifth phrase: `(counter + 1) % 5`. The heading shows the rendering of that scramble's frame 0; the scrambler's frame is 1 while it still animates and 0 once finished, and then the heading shows the phrase exactly. The ghost call count grows by one, so the counter is `PhraseIndex` of the number of calls. |
| `Scramble.ScrambledTitle.Advance` | components/modern-animated-hero-section.tsx:118 | The counter moves one phrase on, back to 0 after the fifth, and stays the phrase index of the call count, which grows by one. |
| `Scramble.PhraseIndex` | components/modern-animated-hero-section.tsx:109-118 | The counter after any number of `next` calls stays in `[0, 5)`; the title keeps its counter equal to this index of its call count. |
| `Scramble.PhraseIndexCycles` | components/modern-animated-hero-section.tsx:118 | After `n` calls the counter is `n % 5`, so the phrases cycle 0, 1, 2, 3, 4, 0, ... |
| `Rain.Make` | components/MatrixRain.tsx:21-26 | Defines one generated character from its four draws: the glyph at `floor(r * 36)`, `x` and `y` at `r * 100`, speed `0.1 + r * 0.3`. Its properties are proved in `PlacedInFlight` and `CreateCharacters`. |
| `Rain.CreateCharacters` | components/MatrixRain.tsx:16-30 | Exactly 200 characters. Each is made from its own draws, shows a symbol of the 36-character alphabet, has `x` and `y` in `[0, 100)` and has speed in `[0.1, 0.4)`. |
| `Rain.Advance` | components/MatrixRain.tsx:55 | One frame keeps a character's glyph, `x` and speed, and keeps it within `y` in `[-5, 100.4)`. |
| `Rain.Fall` | components/MatrixRain.tsx:52-57 | The frame step keeps the list's length and puts the advanced copy of every character at the same index. |
| `Rain.FallFor` | components/MatrixRain.tsx:52-57 | Defines the characters after `n` animation frames, one `Fall` per frame. Its properties are proved in `FallForKeeps`, `FallForInFlight` and `CreatedStayInFlight`. |
| `Rain.PlacedInFlight` | components/MatrixRain.tsx:22-25 | A newly made character already lies in the band `[-5, 100.4)` with a speed in `[0.1, 0.4)`. |
| `Rain.FallForKeeps` | components/MatrixRain.tsx:53-56 | Any number of frames keeps the length, and every character's glyph, `x` and speed. |
| `Rain.FallForInFlight` | components/MatrixRain.tsx:55 | From in-flight characters, every `y` stays in `[-5, 100.4)` for any number of frames. |
| `Rain.CreatedStayInFlight` | components/MatrixRain.tsx:20-57 | Starting from generated characters, every `y` stays in `[-5, 100.4)` for any number of frames. |
| `Rain.PickActive` | components/MatrixRain.tsx:37-43 | The highlighted set is the set of the five `floor(r * n)` draws. It has between 1 and 5 elements, all below `n` when `n > 0`, and it is exactly `{0}` when `n == 0`. |
| `Globe.Measure` | components/wireframe-dotted-globe.tsx:26-28 | The container is `min(width, innerWidth - 40)` by `min(height, innerHeight - 100)`. The radius is the smaller side over 2.3: positive exactly when both sides are, and then the globe's diameter fits inside both sides. |
| `Globe.DefaultSizeOnLargeWindow` | components/wireframe-dotted-globe.tsx:13-14 | Without props, in a window of at least 840 by 700 pixels, the container is the default 800 by 600 and the radius is 600 / 2.3. |
| `Globe.Initial` | components/wireframe-dotted-globe.tsx:124-125 | Defines the mounted interaction state: rotation `[0, 0]`, not dragging, scale equal to the radius (set at line 39). `InitialInv` proves it satisfies the invariant. |
| `Globe.WheelFactor` | components/wireframe-dotted-globe.tsx:158 | Defines the zoom step: 0.9 for a downward scroll (`deltaY > 0`), otherwise 1.1. Its use is stated in `Zoom` and `DragThenZoomOut`. |
| `Globe.ClampLat` | components/wireframe-dotted-globe.tsx:145 | Latitude is clamped to `[-90, 90]`. It is unchanged inside that range and pinned to the nearer pole outside it. |
| `Globe.Zoom` | components/wireframe-dotted-globe.tsx:158-163 | The new scale is the old one times 0.9 (downward scroll) or 1.1, clamped to `[0.5, 3]` times the radius: exact inside the interval, pinned to the bound outside it. A downward scroll never zooms in and any other never zooms out. A non-positive radius gives half the radius. |
| `Globe.Step` | components/wireframe-dotted-globe.tsx:127-165 | The event handlers keep the invariant. After a drag move, latitude is in `[-90, 90]` whatever it was before. Drag start sets the drag flag, drag end clears it, and nothing else changes it. A tick while dragging changes nothing. Only drag moves change latitude, only ticks and drag moves change longitude, and only the wheel changes the scale. |
| `Globe.Run` | components/wireframe-dotted-globe.tsx:127-165 | Defines the state after a sequence of ticks and pointer and wheel events, one `Step` each in order. Its properties are proved in `RunKeepsInv`, `TicksWhileDragging`, `TicksRotate` and `DragThenZoomOut`. |
| `Globe.InitialInv` | components/wireframe-dotted-globe.tsx:124-125 | The mounted state (rotation `[0, 0]`, not dragging, scale equal to the radius) satisfies the invariant. |
| `Globe.RunKeepsInv` | components/wireframe-dotted-globe.tsx:141-163 | Latitude stays in `[-90, 90]` and the scale in `[0.5, 3]` times the radius (for a positive radius) across any event sequence. |
| `Globe.TicksWhileDragging` | components/wireframe-dotted-globe.tsx:127-133 | While a drag is in progress, any number of timer ticks leaves rotation, drag flag and scale unchanged. |
| `Globe.TicksRotate` | components/wireframe-dotted-globe.tsx:127-133 | `n` ticks without a drag add exactly `0.2 * n` degrees of longitude and change nothing else. |
| `Globe.DragThenZoomOut` | components/wireframe-dotted-globe.tsx:141-163 | A drag of `(dx, dy) = (10, 0)` turns the globe by 4 degrees of longitude and leaves latitude unchanged. A downward scroll after it applies the clamped 0.9 zoom and does not enlarge the globe. |
| `Globe.GridSteps` | components/wireframe-dotted-globe.tsx:110-111 | The loop `for (v = lo; v <= hi; v += 2)` visits exactly `lo + 2k` for `k` below the count. When `hi < lo` it visits nothing. |
| `Globe.ColumnDots` | components/wireframe-dotted-globe.tsx:111-116 | Defines the dots the inner latitude loop pushes for one longitude. Its properties are proved in `ColumnDotsSpec`; `SampleColumn` is proved to build it. |
| `Globe.FeatureDots` | components/wireframe-dotted-globe.tsx:110-117 | Defines the dots pushed for one feature, column by column over its longitudes. Its properties are proved in `FeatureDotsSound`, `FeatureDotsComplete` and `FeatureDotsOrdered`; `SampleFeature` is proved to build it. |
| `Globe.ColumnDotsSpec` | components/wireframe-dotted-globe.tsx:111-116 | The inner loop pushes exactly the points `(lng, minLat + 2j)` that the feature contains, in increasing latitude. |
| `Globe.FeatureDotsSound` | components/wireframe-dotted-globe.tsx:107-117 | Every dot pushed for one feature is a contained lattice point `(minLng + 2k, minLat + 2j)` of the columns visited so far. |
| `Globe.FeatureDotsComplete` | components/wireframe-dotted-globe.tsx:107-117 | Every contained lattice point `(minLng + 2k, minLat + 2j)` of the visited columns is pushed. |
| `Globe.FeatureDotsOrdered` | components/wireframe-dotted-globe.tsx:110-116 | One feature's dots come ordered by longitude and then latitude. |
| `Globe.Sampled` | components/wireframe-dotted-globe.tsx:106-118 | Defines the whole dot list: the dots of each feature, feature by feature. Its properties are proved in `SampledSound`, `SampledComplete` and `SampledAppend`; `LoadData` is proved to build it. |
| `Globe.SampledSound` | components/wireframe-dotted-globe.tsx:106-118 | Every sampled dot is a lattice point of some feature, lies within that feature's bounds, and is contained in it. |
| `Globe.SampledComplete` | components/wireframe-dotted-globe.tsx:106-118 | Every lattice point of a feature that the feature contains is sampled. |
| `Globe.SampledAppend` | components/wireframe-dotted-globe.tsx:106 | The dots come feature by feature: sampling `fs + gs` gives the dots of `fs` followed by those of `gs`. |
| `Globe.ScaleFactor` | components/wireframe-dotted-globe.tsx:51 | Defines `projection.scale() / radius`, with no value when the radius is 0. `Render` states the line widths and dot size it gives. |
| `Globe.DotCmds` | components/wireframe-dotted-globe.tsx:88-96 | Defines the dot pass of `render`: one filled circle per dot the projection places. Its properties are proved in `DotCmdsInOrder`; `Render` states that it ends the frame. |
| `Globe.DotCmdsInOrder` | components/wireframe-dotted-globe.tsx:88-96 | Exactly one filled circle per dot the projection places, in the order of the dots: circle `k` is at the projection of the `k`-th placed dot, the placed indices grow strictly, and every placed dot appears among them. |
| `Globe.Render` | components/wireframe-dotted-globe.tsx:48-97 | Always a clear and the outline circle at the current scale, with line width `2 * scale / radius`. Without land data, nothing else. With it, the graticule at opacity 0.2, the land outlines, then exactly the dot circles of `DotCmds` at size `1.3 * scale / radius` (no size for a zero radius), at most one per dot. |
| `Globe.RotatingEarth.constructor` | components/wireframe-dotted-globe.tsx:26-46 | The layout is measured, the rotation is `[0, 0]`, dragging is off, the scale is the radius, and there is no land data and no dots. |
| `Globe.RotatingEarth.Tick` | components/wireframe-dotted-globe.tsx:127-133 | Applies the tick step, and redraws exactly when not dragging. |
| `Globe.RotatingEarth.DragStart` | components/wireframe-dotted-globe.tsx:138-140 | Applies the drag-start step: dragging is on. |
| `Globe.RotatingEarth.DragMove` | components/wireframe-dotted-globe.tsx:141-148 | Applies the drag-move step (longitude `+ dx * 0.4`, latitude `- dy * 0.4` clamped) and redraws. |
| `Globe.RotatingEarth.DragEnd` | components/wireframe-dotted-globe.tsx:149-151 | Applies the drag-end step: dragging is off. |
| `Globe.RotatingEarth.Wheel` | components/wireframe-dotted-globe.tsx:156-165 | Applies the clamped zoom and redraws. |
| `Globe.RotatingEarth.SampleColumn` | components/wireframe-dotted-globe.tsx:111-116 | The latitude loop appends exactly the column's contained lattice points, in loop order. |
| `Globe.RotatingEarth.SampleFeature` | components/wireframe-dotted-globe.tsx:107-117 | The longitude loop appends exactly the feature's contained lattice points, column by column. |
| `Globe.RotatingEarth.LoadData` | components/wireframe-dotted-globe.tsx:99-121 | Keeps the features, appends exactly the sampled lattice dots in loop order, leaves the rotation and scale alone, and redraws. |

## Left out

- `components/shader-background.tsx`: WebGL set-up and a GLSL fragment shader. It is GPU calls and floating-point trigonometry only.
- `components/gallery4.tsx`: its state comes entirely from an external carousel library that is not part of this model.
- `components/dropdown-01.tsx`: a single open/closed flag driving an animation library.
- `app/page.tsx`, `app/about/page.tsx`, `app/aboutme/page.tsx`, `app/nextpage/page.tsx`: static page composition.
- d3 geometry: the orthographic projection, `geoPath`, `geoGraticule`, `geoBounds` and `geoContains` are parameters, not models. Whether the projection ever returns `null` for a dot is up to d3.
- The effect's early returns when there is no canvas element or no 2D context: the model starts from a mounted canvas.
- `event.preventDefault()` in the wheel listener: it only stops the page from scrolling.
- The wheel listener is never removed by the effect's cleanup, which stops only the timer. After a `width`/`height` change the old mount's wheel handler still fires on the same canvas and redraws with the old projection. The model has one `RotatingEarth` per mount and does not capture two mounts sharing a canvas.
- Canvas: the device-pixel-ratio sizing of the canvas and `context.scale`. Also the canvas refusing a negative arc radius, which a negative globe radius would produce.
- Fetching and parsing the land dataset (I/O). A failed fetch or a malformed dataset leaves the model's `landData` as it was, because `LoadData` is simply not called. A dataset that parses but has no `features` is not modelled.
- Scheduling: `requestAnimationFrame`, `cancelAnimationFrame`, `setInterval`, `setTimeout` (including the two-second pause between phrases), `d3.timer` and its `stop` at teardown, Promises, and React state hooks. Each callback is an explicit method call or function application.
- `Rain`: the render of the rain (the `activeIndices.has(i)` colouring and opacity) is presentation only.
- `Math.random`: only the range of each draw is modelled, not its distribution. `update` may call `Math.random` once or twice per scrambling position; the model gives every position a `Reroll` pair and uses the pair the way the source uses its draws.
- `Scramble.Sweep`: the loop works on a local copy of the queue, and `Update` stores it back after the loop. The source writes each redrawn glyph into `this.queue[i]` at once. Nothing reads the queue while the loop runs, so the resulting state is the same.
- Strings: JavaScript strings are counted in UTF-16 code units; the model's strings are sequences of Dafny characters.
- Floating-point rounding: all coordinates, scales and speeds are exact reals. For example, the lattice loop's repeated `+= 2` is modelled as exact multiples of 2.
