# Banco de Señales Médicas — a Dafny model of the chart geometry, the study page and the app shell

Banco de Señales Médicas is a React front end for browsing medical signal
recordings. Only part of it computes anything, and this project models that
part in Dafny:

- **ECG strip** (`EcgVisualizer`): samples become a polyline on an 800×200
  canvas with padding 20. The vertical scale `maxValue` is 1.2 times the
  largest absolute sample. The strip also has a 6×20 grid and a dashed
  baseline at amplitude zero.
- **Flow-volume chart** (`EspirometriaVisualizer`): curve points map affinely
  into a 600×400 box with padding 40, up to 6 L and 10 L/s, with the flow
  axis inverted. It has a 5×6 grid in which each line is followed by its
  axis label, two axes, and the "Valores medidos" table.
- **Study detail page** (`DetalleSenal`):
  - It derives the signal tag and the study id from the URL path.
  - It loads a simulated study when a timer fires.
  - It picks what to show: error, then loading, then details, then "no data".
  - It renders the visualiser and the results table for the tag.
- **Application shell** (`App`):
  - The login form and the session.
  - The route guards of `/`, `/menu` and `/busqueda/:tipoSenal`.
  - The options menu.
  - The search page, with its heading derived from the path, its simulated
    search and the selection of its results panel.

Geometry is exact arithmetic over `real`. Canvas size, padding, axis maxima
and grid line counts are parameters. The components' own constants
(`EcgVisualizer.Strip`, `EspirometriaVisualizer.Loop`) are proved as
instances. JavaScript `NaN` is an explicit coordinate value (`Chart.Coord`).
The ECG path produces it for a single sample (`0 * Infinity`) and for an
all-zero trace (`0 / 0`).

Stateful components are classes whose fields are their `useState` values.
Handlers are methods with `modifies` clauses. Each method is proved against
a specification function or states its whole new state. Effects and timers
are explicit method calls. A pending `setTimeout` callback is a value
(`DetalleSenal.Timer`) holding what the callback closed over. The URL path
(`window.location.pathname`) is a parameter.

Files and modules:

- `common.dfy` (`Common`): `Option`, property lookup, `includes`, `split`/`join`, path classification.
- `chart.dfy` (`Chart`): path commands, viewport, grid elements, evenly spaced positions.
- `ecg_visualizer.dfy` (`EcgVisualizer`).
- `espirometria_visualizer.dfy` (`EspirometriaVisualizer`).
- `detalle_senal.dfy` (`DetalleSenal`).
- `app.dfy` (`App`).

## Model

| member | source | states |
|---|---|---|
| Common.Lookup | banco-senales-medicas/src/components/EspirometriaVisualizer.js:211-227 | a property read yields a value exactly when the key is present, and then the stored value; a missing one reads as undefined |
| Common.Contains | banco-senales-medicas/src/pages/DetalleSenal.js:18-22 | `includes`, defined by peeling the string from the front; `ContainsIff` proves it equal to "occurs at some offset" |
| Common.ContainsIff | banco-senales-medicas/src/pages/DetalleSenal.js:18-22 | `s.includes(sub)` holds if and only if `sub` occurs as a contiguous block at some offset of `s` |
| Common.Occurrence | banco-senales-medicas/src/pages/DetalleSenal.js:18-22 | an included block occurs at some offset |
| Common.MissingChar | banco-senales-medicas/src/pages/DetalleSenal.js:18-22 | a string lacking one of the characters of `sub` does not `include` it |
| Common.ContainsAt | banco-senales-medicas/src/pages/DetalleSenal.js:18-22 | a block found at a known offset is reported by `includes` |
| Common.Split | banco-senales-medicas/src/pages/DetalleSenal.js:15 | `split('/')` yields at least one piece and no piece holds the separator |
| Common.JoinSplit | banco-senales-medicas/src/pages/DetalleSenal.js:15 | joining the pieces of `split` with the separator gives the path back |
| Common.LastPieceIsTail | banco-senales-medicas/src/pages/DetalleSenal.js:25 | the last piece of `split` is the separator-free tail of the string: all of it without a separator, else what follows the last separator |
| Common.TrailingSeparator | banco-senales-medicas/src/pages/DetalleSenal.js:25 | a path ending in `/` has the empty string as its last piece |
| Common.PathKind | banco-senales-medicas/src/pages/DetalleSenal.js:18-22 | a path is ECG iff it contains `ecg`; spirometry iff it does not but contains `espirometria`; neither otherwise |
| Chart.EvenlySpaced | banco-senales-medicas/src/components/ECGVisualizer.js:39-41 | evenly spaced lines start at the box edge, end at the opposite edge, step by span/n and strictly increase for a positive span |
| Chart.EvenlyIncreasing | banco-senales-medicas/src/components/ECGVisualizer.js:55-56 | a later evenly spaced line lies strictly after an earlier one |
| Chart.EvenlyHalfway | banco-senales-medicas/src/components/ECGVisualizer.js:39-41 | with an even number of intervals the middle line lies halfway along the span |
| Chart.EvenlyWithin | banco-senales-medicas/src/components/ECGVisualizer.js:39-56 | every evenly spaced line lies between the first and the last |
| EcgVisualizer.SimulatedData | banco-senales-medicas/src/components/ECGVisualizer.js:9-13 | a missing `data` prop selects the 21-sample simulated trace; any array, the empty one included, is used as given |
| EcgVisualizer.MaxAbs | banco-senales-medicas/src/components/ECGVisualizer.js:18 | the largest absolute sample bounds every sample's magnitude and is attained by one of them |
| EcgVisualizer.MaxValue | banco-senales-medicas/src/components/ECGVisualizer.js:18 | `maxValue` is at least 1.2 times every sample's magnitude, equals it for some sample, and is zero iff every sample is zero |
| EcgVisualizer.GeneratePath | banco-senales-medicas/src/components/ECGVisualizer.js:21-30 | one command per sample, the first an `M` and every other an `L` |
| EcgVisualizer.StripX | banco-senales-medicas/src/components/ECGVisualizer.js:22-25 | the first sample sits on the left edge of the padded box and the last on its right edge |
| EcgVisualizer.StripY | banco-senales-medicas/src/components/ECGVisualizer.js:26-27 | a zero sample sits at half the height; its bounds and order are `StripYWithin` and `StripYDecreasing` |
| EcgVisualizer.StripXEvenly | banco-senales-medicas/src/components/ECGVisualizer.js:22-25 | sample x is the evenly spaced position of n - 1 intervals across the padded width |
| EcgVisualizer.PathX | banco-senales-medicas/src/components/ECGVisualizer.js:21-30 | with two or more samples, x runs from `padding` to `width - padding` and strictly increases with the index |
| EcgVisualizer.StripYWithin | banco-senales-medicas/src/components/ECGVisualizer.js:27 | a sample within `maxValue / 1.2` in magnitude is drawn strictly inside the padded box |
| EcgVisualizer.StripYDecreasing | banco-senales-medicas/src/components/ECGVisualizer.js:26-27 | a larger sample is drawn strictly higher (smaller y) |
| EcgVisualizer.PathY | banco-senales-medicas/src/components/ECGVisualizer.js:18-30 | with a non-zero sample, every y is a number strictly inside the box, sample order is reversed in y, and a zero sample sits at `height / 2` |
| EcgVisualizer.GenerateGrid | banco-senales-medicas/src/components/ECGVisualizer.js:33-71 | the loops push the lines `h-0..h-n` top to bottom, then `v-0..v-m` left to right, exactly as the `Grid` specification lays them out |
| EcgVisualizer.HorizontalLine | banco-senales-medicas/src/components/ECGVisualizer.js:39-52 | line `h-i` is horizontal, spans the padded width and, for i within the count, lies inside the padded box |
| EcgVisualizer.VerticalLine | banco-senales-medicas/src/components/ECGVisualizer.js:55-68 | line `v-i` is vertical, spans the padded height and, for i within the count, lies inside the padded box |
| EcgVisualizer.Grid | banco-senales-medicas/src/components/ECGVisualizer.js:33-71 | the grid has h + 1 horizontal then v + 1 vertical lines, each keyed `h-i` or `v-i` by orientation and index |
| EcgVisualizer.GridKeysDistinct | banco-senales-medicas/src/components/ECGVisualizer.js:39-68 | no two grid lines share a React key |
| EcgVisualizer.GridCoversBox | banco-senales-medicas/src/components/ECGVisualizer.js:39-68 | horizontal lines span the padded width at strictly increasing y from `padding` to `height - padding`; vertical lines likewise across the width |
| EcgVisualizer.Baseline | banco-senales-medicas/src/components/ECGVisualizer.js:91-99 | the dashed baseline is horizontal, spans the padded width and lies where a zero sample is drawn, whatever `maxValue` is |
| EcgVisualizer.BaselineAtZero | banco-senales-medicas/src/components/ECGVisualizer.js:91-99 | the dashed baseline is where a zero sample is drawn, and it coincides with the middle grid line when the interval count is even |
| EcgVisualizer.DefaultMaxValue | banco-senales-medicas/src/components/ECGVisualizer.js:9-18 | the simulated trace gives `maxValue` 1.2 |
| EcgVisualizer.DefaultStrip | banco-senales-medicas/src/components/ECGVisualizer.js:9-30 | the default strip has 21 commands from (20, 100) to x = 780, with the 1.0 peak at (438, 100/3) |
| EcgVisualizer.NaNEdges | banco-senales-medicas/src/components/ECGVisualizer.js:18-27 | for every canvas and trace: a sample's x is NaN (`0 * Infinity`) exactly when the trace has one sample, and every y is NaN (`0 / 0`) exactly when the trace is all zeros |
| EcgVisualizer.NaNTraces | banco-senales-medicas/src/components/ECGVisualizer.js:18-27 | on the component's canvas `[0.5]` is drawn at (NaN, 100/3) and `[0, 0]` at (20, NaN) and (780, NaN) |
| EcgVisualizer.ShortTrace | banco-senales-medicas/src/components/ECGVisualizer.js:21-30 | the trace [0, 1, -0.5, 0] is drawn at (20, 100), y = 100/3, y = 400/3 and (780, 100) |
| EcgVisualizer.StripGrid | banco-senales-medicas/src/components/ECGVisualizer.js:33-71 | the component's grid has 28 lines, the first 7 horizontal; line `h-3` is the baseline and `v-20` is the right edge |
| EspirometriaVisualizer.SimulatedData | banco-senales-medicas/src/components/EspirometriaVisualizer.js:9-32 | a missing `data` prop selects the 11-point simulated curve and its five values |
| EspirometriaVisualizer.VolumenToX | banco-senales-medicas/src/components/EspirometriaVisualizer.js:43-45 | `volumenToX`, the affine map of volume onto the padded width; `AxisEnds`, `Monotone` and `RoundTrip` state what it promises |
| EspirometriaVisualizer.FlujoToY | banco-senales-medicas/src/components/EspirometriaVisualizer.js:47-50 | `flujoToY`, the inverted affine map of flow onto the padded height; `AxisEnds`, `Monotone` and `RoundTrip` state what it promises |
| EspirometriaVisualizer.Monotone | banco-senales-medicas/src/components/EspirometriaVisualizer.js:43-50 | more volume is drawn strictly further right and more flow strictly higher |
| EspirometriaVisualizer.AxisEnds | banco-senales-medicas/src/components/EspirometriaVisualizer.js:43-50 | volume 0 and the maximum map to the left and right box edges; flow 0 and the maximum map to the bottom and top edges |
| EspirometriaVisualizer.RoundTrip | banco-senales-medicas/src/components/EspirometriaVisualizer.js:43-50 | `volumenToX` and `flujoToY` are bijections: reading a drawn value back gives it, in both directions |
| EspirometriaVisualizer.InsideBox | banco-senales-medicas/src/components/EspirometriaVisualizer.js:38-50 | a point within the axis ranges is drawn inside the padded box |
| EspirometriaVisualizer.LoopScale | banco-senales-medicas/src/components/EspirometriaVisualizer.js:34-50 | on the component's canvas volume 0..6 maps to x 40..560 and flow 0..10 to y 360..40 |
| EspirometriaVisualizer.GeneratePath | banco-senales-medicas/src/components/EspirometriaVisualizer.js:53-59 | one command per curve point, `M` first then `L`, every coordinate a number |
| EspirometriaVisualizer.PathFollowsCurve | banco-senales-medicas/src/components/EspirometriaVisualizer.js:53-59 | every command reads back as its curve point; a non-decreasing volume never moves left; in-range points stay inside the box |
| EspirometriaVisualizer.DefaultCurveShape | banco-senales-medicas/src/components/EspirometriaVisualizer.js:11-23 | the simulated curve has 11 points, volume rising from 0 to 5 L without decreasing, all within the axis ranges, starting at (40, 360) |
| EspirometriaVisualizer.DefaultPath | banco-senales-medicas/src/components/EspirometriaVisualizer.js:9-59 | the simulated path has 11 commands that never move left and stay within [40, 560] × [40, 360] |
| EspirometriaVisualizer.GenerateGrid | banco-senales-medicas/src/components/EspirometriaVisualizer.js:62-133 | the loops push each flow line followed by its label, then each volume line followed by its label, exactly as the `Grid` specification lays them out |
| EspirometriaVisualizer.HorizontalElement | banco-senales-medicas/src/components/EspirometriaVisualizer.js:68-98 | element k is the line `h-(k/2)` for even k and the label `h-text-(k/2)` for odd k; the line spans the padded width and the label sits left of the axis at the height of the flow it shows |
| EspirometriaVisualizer.VerticalElement | banco-senales-medicas/src/components/EspirometriaVisualizer.js:101-130 | element k is the line `v-(k/2)` for even k and the label `v-text-(k/2)` for odd k; the line spans the padded height and the label sits below the axis at the position of the volume it shows |
| EspirometriaVisualizer.Grid | banco-senales-medicas/src/components/EspirometriaVisualizer.js:62-133 | 2(h + 1) flow elements then 2(v + 1) volume elements, lines and labels alternating, keyed `h-i`, `h-text-i`, `v-j`, `v-text-j` |
| EspirometriaVisualizer.GridKeysDistinct | banco-senales-medicas/src/components/EspirometriaVisualizer.js:68-130 | no two elements of the labelled grid share a React key |
| EspirometriaVisualizer.HorizontalGrid | banco-senales-medicas/src/components/EspirometriaVisualizer.js:68-98 | line `h-i` and label `h-text-i`: the label sits at its line's height and shows the flow drawn there; the lines rise evenly from the bottom edge and span the x axis |
| EspirometriaVisualizer.VerticalGrid | banco-senales-medicas/src/components/EspirometriaVisualizer.js:101-130 | line `v-j` and label `v-text-j`: the label sits at its line's x and shows the volume drawn there; the lines run evenly from the left edge and span the y axis |
| EspirometriaVisualizer.GridMeetsAxes | banco-senales-medicas/src/components/EspirometriaVisualizer.js:62-169 | the first flow line is the x axis, the last lies at the top edge; the first volume line lies on the y axis, the last at the right edge |
| EspirometriaVisualizer.XAxis | banco-senales-medicas/src/components/EspirometriaVisualizer.js:154-161 | the x axis is horizontal, at the height of zero flow, from volume 0 to the maximum volume |
| EspirometriaVisualizer.YAxis | banco-senales-medicas/src/components/EspirometriaVisualizer.js:162-169 | the y axis is vertical, at the position of zero volume, from flow 0 to the maximum flow |
| EspirometriaVisualizer.LoopGrid | banco-senales-medicas/src/components/EspirometriaVisualizer.js:62-133 | the component's grid has 26 elements; the flow labels `h-text-i` read 0, 2, …, 10 at x = 30 and the volume labels `v-text-j` read 0..6 at y = 380 |
| EspirometriaVisualizer.MeasuredValues | banco-senales-medicas/src/components/EspirometriaVisualizer.js:207-229 | the table has the rows FVC, FEV1, FEV1/FVC, PEF, FEF25-75 in that order, each with its unit and the value read from `valores` |
| EspirometriaVisualizer.DefaultMeasuredValues | banco-senales-medicas/src/components/EspirometriaVisualizer.js:25-31 | with the simulated values the table reads 5.0 L, 4.2 L, 84 %, 7.5 L/s, 4.8 L/s |
| DetalleSenal.TagOf | banco-senales-medicas/src/pages/DetalleSenal.js:17-22 | the effect's tag is `ecg` for a path containing `ecg`, else `espirometria` for one containing that, else the current tag is unchanged |
| DetalleSenal.IdEstudio | banco-senales-medicas/src/pages/DetalleSenal.js:15-25 | the study id is the path's part after its last `/` (all of it without one), holds no `/`, and is empty for a trailing `/` |
| DetalleSenal.Resolve | banco-senales-medicas/src/pages/DetalleSenal.js:28-106 | the timer loads a study exactly for the tags `ecg` and `espirometria`, with the id it captured |
| DetalleSenal.EcgStudy | banco-senales-medicas/src/pages/DetalleSenal.js:29-57 | the ECG study carries the requested id, and its trace is the one the ECG component draws when given no data |
| DetalleSenal.EspirometriaStudy | banco-senales-medicas/src/pages/DetalleSenal.js:58-103 | the spirometry study carries the requested id, and its curve and measured values are the ones the spirometry component shows when given no data |
| DetalleSenal.Page.View | banco-senales-medicas/src/pages/DetalleSenal.js:203-338 | an error hides everything; otherwise loading, then the study details, then "no data", each exactly when the earlier ones do not apply |
| DetalleSenal.Page.constructor | banco-senales-medicas/src/pages/DetalleSenal.js:7-10 | the page starts loading, with no tag, no study and no error |
| DetalleSenal.Page.RunEffect | banco-senales-medicas/src/pages/DetalleSenal.js:13-28 | the effect sets the tag from the path and schedules a timer that carries the tag of the previous render and the path's last segment |
| DetalleSenal.Page.FireTimer | banco-senales-medicas/src/pages/DetalleSenal.js:28-108 | the timer loads the study for its captured tag or sets the error message, and ends loading in every branch |
| DetalleSenal.Page.RunEffectIntended | banco-senales-medicas/src/pages/DetalleSenal.js:13-28 | the effect as intended: the timer carries the tag just derived from the path |
| DetalleSenal.FirstTimerFails | banco-senales-medicas/src/pages/DetalleSenal.js:8-108 | mounting the page and running its effect once schedules a timer carrying the initial empty tag; firing it leaves the page on the error screen, not loading and with no study, for every path |
| DetalleSenal.Open | banco-senales-medicas/src/pages/DetalleSenal.js:13-109 | mounting, the re-run of the effect on the tag change and both timers leave the page on the "Tipo de señal no reconocido" error for every path |
| DetalleSenal.OpenIntended | banco-senales-medicas/src/pages/DetalleSenal.js:13-109 | with the intended effect a path naming a signal ends on the details of the matching study with the path's id; any other path ends on the error |
| DetalleSenal.RenderVisualizador | banco-senales-medicas/src/pages/DetalleSenal.js:112-123 | nothing without a study; else the ECG or spirometry chart for those tags, fed the study's `senalData`; else "not supported" |
| DetalleSenal.EcgStudyIsDrawn | banco-senales-medicas/src/pages/DetalleSenal.js:52-56 | the loaded ECG study is drawn as 21 commands from x = 20 to x = 780 |
| DetalleSenal.EspirometriaStudyIsDrawn | banco-senales-medicas/src/pages/DetalleSenal.js:81-102 | the loaded spirometry study is drawn as 11 commands that never move left and stay inside the box |
| DetalleSenal.EcgRows | banco-senales-medicas/src/pages/DetalleSenal.js:130-164 | the ECG table lists heart rate, PR, QRS, QT and axis in order with their units and recorded values |
| DetalleSenal.RenderDetallesEspecificos | banco-senales-medicas/src/pages/DetalleSenal.js:126-200 | nothing without a study or for another tag; else that tag's results table and the conclusion |
| DetalleSenal.ResolvedStudies | banco-senales-medicas/src/pages/DetalleSenal.js:29-103 | the ECG study reports 72 lpm, 160, 90 and 380 ms and 30° over 21 samples; the spirometry study's 11-point curve rises from 0 to 5 L and its table reads its five values |
| DetalleSenal.GeneroLabel | banco-senales-medicas/src/pages/DetalleSenal.js:284 | `M` reads "Masculino" and every other value "Femenino" |
| App.Login.constructor | banco-senales-medicas/src/App.js:7-9 | the form starts with empty user, password and error |
| App.Login.SetUsername | banco-senales-medicas/src/App.js:39 | typing in the user field changes only the user name |
| App.Login.SetPassword | banco-senales-medicas/src/App.js:53 | typing in the password field changes only the password |
| App.Login.HandleSubmit | banco-senales-medicas/src/App.js:11-19 | the form submits the user name iff both fields are non-empty, and otherwise sets the error message; the fields are unchanged |
| App.Session.constructor | banco-senales-medicas/src/App.js:297-298 | the session starts logged out with an empty user name |
| App.Session.HandleLogin | banco-senales-medicas/src/App.js:300-303 | logging in records the user name and sets the logged-in flag |
| App.Session.HandleLogout | banco-senales-medicas/src/App.js:305-308 | logging out restores the initial state |
| App.SubmitLogin | banco-senales-medicas/src/App.js:11-19 | a submit logs the session in with the form's user name when both fields are filled, and otherwise leaves the session unchanged and shows the error |
| App.LoginThenLogout | banco-senales-medicas/src/App.js:297-308 | logging in and then out returns the session to its initial state, whoever logged in |
| App.MatchRoute | banco-senales-medicas/src/App.js:313-324 | `/` and `/menu` match their routes; `/busqueda/` plus one non-empty segment matches the search route with that segment as `tipoSenal` |
| App.RouteElement | banco-senales-medicas/src/App.js:313-324 | `/` shows the login form when logged out and redirects to `/menu` when logged in; the menu and search pages show, greeting the user, only when logged in and redirect to `/` otherwise |
| App.RedirectsSettle | banco-senales-medicas/src/App.js:313-324 | a redirect leads straight to a page, never to another redirect |
| App.SearchTitle | banco-senales-medicas/src/App.js:137-144 | the search heading is the ECG option name for an `ecg` path, else the spirometry option name for an `espirometria` path, else unchanged |
| App.MenuLinks | banco-senales-medicas/src/App.js:74-77 | the menu has two options whose links are `/busqueda/ecg` and `/busqueda/espirometria`; each link's path matches the search route for the option's id, and the heading derived from that path is the option's name |
| App.FollowMenuLink | banco-senales-medicas/src/App.js:105-109 | clicking a menu link, a plain `<a href>`, loads the path afresh with a new session, so the search route redirects to `/` and the login form |
| App.FollowMenuLinkIntended | banco-senales-medicas/src/App.js:105-109 | with client-side navigation a logged-in user reaches the search page, greeted by name and headed with the option's name |
| App.Href | banco-senales-medicas/src/App.js:107 | the link `/busqueda/<id>` of an option; `LinkRoute` proves it matches the search route for the id |
| App.LinkRoute | banco-senales-medicas/src/App.js:107 | a link `/busqueda/<id>` with a non-empty, slash-free id matches the search route with that id |
| App.EcgLink | banco-senales-medicas/src/App.js:107 | the ECG option's link matches the search route `ecg` and its path is classified as ECG |
| App.EspirometriaLink | banco-senales-medicas/src/App.js:107 | the spirometry option's link matches the search route `espirometria` and, lacking a `g`, is classified as spirometry, not ECG |
| App.PaginaBusqueda.View | banco-senales-medicas/src/App.js:227-288 | the panel shows loading while a search runs, else a table of exactly the results if there are any, else "No se encontraron resultados" |
| App.PaginaBusqueda.constructor | banco-senales-medicas/src/App.js:130-134 | the search page starts with empty filters, no results, no heading and not loading |
| App.PaginaBusqueda.SetBusqueda | banco-senales-medicas/src/App.js:199 | typing a name changes only the name filter |
| App.PaginaBusqueda.SetFiltroFecha | banco-senales-medicas/src/App.js:209 | picking a date changes only the date filter |
| App.PaginaBusqueda.DeterminarTipoSenal | banco-senales-medicas/src/App.js:137-149 | the mount effect sets the heading as `SearchTitle` prescribes and changes nothing else |
| App.PaginaBusqueda.BuscarSenales | banco-senales-medicas/src/App.js:152-153 | pressing "Buscar" switches the panel to loading and changes nothing else |
| App.PaginaBusqueda.CompleteSearch | banco-senales-medicas/src/App.js:155-163 | the timer replaces the results with the three fixed rows, whatever the filters hold, and ends loading |
| App.FixtureRows | banco-senales-medicas/src/App.js:156-160 | the fixed result has three rows with the distinct ids 1, 2, 3 |
| App.Search | banco-senales-medicas/src/App.js:152-164 | a whole search shows loading, then the table of the three fixed rows, and leaves the filters and heading untouched |

## Left out

- EcgVisualizer.MaxValue: requires a non-empty trace. An empty array is truthy and reaches `Math.max()`, which gives `-Infinity`; the model does not represent infinities.
- EcgVisualizer.GenerateGrid and EspirometriaVisualizer.GenerateGrid: require positive line counts. The components always pass 6/20 and 5/6, and a zero count would divide by zero.
- Number formatting: the SVG `d` strings, coordinate attributes and label texts are kept as exact reals, not JavaScript number-to-string output.
- Markup: JSX structure, styling, colours, dash patterns, fonts and the nav and footer are not modelled. The same holds for the fixed axis titles ("Volumen (L)", "Flujo (L/s)") and the detail page's heading text.
- Time: the `setTimeout` delays (1000 ms and 1500 ms) are not modelled. Timer callbacks fire when the model calls them, in scheduling order.
- Browser environment: `window.location.pathname` is a parameter. `window.history.back()` is not modelled, and a document load is modelled only as the fresh session it starts.
- Single-flight loading: stale timers are not cancelled or ignored. The code has no such mechanism, so the model follows the code: every timer fires and writes its result.
- `DetalleSenal.Study`: the `conclusion` text, which the code keeps inside `resultados`, is a separate field so that `resultados` holds numbers only.
- The detail page imports its ECG visualiser from the components folder index, which is not part of this model. It is modelled as the ECG visualiser component.
- No route renders the detail page, and "Ver detalles" has no handler, so the model has no navigation into `DetalleSenal`.
- App.MatchRoute: React Router's case-insensitive matching and its tolerance of a trailing `/` are not modelled. Only exact paths match.
- The search fixture's fields other than `id` are kept only as constants. No property beyond the ids and the row count is stated about them.

## Findings

| source | as written | input that shows it | evidently intended | confidence | as-written member | corrected member |
|---|---|---|---|---|---|---|
| banco-senales-medicas/src/pages/DetalleSenal.js:29 | the timer callback tests `tipoSenal` from the render whose effect scheduled it, which is the value before the effect's own `setTipoSenal`; the first timer therefore always sees `''` and sets "Tipo de señal no reconocido", which nothing clears | path `/detalle/ecg/7`: the page ends on the error screen, although the second timer loads the ECG study with id `7` | the timer uses the tag derived from the path in the same run, so `/detalle/ecg/7` shows the ECG study `7` | high (not executed) | DetalleSenal.Open | DetalleSenal.OpenIntended |
| banco-senales-medicas/src/App.js:105-109 | the menu's options are plain `<a href>` anchors, so clicking one reloads the document; the session lives only in the root component's state, so the reload logs the user out and the search route redirects to the login form | a logged-in user clicks "Electrocardiograma (ECG)": the browser loads `/busqueda/ecg` with `isLoggedIn` false and lands on `/` | a router link that keeps the session, so the user reaches the ECG search page | high (not executed) | App.FollowMenuLink | App.FollowMenuLinkIntended |
