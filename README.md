# China–Europe rail landing page: a Dafny model of its scripted behaviour

The page script `app.js` drives a decorative landing page about the China–Europe
freight railway. This project models the parts of it that keep state and follow
rules:

- **Route demo** (`route_data.dfy`, `segments.dfy`, `route_sequencer.dfy`, `info_panel.dfy`).
  A click on the play button hides the preview and creates the map if there is
  none. It then attaches an empty polyline, disables the button and starts
  `animateRoute`. Each call of `animateRoute` does the following:
  - it draws the segment from waypoint `currentIndex` to the next one as 101
    interpolated points, panning the map to each;
  - it shows `countries[currentIndex]` as a new card at the top of the
    node-information panel;
  - it advances the cursor and schedules itself again.

  The waypoint table has 9 entries and the record table only 7, so cards are
  chosen by position, not by place. The fifth card, Alashankou, appears after
  the Lanzhou to Urumqi segment. At cursor 7 the last segment is drawn, then
  reading the name of the missing record throws, and the chain stops there. The
  panel keeps at most five cards by dropping the oldest.
- **Theme switch** (`theme.dfy`). At start-up the page goes dark when local
  storage holds `"dark"`, or when nothing truthy is stored and the system
  prefers dark. The toggle flips the document's `dark` class and persists
  `"dark"`/`"light"`. It also flips the moon and sun icon classes.
- **Particle background** (`particles.dfy`). Each animation frame moves every
  particle by its speed and wraps a coordinate that left the canvas to the
  opposite edge.
- **Statistics counters** (`counter.dfy`). Each frame writes
  `floor(min(elapsed / duration, 1) * (end - start) + start)`. It requests
  another frame while the fraction is below 1.

Each piece of state the page changes in place is a class. Its methods carry
`modifies` frames, and each method is proved against a pure function of the old
state:
- `RoutePlayer.AnimateRoute` against `StepRoute`;
- `RoutePlayer.PlayRoute` against `Run`;
- `ThemeManager.ToggleTheme` against `Toggled`;
- `ParticleBackground.Animate` against `Advance`.

The properties are proved as lemmas about those functions.

Some JavaScript behaviours are modelled explicitly:
- **Truthiness.** An empty stored theme counts like an absent one. A start time
  of 0 is taken again on the next frame.
- **The thrown `TypeError`.** It is an outcome of its own (`Threw`) next to
  `Returned` and `Scheduled`.

## Model

| member | source | states |
|---|---|---|
| RouteData.RecordAt | app.js:191-234 | a record exists exactly for positions 0..6, and it is the table's entry there |
| RouteData.TablesOutOfStep | app.js:178-234 | 9 waypoints and 7 records; the first four records sit on waypoints 0..3, while records 4..6 (Alashankou, Duisburg, Madrid) lie two waypoints further on, not on waypoints 4..6 |
| InfoPanel.PushCard | app.js:328-334 | the new card is first; the old cards follow in order; exactly one card, the oldest, is dropped when the panel already held 5 or more; a panel of at most 5 stays at most 5 |
| InfoPanel.PushAllKeepsNewest | app.js:328-334 | pushing cards one by one onto a panel of at most 5 leaves the pushed cards newest first above the old panel, cut to at most 5 |
| InfoPanel.PushAllNewestAt | app.js:328-334 | after a series of pushes the panel holds min(pushed + old, 5) cards, and position k holds the k-th most recent pushed card |
| Particles.Wrap | app.js:41-44 | a coordinate past the far edge becomes 0, one below 0 becomes the far edge, one on the canvas stays; on a canvas of non-negative size the result is always on it |
| Particles.AdvanceInside | app.js:37-45 | after one move every particle is inside the canvas |
| Particles.AdvanceKeepsMotion | app.js:37-45 | the move keeps speed, size and opacity, and a particle that stays on the canvas moves by exactly its speed |
| Particles.ParticleBackground.constructor | app.js:3-27 | the background holds the canvas size and 80 particles, each already advanced and wrapped once by the first frame that `init` runs |
| Particles.ParticleBackground.Animate | app.js:37-45 | every particle is advanced and wrapped in place, and all end inside the canvas |
| Theme.ThemeName | app.js:122-124 | the stored string is "dark" exactly for a dark page, and is never empty |
| Theme.InitialDark | app.js:110-114 | with a truthy stored value the page is dark iff it is "dark"; with none, or with an empty one, it follows the system preference |
| Theme.InitializedMatches | app.js:110-117 | from a light page whose icon shows only the moon (the state `setInitialTheme` presupposes), start-up leaves the icon showing the sun exactly on a dark page, and leaves storage alone |
| Theme.ToggledFlips | app.js:120-124 | a toggle flips the theme and persists "dark" iff the page is now dark, "light" iff it is now light |
| Theme.ToggleTwice | app.js:120-127 | two toggles restore the theme and both icon classes; storage then names the original theme |
| Theme.ToggleKeepsIcon | app.js:125-126 | a toggle keeps the icon in agreement with the theme |
| Theme.ToggleSurvivesReload | app.js:111-124 | after a toggle, start-up picks the toggled theme whatever the system prefers |
| Theme.ThemeManager.constructor | app.js:99-108 | construction applies the start-up decision to the page state |
| Theme.ThemeManager.SetInitialTheme | app.js:110-117 | the page state afterwards is the start-up decision applied to the state before |
| Theme.ThemeManager.ToggleTheme | app.js:120-127 | the page state afterwards is the toggle of the state before |
| Counter.Progress | app.js:148 | the fraction never exceeds 1, equals 1 exactly once the duration has elapsed, and is non-negative for non-negative elapsed time |
| Counter.Shown | app.js:148-149 | once the duration has elapsed the end value is shown; while counting up, the shown value stays between start and end |
| Counter.ShownMonotone | app.js:148-149 | when counting up, a later frame never shows a smaller number |
| Counter.PageCounter | app.js:137-149 | a counter the page starts (0 to its target over 1500 ms) shows 0 on its first frame and its target on every frame from 1500 ms on |
| Counter.CounterAnimation.constructor | app.js:144-152 | a new animation has no start time latched and one frame requested |
| Counter.CounterAnimation.Frame | app.js:146-151 | a frame latches the start time unless a truthy one is latched; writes the clamped, floored value; requests another frame iff the duration has not elapsed; and the last frame shows the end value |
| Segments.SegmentPoints | app.js:279-286 | a segment has 101 points, starts at its start waypoint, ends at its end waypoint, and point k is k/100 of the way |
| Segments.LerpBetween | app.js:281-282 | every interpolated coordinate lies between the segment's two ends |
| Segments.EqualSteps | app.js:275-282 | consecutive points are one hundredth of the segment apart in each coordinate |
| Segments.Polyline | app.js:279-291 | the points drawn along a list of waypoints number 101 per consecutive pair |
| Segments.PolylineAt | app.js:279-291 | offset 101·j+k of that polyline holds point k of the segment from waypoint j to waypoint j+1 |
| RouteSequencer.StepRoute | app.js:270-292 | a step returns untouched iff the cursor is past the waypoints. It schedules the next step iff a record exists at the cursor; it then advances the cursor, shows that record as station cursor+1 and names it. It otherwise throws with cursor, cards and label unchanged. A segment is drawn and the map centred on its end iff a next waypoint exists |
| RouteSequencer.Run | app.js:289-291 | a chain of steps always ends in a step that does not schedule another |
| RouteSequencer.Path | app.js:279-286 | the points drawn from waypoint i to the end number 101 per remaining segment |
| RouteSequencer.PathUnfold | app.js:279-291 | the points drawn from a waypoint with a successor are its segment followed by those drawn from the next waypoint |
| RouteSequencer.CardsFrom | app.js:289-290 | the cards shown from cursor i on: record j as station j+1, one per remaining record |
| RouteSequencer.RunFrom | app.js:270-292 | from any cursor up to 7 the chain throws at cursor 7 after drawing every remaining segment, centring on the last waypoint, pushing every remaining card and naming the last record |
| RouteSequencer.StepThenRun | app.js:289-291 | below cursor 7 a chain is the step followed by the chain from its result, with one segment and one card consumed |
| RouteSequencer.LastStep | app.js:271-289 | at cursor 7 the step draws the last segment, shows no card, and ends the chain |
| RouteSequencer.PathAt | app.js:279-286 | the drawn polyline holds, at offset 101·j+k, point k of segment i+j |
| RouteSequencer.NewestFive | app.js:328-334 | the seven cards of a full run leave the panel holding exactly the five most recent, newest first |
| RouteSequencer.FullRun | app.js:242-292 | a full run draws 8 segments of 101 points and ends centred on Madrid. It throws with the cursor at 7 and the label naming Madrid |
| RouteSequencer.FullRunPanel | app.js:289-334 | after a full run the panel holds exactly five cards, stations 7 down to 3, newest first |
| RouteSequencer.CardByPosition | app.js:273-290 | after the Lanzhou to Urumqi segment the new card is Alashankou (station 5), which is not where the map is centred |
| RouteSequencer.RoutePlayer.constructor | app.js:237-239 | at page load there is no map, no polyline and the cursor is 0; the preview shows, the button is enabled, and the panel and label hold what the page starts with |
| RouteSequencer.RoutePlayer.UpdateNodeInfo | app.js:294-335 | a missing record throws before anything changes; otherwise the label names the record and the card is pushed with the panel cap applied |
| RouteSequencer.RoutePlayer.DrawSegment | app.js:279-286 | the loop appends exactly the segment's 101 points and leaves the map centred on the segment's end |
| RouteSequencer.RoutePlayer.AnimateRoute | app.js:270-292 | the call's outcome and new state are exactly one step of the sequencer, and the cursor and card cap invariant holds |
| RouteSequencer.RoutePlayer.PlayRoute | app.js:242-267 | a disabled button does nothing: page state, button and preview stay as they were. An enabled one hides the preview and disables itself, and the page ends in the state, and with the outcome, of a whole chain from the armed state (fresh polyline, map created if missing) |

## Left out

- Canvas drawing, the random initial particle values and window resizing: the particles are a constructor parameter and the canvas size is fixed per instance.
- The particle `color` string is kept as an opacity number; only its presence, not its formatting, is modelled.
- The real-time clock, the timeline intersection observer and the chart-bar scroll effect: they only set display classes or text from the clock and the viewport.
- Leaflet itself (tiles, zoom, markers): the map is its centre, the polyline is its list of points, and `setView` becomes the default centre (Zhengzhou).
- Timers: the 500 ms fade, the 15 ms steps between points and the 500 ms delay between segments are not modelled; the model runs the chain without waiting.
- RouteSequencer.RoutePlayer.PlayRoute: the button is disabled only after the 500 ms fade, so a second click in that window could start a second chain on the same state. This interleaving is not modelled: a click runs its chain to the end.
- Card markup: the innerHTML of a card, the image fallback, the smooth scroll and the time of day printed on the card are not modelled. A card is its record and station number.
- The panel counts element children while `removeChild(lastChild)` removes the last node. The model assumes the panel holds only card elements, as it does once the first card is added to an empty container.
- The initial content of the panel and of the current-node label comes from the page's markup, which is not part of this model: `RoutePlayer`'s constructor takes both as parameters, with a panel of at most five cards.
- Counter.CounterAnimation.Frame: floating-point rounding is not modelled (values are exact reals). Neither is a target that `parseInt` cannot read (every frame then writes NaN), nor a non-positive duration: a zero duration writes NaN on the first frame and stops; a negative one keeps requesting frames and counts down below the start. The page always uses 1500 ms.
- Counter.ShownMonotone: stated for counting up only, the only direction the page uses (from 0 up to the target).
- Segments.SegmentPoints: coordinates are exact reals, so IEEE rounding of the interpolation is not modelled.
- The unhandled promise rejection from the thrown `TypeError` is only recorded as the outcome `Threw`; the console report is not modelled.
