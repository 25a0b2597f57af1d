# Earthquake playback viewer — playback and visibility model

This project models the playback and visibility logic of the earthquake
viewer's `App` class (`src/App.cpp`). The viewer shows a globe with a sphere
for each earthquake of the last year before a virtual "current time". That
clock runs through the data set at a speed the user controls with the
arrow keys. The model covers:

- the **playback clock**: each tick adds `playbackScale * rdt` to
  `currentTime`. A time past the last record snaps to the first record's
  date. A time before the first record snaps to the last record's date.
- **speed control**: LEFT divides the speed by 1.3 and RIGHT multiplies it by 1.3.
- the **camera dolly**: UP moves the eye 0.01 towards the earth, but only if
  it stays farther than 1.2 along z. DOWN moves it 0.01 away.
- the **mouse drag flag**: a left-button press sets it and a release clears it.
- the **visible window**: each frame walks the record indices from
  `getIndexByDate(currentTime - one year)` up to, but not including,
  `getIndexByDate(currentTime)`.
- **marker classification**: a magnitude below 6 is drawn yellow, below 7
  orange, otherwise red. The sphere radius is `0.0025 * magnitude`.

Files:

- `quakes.dfy`, module `Quakes`: the earthquake database, kept abstract. A
  database is a non-empty sequence of records plus a date lookup. The only
  promise about the lookup is the one the viewer relies on: it returns an
  index from the first record to one past the last.
- `playback.dfy`, module `Playback`: the rules that are decisions on values.
  These are the clock snap, speed steps, dolly step, drag flag, colour and
  radius, with lemmas about single events and about sequences of them.
- `app.dfy`, module `Viewer`: the `App` class with its constructor, event
  handler, simulation tick and frame. Each method is proved against the
  `Playback` functions. It also holds the frame's loop over the visible window.

Times, speeds and distances are `real`. The arithmetic is exact and
floating-point rounding is not modelled.

The two clock tests in the source run one after the other, not as
`if … else if`. `Playback.Wrap` is written that way, and its contract proves
that at most one of them ever fires.

The date lookup's source is not part of this model, so the model does not
fix which records a window holds. `Viewer.WindowUnderLowerBound` assumes the
lookup is a lower bound (the first record dated at or after the given
time). Under that assumption the window holds the records dated from one
year before `currentTime` up to, but not including, `currentTime`. A record
dated exactly one year before `currentTime` is then drawn, and one dated
exactly at `currentTime` is not.

## Model

| member | source | states |
|---|---|---|
| `Playback.Wrap` | src/App.cpp:150-158 | The two sequential snap tests act as one `if … else if`: past the last date gives the first date, before the first date gives the last, otherwise the time is kept. When the first date is not after the last, the result lies between them. |
| `Playback.WrapCases` | src/App.cpp:152-158 | With first ≤ last: a time in the span is kept, a time past the last date becomes exactly the first date, and a time before the first date becomes exactly the last date. |
| `Playback.WrapIdempotent` | src/App.cpp:153-158 | Snapping an already snapped time changes nothing. |
| `Playback.TicksStayInSpan` | src/App.cpp:150-158 | After any non-empty sequence of ticks, of any lengths and at any speed, the clock lies in the span. It also stays there from a start inside the span. |
| `Playback.Slower` | src/App.cpp:106-108 | LEFT's step is the inverse of multiplying by 1.3. It keeps the sign of the speed and lowers a positive speed. |
| `Playback.Faster` | src/App.cpp:109-111 | RIGHT's step is the inverse of dividing by 1.3. It keeps the sign of the speed and raises a positive speed. |
| `Playback.SpeedStepsCancel` | src/App.cpp:106-111 | A slow-down step then a speed-up step, in either order, gives back the original speed. |
| `Playback.ScaleOnEvent` | src/App.cpp:105-111 | LEFT (down or repeat) divides the speed by 1.3, RIGHT multiplies it by 1.3, and any other event keeps it. The result is positive exactly when the old speed was, and negative exactly when the old speed was. |
| `Playback.LeftRightRestores` | src/App.cpp:106-111 | A LEFT event and a RIGHT event, in either order, restore the speed exactly. |
| `Playback.EventsKeepDirection` | src/App.cpp:106-111 | No sequence of events reverses the direction of playback, and none stops or starts the clock (exact over reals; see "Left out" for what `double` does). |
| `Playback.EyeOnEvent` | src/App.cpp:113-123 | x and y never change. UP lowers z by 0.01 exactly when the new z is above 1.2, and otherwise leaves z as it was. DOWN raises z by 0.01. Other events keep the eye. A move towards the earth always lands above 1.2. |
| `Playback.EventsKeepEyeOut` | src/App.cpp:113-123 | From any eye farther than 1.2 along z, every sequence of events keeps it farther than 1.2 and keeps its x and y. |
| `Playback.InitialEyeStaysOut` | src/App.cpp:113-123 | From the start position (0, 0, 4), the eye stays on the z axis above 1.2 after any sequence of events. |
| `Playback.MouseDownOnEvent` | src/App.cpp:125-132 | A left-button press sets the drag flag, a release clears it, and every other event keeps it. |
| `Playback.Classify` | src/App.cpp:230-238 | Each magnitude is in exactly one bucket: yellow iff below 6, orange iff from 6 to below 7, red iff 7 or more. |
| `Playback.ClassifyMonotone` | src/App.cpp:230-238 | A stronger earthquake never falls into a lower colour bucket. |
| `Playback.Radius` | src/App.cpp:225-226 | The radius is one four-hundredth of the magnitude, and it is positive for a positive magnitude. |
| `Playback.RadiusMonotone` | src/App.cpp:226 | The radius does not decrease as the magnitude grows. |
| `Quakes.Database.IndexByDate` | src/App.cpp:218-219 | The date lookup returns an index from the first record to one past the last, so it can bound the frame's loop. |
| `Quakes.SortedBounds` | src/App.cpp:153-157 | When the records are in date order, every record's date lies between the first and last records' dates. |
| `Quakes.SortedSpan` | src/App.cpp:153-157 | In a date-ordered data set the first record's date is not after the last record's, so the span the clock snaps into is never inverted and the clock invariant of `Viewer.App` holds without condition. |
| `Viewer.MarkerOf` | src/App.cpp:221-238 | The marker for an index carries that index, the colour `Classify` gives for its magnitude, a radius of one four-hundredth of its magnitude, and the record's latitude and longitude. |
| `Viewer.WalkVisible` | src/App.cpp:218-221 | The frame's loop visits exactly the indices from the lookup of `now` minus one year (31536000 s, line 15) up to, but not including, the lookup of `now`. It visits them in strictly increasing index order, each once, and draws each index's marker. It visits nothing when the start is not below the end. |
| `Viewer.WindowUnderLowerBound` | src/App.cpp:218-219 | If the lookup is a lower bound, the window's start is never after its end. A record is in the window iff its date is at least one year before `now` and before `now`. |
| `Viewer.App.constructor` | src/App.cpp:27-68 | Start-up state: the clock at the first record's date, a speed of 86400, the eye at (0, 0, 4), no drag, playing. The class invariant holds. |
| `Viewer.App.OnEvent` | src/App.cpp:102-147 | The speed, eye and drag flag become `ScaleOnEvent`, `EyeOnEvent` and `MouseDownOnEvent` of their old values. A press records its position. The clock and the `playing` flag are unchanged. The eye invariant (on the z axis, above 1.2) is kept. |
| `Viewer.App.OnSimulation` | src/App.cpp:150-158 | The new clock is `Wrap` of the old clock plus speed × `rdt`. When the first date is not after the last, the clock stays in the span. Nothing else changes. |
| `Viewer.App.OnRenderGraphics` | src/App.cpp:192-221 | One frame runs a tick, then walks the visible window at the new time, with the same guarantees as `OnSimulation` and `WalkVisible`. |

## Left out

- Globe rotation is not modelled. This covers the mouse-drag rotation (src/App.cpp:133-145) and the "north pole up" correction at the end of each tick (src/App.cpp:160-189). Both are matrix, quaternion and `atan2` numerics. Only the drag flag and the press position are kept.
- OpenGL state, shaders, the earth and sphere meshes, and font-based text rendering are not modelled (`initializeText`, `drawString`, `drawText`, the destructor). They are rendering through libraries that are not part of this model.
- The magnitude labels and the date label are not modelled (src/App.cpp:240-244, 286-293). They are string formatting through `stringstream` and the `Date` class, which is not part of this model.
- The start-up checks that the texture and data paths exist are not modelled (src/App.cpp:35-53). They are file I/O; src/config.h only holds those paths.
- `glfwGetTime` frame timing is not modelled (src/App.cpp:29, 193-195). `OnRenderGraphics` and `OnSimulation` take the elapsed real time `rdt` as a parameter, so the `lastTime` field is not kept.
- `EarthquakeDatabase` is abstract: the file parsing, the record order and the date search are not part of this model. `getMinIndex` is taken to be 0 and `getMaxIndex` to be the count minus one. Converting `currentTime` to a `Date` and back is taken to be exact.
- Event dispatch is not modelled. An event is its name string plus its 2D data, which is used only on a left-button press.
- `lastMousePos` has no defined start value in the source. The model starts it at (0, 0) and promises nothing about it.
- Floating-point rounding is not modelled: `float` and `double` become `real`. So `LeftRightRestores` and `SpeedStepsCancel` hold exactly, where the program only comes close.
- `EventsKeepDirection`: the promise that no key press stops the clock holds over reals only. In `double` arithmetic, many LEFT presses shrink `playbackScale` until `currentTime += playbackScale * rdt` no longer changes a clock near 1.5e9 seconds (roughly 90 presses from 86400 at 60 frames per second, an estimate), and further presses underflow the scale to 0. Many RIGHT presses overflow it to infinity.
