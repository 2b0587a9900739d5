# 3D evacuation plan: route markers, fire particles and the control panel

A Dafny model of the logic behind a 3-D city evacuation viewer. An operator
picks a location from a dropdown and places a fire there. The scene then shows
a rising particle plume at the location's coordinate, a label above it, and,
when the fire is at "OTE Building", arrows along two evacuation paths.

Three modules, one per source file:

- `CityScene` (`city_scene.dfy`, pure functions). It holds the registry of ten
  named locations and the table of two navigation paths. It derives the fire
  anchor, the label anchor 10 above it, and the list of arrows. Each arrow is
  its start, its end and its colour. There is one arrow per consecutive pair of
  waypoints, both ends lifted by 2 on y. Arrows are yellow for the route keyed
  "OTE Building" and lime otherwise. They appear only while the fire is shown
  and the selection is literally "OTE Building".
  The source checks a path's first waypoint against the registry entry by
  object identity. Every registry entry is its own array, so the model names
  waypoints by their registry keys (`Route.stops`) and turns that identity test
  into a comparison of names (`StartsAtOte`). "OAKA" and "seven" have equal
  coordinates but are different entries.
- `FireEffect` (`fire_effect.dfy`, a class over two arrays). `Particles` owns
  the flat position and colour buffers of 500 particles, 1500 numbers each.
  Its constructor fills them from supplied draws. `Tick` updates the position
  buffer in place with stride 3. Each particle rises by `0.05 + r * 0.02`. A
  particle whose height then exceeds 2 restarts at height 0 with new x and z.
  `Valid()` carries the plume invariant, so it holds after any number of ticks:
  every y lies in [0, 2] and every x and z in [-0.1, 0.1).
- `App` (`app.dfy`, a class with three fields). The handlers of the control
  panel are methods of `App`. Each method's effect is the pure function `Step`
  on a `Snapshot` of the fields. `Run` folds `Step` over a sequence of events.
  The lemmas use `Run`: a shown fire is never hidden again, and the selection is
  always a dropdown value. Every dropdown value is registered in the scene, so
  the fire is drawn exactly while it has been placed and a location is
  selected, at that location's coordinate. Choosing the placeholder after
  placing the fire keeps `showFire` set but draws nothing.

Randomness is a parameter. The set-up takes four draws per particle, in the
source's call order: x, y, z, then the colour mix. A tick takes three draws per
particle: the rise, the new x and the new z. Every draw lies in [0, 1).
Coordinates and channels are `real`s. Pure functions are deterministic by
construction, so deriving the arrows twice from the same state gives the same
list without a lemma.

Three details of the code shape the model:

- The arrows are gated on the selection being literally "OTE Building"
  (src/components/CityScene.tsx:154), not on a route's origin being the
  selection.
- An arrow's colour follows its route's key (src/components/CityScene.tsx:170),
  yellow for the key "OTE Building" and lime for any other.
- The reset test is a strict `>` (src/components/FireEffect.tsx:47), so a
  particle may sit exactly at the ceiling and y lies in [0, 2].

## Model

| member | source | states |
|---|---|---|
| CityScene.Lookup | src/components/CityScene.tsx:51-66 | indexing the registry succeeds exactly for its keys and gives that key's coordinate |
| CityScene.RegistryLiterals | src/components/CityScene.tsx:51-64 | each of the ten names looks up to its literal coordinate; "OAKA" and "seven" share [15, 1, -15] |
| CityScene.LookupDefinedIff | src/components/CityScene.tsx:51-64 | a lookup succeeds exactly for the ten registered names, so any other name gives none |
| CityScene.FirePosition | src/components/CityScene.tsx:66 | the anchor exists exactly when the selection is non-empty and registered, and is then that name's registry coordinate |
| CityScene.FireAnchor | src/components/CityScene.tsx:120 | the fire is drawn exactly when it is shown and its anchor resolves, at that anchor |
| CityScene.LabelPosition | src/components/CityScene.tsx:120-126 | a label exists exactly when the fire is drawn; it has the anchor's x and z and its y plus 10 |
| CityScene.Path | src/components/CityScene.tsx:70-87 | a route's waypoints resolve, one for one and in order, to the registry coordinates of its stop names |
| CityScene.TableWellFormed | src/components/CityScene.tsx:68-92 | every waypoint is registered; both routes start at the "OTE Building" entry; route 1 has 4 waypoints ending at OAKA, route 2 has 7 ending at "seven", at the same coordinate |
| CityScene.ColorFor | src/components/CityScene.tsx:170 | a route's arrows are yellow exactly when its key is "OTE Building", and lime exactly when it is not |
| CityScene.Segments | src/components/CityScene.tsx:157-160 | a path of n > 0 waypoints yields n - 1 arrows, and an empty path none |
| CityScene.SegmentsAt | src/components/CityScene.tsx:157-170 | arrow i goes from waypoint i to waypoint i + 1, both points with y + 2 and x, z unchanged, in the route's colour |
| CityScene.Contributions | src/components/CityScene.tsx:150-181 | one arrow list per route, in table order; each is that route's segments in its key's colour when the selection is "OTE Building" and the route starts there, and empty otherwise |
| CityScene.RouteArrows | src/components/CityScene.tsx:150-154 | the routes' arrow lists laid end to end; there are no arrows unless the selection is "OTE Building" |
| CityScene.RouteArrowsNonEmpty | src/components/CityScene.tsx:150-176 | some arrow is produced when the selection is "OTE Building" and a route starts at that entry with two or more waypoints |
| CityScene.RouteArrowsAppend | src/components/CityScene.tsx:150-181 | the arrows of two route tables laid end to end are the first table's arrows followed by the second's |
| CityScene.RouteArrowsInOrder | src/components/CityScene.tsx:150-181 | the arrows are the routes' contributions end to end in table order: route i owns the slice between the counts of the routes before it and up to it; that slice is its segments in its key's colour when the selection is "OTE Building" and the route starts there, and empty otherwise |
| CityScene.DeriveArrows | src/components/CityScene.tsx:149-154 | arrows are drawn only while the fire is shown and the selection is "OTE Building" |
| CityScene.Render | src/components/CityScene.tsx:120-182 | the fire is drawn exactly when it is shown and the selection is registered, at its registry coordinate; the label is drawn exactly with the fire, 10 above it; arrows appear only with a drawn fire |
| CityScene.ArrowsShownIff | src/components/CityScene.tsx:149-154 | with the static tables, arrows are drawn if and only if the fire is shown and the selection is "OTE Building" |
| CityScene.OteScenario | src/components/CityScene.tsx:150-182 | with the fire at "OTE Building" the scene draws 9 arrows: route 1's 3 yellow arrows, then route 2's 6 lime arrows, in key order then waypoint order |
| CityScene.EmptySelectionDrawsNothing | src/components/CityScene.tsx:120-149 | with no selection there is no fire, no label and no arrow, shown or not |
| FireEffect.PutSlot | src/components/FireEffect.tsx:20-27 | writing slot i of a stride-3 buffer sets its three numbers and leaves every other slot unchanged |
| FireEffect.Spread | src/components/FireEffect.tsx:20-22 | a horizontal offset from a draw in [0, 1) lies in [-0.1, 0.1) |
| FireEffect.BaseHeight | src/components/FireEffect.tsx:21 | a starting height from a draw in [0, 1) lies in [0, 0.1) |
| FireEffect.Rise | src/components/FireEffect.tsx:46 | one frame's rise from a draw in [0, 1) lies in [0.05, 0.07) |
| FireEffect.Mix | src/components/FireEffect.tsx:16-27 | the set-up colour mixes dark orange towards orange red with one t shared by the three channels; each channel lies between the endpoint channels, and t = 0 gives the start colour, t = 1 the end colour |
| FireEffect.Spawn | src/components/FireEffect.tsx:20-22 | a set-up particle has x and z in [-0.1, 0.1) and y in [0, 0.1), so it lies in the plume |
| FireEffect.Advance | src/components/FireEffect.tsx:46-51 | a particle rises by the drawn amount with x, z kept unless that takes it above 2; then y becomes 0 and x, z lie in [-0.1, 0.1); the plume bounds are preserved |
| FireEffect.RecycledClimbs | src/components/FireEffect.tsx:46-51 | a particle reset on one frame is at a height in [0.05, 0.07) on the next |
| FireEffect.CeilingIsInclusive | src/components/FireEffect.tsx:46-51 | any particle whose rise lands it exactly at height 2 stays there with x and z kept, not reset |
| FireEffect.Particles.constructor | src/components/FireEffect.tsx:10-34 | two fresh distinct buffers of 1500 numbers; particle i is spawned from draws 4i to 4i + 2 and coloured by mixing dark orange to orange red with draw 4i + 3; the plume invariant holds |
| FireEffect.Particles.Tick | src/components/FireEffect.tsx:37-55 | each particle becomes `Advance` of its own old position and its own three draws; the colour buffer is unchanged; the plume invariant is kept |
| App.Step | src/App.tsx:15-54 | one event's effect: a choice sets the selection and nothing else moves it; the fire becomes shown exactly when it was or a placement comes with a selection; the reset pulse is raised by the button, lowered by the timer and otherwise kept |
| App.Run | src/App.tsx:15-27 | no events change nothing; the selection after a run is the initial one or the value of one of its choices |
| App.RunAppend | src/App.tsx:15-27 | handling two batches of events in turn is handling them as one sequence |
| App.LastChoiceWins | src/App.tsx:54 | after a run, the selection is the value of its last choice |
| App.FireStaysShown | src/App.tsx:15-27 | once the fire is shown, no sequence of events hides it again |
| App.FireShownIff | src/App.tsx:15-21 | after a run the fire is shown exactly when it was before or some placement happened while a location was selected |
| App.SelectionIsOption | src/App.tsx:52-61 | when every choice comes from the dropdown, the selection stays `""` or one of the four named options |
| App.OptionsRegistered | src/App.tsx:12 | each of the four dropdown names is a registered location of the scene |
| App.FireDrawnWhenPlaced | src/App.tsx:31-36 | from the initial state, the scene draws the fire exactly when it was placed and a location is selected, at that location's coordinate |
| App.App.constructor | src/App.tsx:8-10 | the panel starts with no selection, no fire and no reset pending |
| App.App.Choose | src/App.tsx:54 | the selection becomes the chosen dropdown value; fire and reset pulse are unchanged |
| App.App.HandlePlaceFire | src/App.tsx:15-21 | the fire becomes shown if it was or a location is selected; nothing else changes |
| App.App.HandleResetCamera | src/App.tsx:24-25 | the reset pulse is raised; selection and fire are unchanged |
| App.App.ResetTimerElapsed | src/App.tsx:26 | the reset pulse is lowered; selection and fire are unchanged |

## Left out

- Rendering is not modelled: the canvas, lights, `Center`, the GLTF scene, `OrbitControls`, the label's styling and text, and `needsUpdate`. These are calls into three.js and React with nothing to state about them.
- The camera reset itself is not modelled (src/components/CityScene.tsx:45-49), because it calls a camera-controls object. Only the pulse field is modelled.
- The reset timer's 100 ms delay is not modelled (src/App.tsx:26). The timer's callback is the event `ResetTimerElapsed`, which may come at any point.
- The `alert` calls and the button's `disabled` attribute are not modelled. `HandlePlaceFire` handles an empty selection the way the handler's own code does.
- The arrow helper's direction normalisation and length (src/components/CityScene.tsx:22-34) are square-root floating-point maths. An arrow is modelled as its start, end and colour.
- Floating point is not modelled: JavaScript numbers, `Float32Array` rounding, and the conversion of hex colours to three.js's linear working space. Coordinates and colour channels are reals. The colour endpoints are the channel values of 0xFF8C00 and 0xFF4500 divided by 255.
- `Math.random` is not modelled. Draws are parameters in [0, 1).
- FireEffect.Particles.Tick: takes three draws per particle, whether or not the particle resets. The source reads one stream, taking one draw per particle plus two more on a reset. Independent uniform draws make the two equivalent in distribution, but the model does not fix which stream value a given particle receives.
- The guard that skips a tick when the position attribute is missing (src/components/FireEffect.tsx:38) is not modelled. The set-up always attaches the attribute, and `Valid()` keeps the buffer present.
- Mounting is not modelled. The fire effect exists only while the fire anchor exists. When the selection is cleared it unmounts, and a later anchor mounts a fresh one with new buffers. The model has the constructor and the tick, but not this lifecycle.
- Lookups of names that JavaScript objects inherit (such as "toString") are not modelled. The dropdown cannot produce them, and the registry is a plain map.
