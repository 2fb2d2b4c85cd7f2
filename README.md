# Microscopia gameplay scripts in Dafny

This project models the gameplay scripts of the Unity game Microscopia and
proves properties of the model.

- **Layout generator** (`QuantumPlaygroundGenerator`):
  - Draws a seeded number of rooms and places each one by rejection sampling: up to 50 candidate centres, none overlapping an earlier room grown by a padding of 2.
  - Links consecutive rooms with four-wall corridors.
  - Furnishes every room according to its type (Normal, Quantum, Mixed).
  - Caches the room list of each seed and replays it on a later request.
- **Event registry** (`GameEvent`, `GameEventListener`): a duplicate-free list of listeners, notified from the last registered to the first, and a latch recording that the event was invoked.
- **Two-state switch** (`UnityEventCaller`).
- **Zoomable object** (`Zoomable`): clamped wheel scaling, a displayed scale that follows the target, and threshold events that fire once per upward crossing.
- **Level viewer** (`ZoomController`): clamped camera zoom, a camera kept over the picture, and level loading that replaces the hotspot objects.
- **Collectible item** (`Collectible`): collected at most once, with three outcomes (deactivate, destroy now, destroy after a delay).
- **Menu camera** (`MenuCamera`): inspector corrections and a cycling background colour.

Each script that updates fields in place is a `class` whose methods state the new state. Pure parts are functions:
- Unity's `Mathf`, `Vector2`/`Vector3` and `Rect` arithmetic;
- sorting;
- the inspector corrections.

Lemmas relate these functions across several calls.

Files:
- `mathf.dfy`: `Mathf.Clamp`/`Clamp01`/`Lerp`/`Min`/`Max`, over `real`.
- `geometry.dfy`: vectors, rectangles, room and corridor corners.
- `system_random.dfy`: `System.Random`, seen as a stream of samples.
- `quantum_playground.dfy`: the generator.
- `seq_ops.dfy`: the `List` operations the registry uses.
- `game_event.dfy`: the event registry.
- `unity_event_caller.dfy`: the two-state switch.
- `zoomable.dfy`: the zoomable object.
- `zoom_controller.dfy`: the level viewer.
- `collectible.dfy`: the collectible item.
- `menu_camera.dfy`: the menu camera.

Unity calls become explicit state or parameters:
- **Host objects:**
  - Walls, decorations, particle effects and backgrounds are values.
  - `scene` lists the objects tagged "Generated" that are alive.
  - Hotspot objects carry a fresh handle.
  - Destroyed objects are logged.
- **Events:**
  - A `UnityEvent` is a flag or an identifier saying whether it is set.
  - The invocations are logged in order.
- **Coroutines:**
  - A started coroutine is a pending counter or flag.
  - Its completion is a separate method.
- **Engine inputs are parameters:**
  - the frame time, the scroll delta, key presses, the collider tag, the camera's clear flags and aspect, and the renderer's bounds.
- **Exceptions:**
  - Three throws are modelled: `ZoomController.LoadLevel` without a level renderer, `Collectible.Collect` with a delay but no colliders kept by `Awake`, and `MenuCamera.UpdateBackgroundColor` with no colours.
  - These operations, and the callers that propagate them, return `thrown`, with the state at the point of the throw.
  - The scripts throw under other settings too: unset inspector references (a null `hotspotPrefab`, `targetCamera`, or `Camera.main` in `ZoomController` and `Zoomable`), a missing `Event`, and generator settings such as empty prefab arrays. The model either excludes these by a precondition or has no null for the reference. Each is listed under "## Left out".

## Model

| member | source | states |
|---|---|---|
| Mathf.Clamp | Assets/Scripts/Zoomable.cs:64-66 | the lower bound is tested first: a value below min gives min, otherwise a value above max gives max, and a value inside is kept; so the result lies in [min, max] when min ≤ max |
| Mathf.Clamp01 | Assets/Scripts/Zoomable.cs:104 | values in [0, 1] are kept, values below 0 give 0 and values above 1 give 1 |
| Mathf.Lerp | Assets/Scripts/ZoomController.cs:71 | the parameter is clamped first; the result closes that fraction of the gap from the start to the target, so 0 gives the start, 1 the target and 0.5 the midpoint, and it always lies between the two |
| Mathf.LerpMonotone | Assets/Scripts/Zoomable.cs:104 | a larger parameter never moves the result back towards the start |
| Mathf.Max | Assets/Scripts/MenuCamera.cs:72-78 | the result is one of the arguments and at least both |
| Mathf.Min | Assets/Scripts/MenuCamera.cs:73 | the result is one of the arguments and at most both |
| Geometry.CenteredRect | Assets/Scripts/QuantumPlaygroundGenerator.cs:117 | the rectangle has the given size and is centred on the given point |
| Geometry.Rect.Overlaps | Assets/Scripts/QuantumPlaygroundGenerator.cs:128 | `Rect.Overlaps` is strict: rectangles that only share an edge do not overlap, and rectangles of positive size overlap exactly when some point lies strictly inside both |
| Geometry.Inflate | Assets/Scripts/QuantumPlaygroundGenerator.cs:123-126 | every side moves out by the padding |
| Geometry.CenteredOverlapIff | Assets/Scripts/QuantumPlaygroundGenerator.cs:115-133 | a candidate overlaps an earlier room grown by the padding exactly when their centres are closer than the half sizes plus the padding on both axes, because `Rect.Overlaps` is strict |
| Geometry.RoomCorners | Assets/Scripts/QuantumPlaygroundGenerator.cs:223-229 | four corners whose diagonals meet at the centre, with the room's width along x and height along y |
| Geometry.Perpendicular | Assets/Scripts/QuantumPlaygroundGenerator.cs:155 | the normal is orthogonal to the direction and as long |
| Geometry.CorridorCorners | Assets/Scripts/QuantumPlaygroundGenerator.cs:161-167 | the long sides run parallel to start→end, the short sides are centred on the room centres, and the sides lie `width` apart along the normal |
| Geometry.CorridorSidesApart | Assets/Scripts/QuantumPlaygroundGenerator.cs:153-167 | with a unit direction, both short sides have length exactly the corridor width |
| Geometry.InteriorPoint | Assets/Scripts/QuantumPlaygroundGenerator.cs:288-294 | a drawn point lies within 0.4 of the room size from the centre on each axis |
| SystemRandom.ScaledIndex | Assets/Scripts/QuantumPlaygroundGenerator.cs:184 | a truncated draw lies in [0, range), and is 0 for range 0 |
| SystemRandom.Random.NextInRange | Assets/Scripts/QuantumPlaygroundGenerator.cs:77 | `Next(a, b)` lies in [a, b), is `a` when a = b, and consumes one sample |
| SystemRandom.Random.Next | Assets/Scripts/QuantumPlaygroundGenerator.cs:184 | `Next(n)` lies in [0, n), is 0 for n = 0, and consumes one sample |
| SystemRandom.Random.NextDouble | Assets/Scripts/QuantumPlaygroundGenerator.cs:84-85 | a sample lies in [0, 1) and consumes one draw |
| QuantumPlayground.RoomTypeOf | Assets/Scripts/QuantumPlaygroundGenerator.cs:87 | the enum cast maps 0 to Normal, 1 to Quantum and 2 to Mixed |
| QuantumPlayground.Room.constructor | Assets/Scripts/QuantumPlaygroundGenerator.cs:29-44 | a room keeps the centre, size and type it was drawn with and starts with no walls and no objects |
| QuantumPlayground.ScaledSample | Assets/Scripts/QuantumPlaygroundGenerator.cs:84-85 | `NextDouble() * span + lo` lies in [lo, lo + span) for a positive span, is `lo` for an empty span, and lies in (lo + span, lo] for a negative one |
| QuantumPlayground.CandidateDrawn | Assets/Scripts/QuantumPlaygroundGenerator.cs:95-98 | every candidate centre lies in the range its two samples can produce on each axis |
| QuantumPlayground.Clashes | Assets/Scripts/QuantumPlaygroundGenerator.cs:117-129 | for sizes that are not negative, a candidate clashes with an earlier room exactly when their centres are closer than the half sizes plus the padding of 2 on both axes |
| QuantumPlayground.RoomOverlaps | Assets/Scripts/QuantumPlaygroundGenerator.cs:115-133 | the answer is true exactly when the candidate overlaps some listed room grown by the padding |
| QuantumPlayground.PlacedRoomsApart | Assets/Scripts/QuantumPlaygroundGenerator.cs:100-109 | rooms placed with sizes in a valid range keep the padding between them on at least one axis, so no two share a centre and no corridor has length zero |
| QuantumPlayground.PassKept | Assets/Scripts/QuantumPlaygroundGenerator.cs:100-109 | a pass whose search placed its room, appended as the next kept room, is as the stream dictates, and the kept rooms stay spaced |
| QuantumPlayground.PassDropped | Assets/Scripts/QuantumPlaygroundGenerator.cs:93-109 | a pass whose 50 candidates all clashed keeps no room and is as the stream dictates |
| QuantumPlayground.TriedGrows | Assets/Scripts/QuantumPlaygroundGenerator.cs:100-109 | rooms kept later do not change what an earlier pass saw, since each pass is checked against the rooms kept before it |
| QuantumPlayground.LaidExtended | Assets/Scripts/QuantumPlaygroundGenerator.cs:79-110 | a laid sequence of passes followed by one more pass, started where the previous one stopped drawing, is still laid |
| QuantumPlayground.LaidPasses | Assets/Scripts/QuantumPlaygroundGenerator.cs:79-110 | every pass of a laid sequence is as the stream dictates against the final room list |
| QuantumPlayground.LaidChained | Assets/Scripts/QuantumPlaygroundGenerator.cs:79-110 | the first pass starts at the first sample with no room kept, and each later pass starts at the sample and room count where the previous one stopped |
| QuantumPlayground.LaidLast | Assets/Scripts/QuantumPlaygroundGenerator.cs:79-112 | a laid sequence stops drawing where its last pass stops, having kept exactly the rooms returned |
| QuantumPlayground.GeneratedFrom | Assets/Scripts/QuantumPlaygroundGenerator.cs:74-112 | the room loop run from the second sample of a stream whose first sample gave the count is exactly `Generated` |
| QuantumPlayground.FitsSameLayout | Assets/Scripts/QuantumPlaygroundGenerator.cs:100 | whether a centre fits depends only on the centres and sizes of the rooms kept, not on which objects hold them |
| QuantumPlayground.FirstFitUnique | Assets/Scripts/QuantumPlaygroundGenerator.cs:91-106 | two first-fit searches over the same stream, size and layout try the same number of candidates and end the same way |
| QuantumPlayground.TriedUnique | Assets/Scripts/QuantumPlaygroundGenerator.cs:81-109 | a pass starting at the same sample after the same layout draws the same size and type, tries the same candidates and keeps a room with the same centre, size and type |
| QuantumPlayground.SameLayoutGrown | Assets/Scripts/QuantumPlaygroundGenerator.cs:108-109 | layouts that agree before a pass and on the room it appends agree after it |
| QuantumPlayground.LastPassUnique | Assets/Scripts/QuantumPlaygroundGenerator.cs:79-110 | two laid trails whose last passes start at the same sample after the same layout end with the same pass, at the same sample, with the same layout |
| QuantumPlayground.LaidUnique | Assets/Scripts/QuantumPlaygroundGenerator.cs:79-112 | the room loop is deterministic: the same number of passes over the same stream records the same passes, stops at the same sample and keeps the same layout |
| QuantumPlayground.GeneratedUnique | Assets/Scripts/QuantumPlaygroundGenerator.cs:74-113 | two cache misses on the same stream and settings lay out rooms with the same centres, sizes and types, in the same order, through the same passes |
| QuantumPlayground.SpawnedStep | Assets/Scripts/QuantumPlaygroundGenerator.cs:192-217 | populating one more room appends its boundary and its furnishings to what the earlier rooms spawned |
| QuantumPlayground.PopulateDrawsStep | Assets/Scripts/QuantumPlaygroundGenerator.cs:192-217 | populating one more room adds exactly that room's draws to those of the rooms before it |
| QuantumPlayground.NoCorridorStep | Assets/Scripts/QuantumPlaygroundGenerator.cs:192-217 | a room's boundary and furnishings add no "Corridor" object to the scene |
| QuantumPlayground.RoomMayLeavePlayground | Assets/Scripts/QuantumPlaygroundGenerator.cs:95-98 | a centre drawn at the lowest sample sits on the playground's edge, so half the room lies outside it (x reaches -55 for 10-wide rooms in a 100-wide playground) |
| QuantumPlayground.MaterialFor | Assets/Scripts/QuantumPlaygroundGenerator.cs:318-319 | only a Quantum room gets the quantum material |
| QuantumPlayground.FurnishedOf | Assets/Scripts/QuantumPlaygroundGenerator.cs:192-217 | a room's decorations followed by its particle effect and background are exactly what one populate appends to its objects |
| QuantumPlayground.CorridorAlongX | Assets/Scripts/QuantumPlaygroundGenerator.cs:150-167 | for any two rooms level with each other and direction (1, 0), the corners lie half the corridor width (1.5) above the centre line from the start centre to the end centre, then 1.5 below it back |
| QuantumPlayground.Generator.GenerateUniverse | Assets/Scripts/QuantumPlaygroundGenerator.cs:46-62 | on a miss (`Built`): only the seed's cache entry changes, to fresh rooms laid out from a fresh generator over the seed's stream as the room loop dictates (`Generated`); one corridor links each neighbouring pair; each room holds exactly one boundary and its furnishings; the scene is exactly the corridors followed by each room's boundary and furnishings; the stream stops exactly four samples per corridor plus the populate draws after the room loop's end. On a hit (`Repopulated`): the cache and the generator are kept, each cached room gets one more boundary and set of furnishings appended, the scene is exactly those objects, with no corridor, and the stream advances by exactly the populate draws |
| QuantumPlayground.Generator.BuildUniverse | Assets/Scripts/QuantumPlaygroundGenerator.cs:53-61 | the miss path ends in `Built`: the seed's entry is the only cache change, the rooms are exactly those the room loop lays out from the seed's stream, the corridors link neighbouring rooms, the scene is the corridors followed by what populating spawned, and the stream stops exactly four samples per corridor plus the populate draws after the room loop |
| QuantumPlayground.Generator.LayOut | Assets/Scripts/QuantumPlaygroundGenerator.cs:53-57 | reseeding, clearing, `GenerateRooms` and `ConnectRooms`: a fresh generator over the seed's stream, fresh empty rooms as the stream dictates (`Generated`), distinct and spaced, a scene holding exactly one corridor per neighbouring pair, and the stream stopped exactly four samples per corridor after the room loop's last pass |
| QuantumPlayground.Generator.Reseed | Assets/Scripts/QuantumPlaygroundGenerator.cs:53 | `new System.Random(seed)`: a fresh generator over the seed's stream with no sample drawn |
| QuantumPlayground.Generator.Settle | Assets/Scripts/QuantumPlaygroundGenerator.cs:58-60 | caching and populating a miss's rooms: the cache gains exactly the seed's entry, each room holds one boundary and its furnishings, the scene is the corridors followed by what was spawned, and the stream advances by exactly the populate draws (`PopulateDraws`) |
| QuantumPlayground.Generator.CacheRooms | Assets/Scripts/QuantumPlaygroundGenerator.cs:60 | `universeCache[seed] = rooms`: only that entry changes, and the generator stays valid |
| QuantumPlayground.Generator.PopulateNew | Assets/Scripts/QuantumPlaygroundGenerator.cs:58 | over empty rooms, each room ends holding exactly one boundary and its furnishings, the scene gains exactly the spawned objects, and the stream advances by exactly the populate draws |
| QuantumPlayground.Generator.ClearCurrentUniverse | Assets/Scripts/QuantumPlaygroundGenerator.cs:64-72 | no "Generated" object remains |
| QuantumPlayground.Generator.GenerateRooms | Assets/Scripts/QuantumPlaygroundGenerator.cs:74-113 | the drawn count is `Next(minRooms, maxRooms + 1)` of the first sample, in [minRooms, maxRooms]; one pass per counted room, in order, each as the stream dictates (`Laid`): its size and type from its first three samples, the room kept at its FIRST candidate centre that fits and dropped only after 50 clashing candidates; kept plus dropped make the count, and the kept rooms are distinct, fresh, empty and spaced |
| QuantumPlayground.Generator.DrawRooms | Assets/Scripts/QuantumPlaygroundGenerator.cs:79-110 | the `for` loop: exactly `count` passes, laid one after another from the current sample, keeping distinct, fresh, empty and spaced rooms |
| QuantumPlayground.Generator.DrawRoom | Assets/Scripts/QuantumPlaygroundGenerator.cs:81-109 | one pass: its size and type come from the next three samples, the room is appended exactly when the first-fit search placed it, at the centre found, and the rooms stay distinct and spaced |
| QuantumPlayground.Generator.DrawShape | Assets/Scripts/QuantumPlaygroundGenerator.cs:81-88 | the size on each axis is `NextDouble() * (maxRoomSize - minRoomSize) + minRoomSize` of the next two samples, the type is `Next(0, 3)` of the third, and three samples are consumed |
| QuantumPlayground.Generator.PlaceRoom | Assets/Scripts/QuantumPlaygroundGenerator.cs:91-106 | 1 to 50 attempts, two samples each; every candidate before the last clashes with an earlier room; the room is placed exactly when the last candidate fits, at that centre, inside the drawn ranges; failing means all 50 candidates clashed (`FirstFit`) |
| QuantumPlayground.Generator.DrawCandidate | Assets/Scripts/QuantumPlaygroundGenerator.cs:95-98 | the next two samples scaled to `[-W/2, W/2 - size)` on each axis, consuming two samples |
| QuantumPlayground.Generator.ConnectRooms | Assets/Scripts/QuantumPlaygroundGenerator.cs:135-148 | exactly one corridor per pair of consecutive rooms, in order, appended to the scene, consuming exactly four samples per corridor |
| QuantumPlayground.Generator.CreateCorridor | Assets/Scripts/QuantumPlaygroundGenerator.cs:150-176 | one "Corridor" parent whose four walls join the corridor corners k to (k + 1) % 4, consuming exactly four samples, one wall pick each |
| QuantumPlayground.Generator.CreateWalls | Assets/Scripts/QuantumPlaygroundGenerator.cs:169-175 | four walls from corner k to corner (k + 1) % 4, each with a prefab in range, consuming four samples |
| QuantumPlayground.Generator.CreateWall | Assets/Scripts/QuantumPlaygroundGenerator.cs:178-190 | one wall between the two points, from a prefab in range, consuming one sample |
| QuantumPlayground.Generator.PopulateRooms | Assets/Scripts/QuantumPlaygroundGenerator.cs:192-218 | each room gets exactly one boundary appended to its walls and one populate's furnishings appended to its objects, as its type dictates; the scene gains exactly those objects, room by room in list order, and no corridor; the stream advances by exactly the sum of the rooms' draws (`PopulateDraws`) |
| QuantumPlayground.Generator.PopulateStep | Assets/Scripts/QuantumPlaygroundGenerator.cs:194-217 | one iteration of the `foreach`: room `i` gains its boundary and furnishings, the rooms after it are untouched, the scene grows by exactly what was spawned, and the draws so far grow by exactly room `i`'s (`RoomDraws`) |
| QuantumPlayground.Generator.PopulateRoom | Assets/Scripts/QuantumPlaygroundGenerator.cs:196-216 | one room: a "Room_Walls" boundary, then the furnishings, appended to the room and the scene; exactly `RoomDraws` samples: four wall picks, the decoration counts, and four per decoration |
| QuantumPlayground.Generator.Furnish | Assets/Scripts/QuantumPlaygroundGenerator.cs:199-216 | the type's decorations, then the particle effect if enabled and the background, appended to the room's objects and the scene; exactly the count draws plus four samples per decoration, none for the effect or the background |
| QuantumPlayground.Generator.PopulateByType | Assets/Scripts/QuantumPlaygroundGenerator.cs:200-213 | a Normal room gets 2–4 reflective surfaces, a Quantum room 3–5 barriers, and a Mixed room both passes in that order; exactly one count draw per pass and four samples per decoration |
| QuantumPlayground.Generator.CreateRoomBoundaries | Assets/Scripts/QuantumPlaygroundGenerator.cs:220-243 | one "Room_Walls" parent whose four walls close the loop around the room's corners, appended to the room's walls |
| QuantumPlayground.Generator.PopulateNormalRoom | Assets/Scripts/QuantumPlaygroundGenerator.cs:245-261 | 2 to 4 reflective surfaces inside the room's central 80%, consuming exactly one sample for the count and four per surface |
| QuantumPlayground.Generator.PopulateQuantumRoom | Assets/Scripts/QuantumPlaygroundGenerator.cs:263-279 | 3 to 5 energy barriers inside the room's central 80%, consuming exactly one sample for the count and four per barrier |
| QuantumPlayground.Generator.PopulateMixedRoom | Assets/Scripts/QuantumPlaygroundGenerator.cs:281-286 | the normal pass followed by the quantum pass, consuming exactly two count samples and four per decoration |
| QuantumPlayground.Generator.PlaceDecorations | Assets/Scripts/QuantumPlaygroundGenerator.cs:249-260 | exactly `count` decorations of the kind, inside the room's central 80%, at angles in [0, 360), from prefabs in range, four samples each |
| QuantumPlayground.Generator.GetRandomPositionInRoom | Assets/Scripts/QuantumPlaygroundGenerator.cs:288-294 | the point lies within 0.4 of the room size from the centre on each axis and uses two samples |
| QuantumPlayground.Generator.CreateBackground | Assets/Scripts/QuantumPlaygroundGenerator.cs:296-323 | a particle effect one unit back when one is configured, then a background two units back in the room's material |
| QuantumPlayground.Generator.LoadCachedUniverse | Assets/Scripts/QuantumPlaygroundGenerator.cs:325-334 | the scene is cleared and then holds exactly what is spawned; each cached room gets one more boundary and set of furnishings appended to its existing lists; no corridor is rebuilt; the stream advances by exactly the populate draws |
| SeqOps.IndexOf | Assets/Scripts/EventSystem/GameEvent.cs:46-47 | the position of the first occurrence |
| SeqOps.RemoveFirst | Assets/Scripts/EventSystem/GameEvent.cs:44-48 | `Remove` leaves a list without the element unchanged and otherwise cuts out its first occurrence, keeping the order of the rest |
| SeqOps.RemoveFirstNoDup | Assets/Scripts/EventSystem/GameEvent.cs:44-48 | removing from a duplicate-free list removes the element entirely, takes exactly one copy out, and keeps the list duplicate-free |
| SeqOps.AppendNoDup | Assets/Scripts/EventSystem/GameEvent.cs:38-42 | appending a missing element keeps the list duplicate-free |
| SeqOps.Reversed | Assets/Scripts/EventSystem/GameEvent.cs:32-33 | element k of the result is element n - 1 - k of the list |
| Events.GameEvent.RegisterListener | Assets/Scripts/EventSystem/GameEvent.cs:38-42 | afterwards the listener is registered exactly once: an already-registered listener leaves the list unchanged, and a new one is appended at the end |
| Events.GameEvent.UnregisterListener | Assets/Scripts/EventSystem/GameEvent.cs:44-48 | afterwards the listener is absent, the others keep their order, and exactly its one copy was removed |
| Events.GameEvent.Invoke | Assets/Scripts/EventSystem/GameEvent.cs:24-36 | every registered listener is notified exactly once, from the last registered to the first. The list is unchanged, and the invoked latch is set |
| Events.GameEventListener.OnEventInvoked | Assets/Scripts/EventSystem/GameEventListener.cs:38-44 | with a positive delay one deferred response is scheduled; otherwise the response runs at once when it is set |
| Events.GameEventListener.DelayedResponse | Assets/Scripts/EventSystem/GameEventListener.cs:46-50 | a scheduled response runs when set, and is no longer pending |
| Events.GameEventListener.OnEnable | Assets/Scripts/EventSystem/GameEventListener.cs:24-30 | the listener is then registered with its event, and it answers at once exactly when `CheckTriggered` holds and the event was already invoked |
| Events.GameEventListener.OnDisable | Assets/Scripts/EventSystem/GameEventListener.cs:32-36 | every pending response is cancelled and the listener is no longer registered |
| Toggle.UnityEventCaller.InvokeMain | Assets/Scripts/UnityEventCaller.cs:14-19 | the main event fires when it is set, and the switch is left on |
| Toggle.UnityEventCaller.InvokeReset | Assets/Scripts/UnityEventCaller.cs:21-26 | the reset event fires when it is set, and the switch is left off |
| Toggle.UnityEventCaller.SetState | Assets/Scripts/UnityEventCaller.cs:28-34 | the matching event fires even when the switch is already in that state, and the switch ends in the requested state |
| Toggle.UnityEventCaller.TrySetState | Assets/Scripts/UnityEventCaller.cs:36-40 | a request for the current state fires nothing; any other request fires the matching event; the switch ends in the requested state |
| Toggle.UnityEventCaller.ToggleState | Assets/Scripts/UnityEventCaller.cs:42-45 | the switch flips and the event of the new state fires |
| Toggle.UnityEventCaller.ToggleTwice | Assets/Scripts/UnityEventCaller.cs:42-45 | what two calls of `ToggleState` fire, from either start state: each set event exactly once and nothing else |
| Zoom.Insert | Assets/Scripts/Zoomable.cs:145 | inserting into a sorted list keeps it sorted and adds exactly that entry |
| Zoom.SortByThreshold | Assets/Scripts/Zoomable.cs:39 | the list sorted by threshold is non-decreasing and a permutation of the original |
| Zoom.Rearm | Assets/Scripts/Zoomable.cs:118-130 | after a pass an entry is marked triggered exactly when the scale is at or past its threshold, and it keeps its threshold and event |
| Zoom.RearmAll | Assets/Scripts/Zoomable.cs:116-131 | every entry of the list is rearmed, and the length is kept |
| Zoom.Due | Assets/Scripts/Zoomable.cs:116-124 | a pass fires at most one event per entry, and nothing when no untriggered entry has its threshold reached; exactly which entries fire is `Zoom.DueIff` |
| Zoom.DueIff | Assets/Scripts/Zoomable.cs:116-124 | a pass fires an event exactly when some entry carrying it has its threshold reached and was not already triggered |
| Zoom.NoRefireWithoutGrowth | Assets/Scripts/Zoomable.cs:116-131 | after a pass, a further pass at a scale no larger fires nothing |
| Zoom.RefiresOnCrossing | Assets/Scripts/Zoomable.cs:116-131 | after a pass, an entry is due exactly when the scale has crossed its threshold upwards since |
| Zoom.ClampEach | Assets/Scripts/Zoomable.cs:63-66 | with min <= max the result is within [min, max] in every component, and a vector already inside is unchanged |
| Zoom.Zoomable.Start | Assets/Scripts/Zoomable.cs:33-40 | the target scale starts at the current scale and the thresholds end sorted, as a permutation of the list |
| Zoom.Zoomable.HandleZoom | Assets/Scripts/Zoomable.cs:50-68 | zero scroll leaves the target scale alone. A scroll scales it by `1 + scroll * zoomSpeed` and clamps each component, so each lies in [minScale, maxScale] when minScale ≤ maxScale |
| Zoom.Zoomable.UpdateScale | Assets/Scripts/Zoomable.cs:100-110 | without smoothing the scale equals the target. With smoothing each component moves towards the target without passing it, and reaches it once `deltaTime * smoothSpeed` ≥ 1 |
| Zoom.Zoomable.CheckThresholds | Assets/Scripts/Zoomable.cs:112-132 | the entries are rearmed at the current x scale, the due events fire in list order, and sortedness is kept |
| Zoom.Zoomable.AddThresholdEvent | Assets/Scripts/Zoomable.cs:135-146 | the list grows by exactly one untriggered entry with the given threshold and event, and is sorted again |
| LevelView.ZoomController.Start | Assets/Scripts/ZoomController.cs:29-34 | the zoom target is set to its maximum and the current level is loaded, with every outcome of `LoadLevel`: an index out of range changes nothing else; a missing renderer throws after the hotspots are destroyed; a completed load shows the level, creates its hotspots in order at their positions and resets the camera |
| LevelView.ZoomController.HandleScroll | Assets/Scripts/ZoomController.cs:45-50 | zero scroll leaves the zoom alone. Otherwise the zoom becomes clamp(zoom - scroll * zoomSpeed, minZoom, maxZoom), inside the bounds when minZoom ≤ maxZoom |
| LevelView.ZoomController.UpdateCameraZoom | Assets/Scripts/ZoomController.cs:69-72 | the camera size moves towards the zoom target without passing it, and reaches it once `deltaTime * smoothSpeed` ≥ 1 |
| LevelView.ZoomController.ClampCameraPosition | Assets/Scripts/ZoomController.cs:74-91 | without a renderer nothing changes. Otherwise x is clamped into [min.x + width, max.x - width] and y into [min.y + height, max.y - height], and z is kept |
| LevelView.ZoomController.LoadLevel | Assets/Scripts/ZoomController.cs:93-110 | an index out of range changes nothing. A valid one destroys every active hotspot and sets the index. Without a renderer it then throws; otherwise it leaves one fresh hotspot per hotspot of the level, in order, and resets the camera |
| LevelView.ZoomController.CreateHotspot | Assets/Scripts/ZoomController.cs:112-124 | one fresh hotspot object at the hotspot's position is appended to the active ones |
| LevelView.ZoomController.ResetCamera | Assets/Scripts/ZoomController.cs:126-131 | zoom 1, camera at (0, 0, -10), orthographic size 5 |
| LevelView.ZoomController.TransitionToLevel | Assets/Scripts/ZoomController.cs:133-137 | exactly the effect of `LoadLevel` |
| Collecting.Collectible.Opening | Assets/Scripts/Collectible.cs:72-84 | the start signal comes first and the collection signal last; the effect and the sound play exactly when they are set; nothing finishes yet |
| Collecting.Collectible.Awake | Assets/Scripts/Collectible.cs:29-45 | particle collision messages are switched on only with particle collision and a particle system. Colliders are kept, all made triggers, only with trigger collision |
| Collecting.Collectible.OnTriggerEnter | Assets/Scripts/Collectible.cs:47-55 | with trigger collision, an uncollected item and the collector tag, the item is collected with every outcome of `Collect`; otherwise nothing changes, colliders included |
| Collecting.Collectible.OnParticleCollision | Assets/Scripts/Collectible.cs:57-65 | the same as `OnTriggerEnter`, under particle collision |
| Collecting.Collectible.Collect | Assets/Scripts/Collectible.cs:67-107 | a second collection changes nothing. The first sets the latch and logs start, effect, sound and collection, then one of: finish and deactivate; finish and destroy; disable all colliders and schedule the destruction; or throw when `Awake` kept no colliders |
| Collecting.Collectible.Open | Assets/Scripts/Collectible.cs:72-84 | the opening steps are appended to the log: the start signal, the effect and the sound when set, then the collection signal |
| Collecting.Collectible.DisableAll | Assets/Scripts/Collectible.cs:91-92 | every collider is disabled and otherwise unchanged |
| Collecting.Collectible.DestroyAfterDelay | Assets/Scripts/Collectible.cs:109-115 | the scheduled destruction finishes the collection and destroys the item |
| Collecting.Collectible.IsCollected | Assets/Scripts/Collectible.cs:122-125 | reports the latch |
| Menu.Validate | Assets/Scripts/MenuCamera.cs:70-79 | afterwards minFOV ≥ 1, maxFOV ≥ minFOV, maxFOV ≤ 179 whenever minFOV ≤ 179, minTimeInterval ≥ 0.1, maxTimeInterval ≥ minTimeInterval and transitionDuration ≥ 0.1. Settings are left unchanged exactly when they already satisfy all of this |
| Menu.ValidateIdempotent | Assets/Scripts/MenuCamera.cs:70-79 | validating twice gives the same settings as validating once |
| Menu.NextIndex | Assets/Scripts/MenuCamera.cs:89-92 | the index moves one on or wraps to 0, and stays in [0, count) for a non-empty list |
| Menu.AdvanceCompose | Assets/Scripts/MenuCamera.cs:89-92 | colour changes made in two batches add up |
| Menu.AdvanceWithin | Assets/Scripts/MenuCamera.cs:89-92 | short of the end of the list, each change moves the index one place |
| Menu.CycleReturns | Assets/Scripts/MenuCamera.cs:89-92 | after as many changes as there are colours, the index is back where it started |
| Menu.MenuCamera.OnValidate | Assets/Scripts/MenuCamera.cs:70-79 | the fields become the validated settings |
| Menu.MenuCamera.UpdateBackgroundColor | Assets/Scripts/MenuCamera.cs:81-98 | only a solid-colour camera changes. Its timer runs down; below zero the index advances with wrap-around, the colour is set from it and the timer restarts. With no colours the lookup throws after the index reset |
| Menu.MenuCamera.Update | Assets/Scripts/MenuCamera.cs:40-60 | the background update runs from the timer as it stands, or from -1 after a key press. So on a solid-colour camera a key press changes the colour in the same frame whatever the time left, and on any other camera it leaves the timer at -1 |

## Left out

- Engine object lifecycle: `Instantiate`, `Destroy`, tags, transforms, renderers, materials and particle shapes are represented by values and logs. Object identity in the engine is not modelled.
- `FindGameObjectsWithTag("Generated")` in `ClearCurrentUniverse` is the `scene` list. Objects tagged by other scripts are not modelled.
- `System.Random` internals: the seed-to-stream map is a parameter (`streamFor`). Contracts give the ranges of draws and the exact number of samples each generation step consumes (`RoomDraws`, `PopulateDraws`, four per corridor). Which values a seed produces is not modelled, so determinism per seed is stated over its stream (`QuantumPlayground.GeneratedUnique`).
- `Vector2.normalized`, `magnitude`, `Atan2`: square roots and trigonometry are not modelled. The corridor direction is an uninterpreted `normalize` function, and wall angles and lengths are left out.
- Float rounding: every quantity is a `real`. The `(float)` casts of samples are not modelled.
- `QuantumPlayground.Generator.GenerateRooms`: `maxRooms + 1` does not wrap at 2^31 - 1; the model uses unbounded integers.
- `QuantumPlayground.Generator.GenerateUniverse`: two misses on the same stream give rooms with the same centres, sizes and types (`QuantumPlayground.GeneratedUnique`), but as fresh objects: the model states equal layouts, not equal object identities.
- `QuantumPlayground.Generator.LoadCachedUniverse`: the one-room `PopulateRooms(new List<Room> { room })` calls, one per cached room in order with nothing in between, are modelled as a single `PopulateRooms` call on the whole cached list.
- `QuantumPlayground.Generator.Settle`: `universeCache[seed] = rooms` is done before `PopulateRooms(rooms)` rather than after. The cache holds the list of `Room` objects itself, so the final cache, rooms and scene are the same.
- Coroutines: `StartCoroutine`/`WaitForSeconds` in `GameEventListener` and `Collectible` are a pending counter or flag, and the wait's end is a method (`DelayedResponse`, `DestroyAfterDelay`). Wall-clock timing is not modelled.
- The event registry's `Debug.Log` and the inspector (`#if UNITY_EDITOR`) classes of `GameEvent`, `GameEventListener` and `UnityEventCaller` are left out.
- What a `UnityEvent` does when invoked is outside the model. The scripts only log that they invoked it. `Collectible`'s three events are assumed set, so an unset one is not distinguished in its log.
- `Zoomable.HandleZoom` zoom-towards-mouse and `HandleDrag`, and `ZoomController`'s drag in `HandleInput`, depend on `ScreenToWorldPoint` and input state, and are left out.
- `ZoomController.ClampCameraPosition` takes the renderer's bounds and the camera's aspect as parameters. How the bounds follow the sprite is engine behaviour.
- `HotspotInteraction.Initialize` is recorded only as the `initialized` flag of the hotspot object.
- `MenuCamera.Start`, `SetNewTargetFOV` and the field-of-view easing in `Update` use `UnityEngine.Random`, `Time.time` and `SmoothStep`, and are left out. The constructor stands for `Start`'s background timer set-up.
- `QuantumPlayground.Generator.GenerateRooms`: settings with `minRooms > maxRooms + 1` make `Next` throw at QuantumPlaygroundGenerator.cs:77, after the reseed and the clear. The generator's constructor excludes them (`Config.Usable`) instead of modelling the throw.
- `QuantumPlayground.Generator.CreateWall`: an empty `wallPrefabs` array makes the pick at QuantumPlaygroundGenerator.cs:184 throw part-way through generation. `Config.Usable` excludes it.
- `QuantumPlayground.Generator.PlaceDecorations`: empty `reflectiveSurfaces` or `energyBarriers` arrays make the picks at QuantumPlaygroundGenerator.cs:254 and :272 throw part-way through generation. `Config.Usable` excludes them.
- `QuantumPlayground.Generator.CreateBackground`: a missing `backgroundPrefab` (QuantumPlaygroundGenerator.cs:313) is not represented. The model always spawns the background.
- `LevelView.ZoomController.CreateHotspot`: a null `hotspotPrefab` makes `Instantiate` throw at ZoomController.cs:114. The model always has a prefab to instantiate.
- `LevelView.ZoomController.UpdateCameraZoom`: when the scene has no camera tagged MainCamera, `Camera.main` is null at ZoomController.cs:32. The dereference at :71 then throws. The model always has a camera.
- `LevelView.ZoomController.ClampCameraPosition`: a null `Camera.main` (ZoomController.cs:32) throws at :78 once a level renderer is set. The model always has a camera.
- `LevelView.ZoomController.ResetCamera`: a null `Camera.main` (ZoomController.cs:32) throws at :129. The model always has a camera.
- `Zoom.Zoomable.HandleZoom`: a null `Camera.main` stored at Zoomable.cs:35 throws at Zoomable.cs:57 on any non-zero scroll, before the target scale is updated. The model always has a camera.
- `Menu.MenuCamera.UpdateBackgroundColor`: an unset `targetCamera` throws at MenuCamera.cs:35 in `Start` and at :83 on every frame. The model always has a camera.
- `Events.GameEventListener.OnEnable`: a listener without an `Event` throws at GameEventListener.cs:26. The model's `event` is never null.
- `Events.GameEventListener.OnDisable`: a listener without an `Event` throws at GameEventListener.cs:35, after its coroutines are stopped. The model's `event` is never null.
- `Zoom.SortByThreshold`: `List.Sort` is not stable. The model keeps equal thresholds in list order, which is one of the orders the library may produce. `Start` and `AddThresholdEvent` state only what every such order satisfies: sorted and a permutation.

## Behaviour of the code worth noting

Where the code does something other than its names and comments suggest, the model follows the code:

- **Rooms can leave the playground.** Candidate centres are drawn in [-W/2, W/2 - size), so a room can stick out by half its size past the lower and left edges (`QuantumPlayground.RoomMayLeavePlayground`).
- **No zero-length corridor check.** `CreateCorridor` never skips a corridor of zero length. That case cannot arise from placement: non-overlap with non-negative sizes keeps centres apart (`QuantumPlayground.PlacedRoomsApart`).
- **Cache hits.** A cache hit does not reseed the generator and does not rebuild corridors. It appends new walls and objects to the cached rooms' existing lists (`QuantumPlayground.Generator.GenerateUniverse`, `QuantumPlayground.Generator.LoadCachedUniverse`).
