# nanojet, modelled in Dafny

nanojet is a small TypeScript game engine for the browser. This project models its core in
Dafny and proves what that core promises. It also models the two demo games built on it.

The engine parts modelled:

- **World** (`Ecs`): a world that hands out entity ids 0, 1, 2, and so on. It keeps one
  component map per component kind and three ordered lists of systems: input, update and
  render.
  - Each phase runs its systems in order. For each system it visits every entity in creation
    order and calls the system on the entities that carry every kind the system named.
  - If a named kind has no storage yet, the `!` dereference throws. The model records the
    calls made before that point and a `threw` flag.
- **Game loop** (`Loop`): a fixed-step accumulator driven by `requestAnimationFrame`. Each
  frame does the following:
  - It clamps the elapsed time to one second and adds it to the lag.
  - It runs input once.
  - It runs one update per whole step of lag.
  - It renders once, with the leftover fraction of a step.
  - It keeps two smoothed frame-time estimates.
- **Components**:
  - the trigger area (`Areas`), with its set of overlapping entities and its ENTER and EXIT
    events;
  - the countdown timer (`Timers`);
  - the six-slot transform matrix (`Transforms`);
  - the text label with its dirty flag (`Labels`);
  - the plain data components (`Components`).
- **Area system** (`AreaSystems`): an axis-aligned overlap test between the area and every
  other entity with a transform. It publishes ENTER when an entity starts to overlap and EXIT
  when it stops.
- **Utilities**:
  - the change-notifying 2-D vector (`Vectors`);
  - 3×3 matrices (`Mat3`);
  - colours (`Colors`);
  - random helpers (`Random`), with the draw of `Math.random()` as a parameter;
  - resource bookkeeping (`Resources`).
- **Geometry and prefabs** (`Meshes`, `Prefabs`):
  - the triangle-fan circle meshes, and the circle component's geometry cache that is built
    once;
  - the constant quad;
  - the rectangle, circle and label entity builders.

The demos modelled:

- **Pong** (`Pong`, `BallSystems`):
  - the player and cpu paddle systems;
  - the score handlers;
  - the serve on the ball timer's TIMEOUT;
  - the order in which the update systems are registered;
  - the ball system, which moves the ball in sub-steps of at most 2 units. It resolves only
    the first overlap it meets: it pushes the ball out along the axis of least overlap
    (a tie goes to y). A paddle hit re-aims the ball and speeds it up. A border hit reflects
    the ball's vertical direction.
- **Bouncing shapes** (`Boundary`): the boundary system that bounces entities off the canvas
  edges.

Numbers are reals. `Math.sqrt`, `Math.cos`, `Math.sin` and `Math.atan2` are uninterpreted
functions, passed in as a `MathFns` value. Lemmas that need `sqrt` assume only that it is the
non-negative square root (`IsSqrt`). The following values are parameters:

- the clock (`performance.now`);
- the frame handles from `requestAnimationFrame`;
- the draws of `Math.random()`;
- the canvas size;
- the pressed keys;
- the resource loaders.

Event buses are modelled as ghost logs of published events plus lists of subscribed handler
tokens.

The source's own classes are Dafny classes whose methods update fields in place. Each method
is proved against a pure function of the old state: `Started`, `Updated`, `Examine`, `Sweep`,
`Run`, `Dispatch`, `Apply` and others. The lemmas beside those functions state what the source
promises.

## Model

| member | source | states |
|---|---|---|
| Ecs.World.constructor | packages/engine/src/ecs.ts:69-75 | A new world has no entities, no component storage and no systems. |
| Ecs.World.AddEntity | packages/engine/src/ecs.ts:77-79 | The returned id equals the number of entities before the call. It is appended to the entity list, which stays 0, 1, …, n-1 (duplicate-free and in creation order). Nothing else changes. |
| Ecs.AddEntitiesInOrder | packages/engine/src/ecs.ts:77-79 | n calls on an empty world return 0, 1, …, n-1 in call order, and the entity list is exactly those ids. |
| Ecs.World.AddComponent | packages/engine/src/ecs.ts:81-86 | The component storage becomes `Attach(old, e, k, v)`. Entities and systems are unchanged. |
| Ecs.LookupAttach | packages/engine/src/ecs.ts:81-90 | After attaching v at (e, k), a lookup of (e, k) gives v. Every other (entity, kind) pair gives what it gave before, so re-adding overwrites. |
| Ecs.AttachKeepsStorage | packages/engine/src/ecs.ts:82-84 | Attaching creates storage for the kind when it is missing and never removes another kind's storage. |
| Ecs.World.GetComponent | packages/engine/src/ecs.ts:88-90 | The result is present exactly when the kind has storage and that storage holds the entity; it is then the stored component. |
| Ecs.World.AddInputSystem | packages/engine/src/ecs.ts:93-95 | The registration is appended at the end of the input list. Earlier registrations, entities and components are unchanged. |
| Ecs.World.AddUpdateSystem | packages/engine/src/ecs.ts:98-100 | The registration is appended at the end of the update list. Everything else is unchanged. |
| Ecs.World.AddRenderSystem | packages/engine/src/ecs.ts:103-105 | The registration is appended at the end of the render list. Everything else is unchanged. |
| Ecs.EveryMeaning | packages/engine/src/ecs.ts:110 | The `every` test passes exactly when each named kind has storage that holds the entity. With storage for every named kind it cannot throw, and a throw means some named kind has no storage. |
| Ecs.EmptyKindsSelectAll | packages/engine/src/ecs.ts:110 | A system registered with no kinds accepts every entity. |
| Ecs.SelectNoThrow | packages/engine/src/ecs.ts:110 | With storage for every named kind, filtering the entity list does not throw. |
| Ecs.SelectMembers | packages/engine/src/ecs.ts:110 | The filtered entities are exactly the entities that carry every named kind. |
| Ecs.SelectOrdered | packages/engine/src/ecs.ts:109-110 | Filtering keeps creation order: from increasing ids it yields increasing ids. |
| Ecs.CallsOn | packages/engine/src/ecs.ts:109-112 | A system is called once per selected entity, in order, and every call gets the same argument. |
| Ecs.VisitIsSelect | packages/engine/src/ecs.ts:108-114 | One system's pass throws exactly when the filter throws. Otherwise it calls the system on exactly the filtered entities, in creation order. |
| Ecs.VisitThrowSticks | packages/engine/src/ecs.ts:109-113 | Once a pass has thrown, the remaining entities add no calls. |
| Ecs.DispatchThrowSticks | packages/engine/src/ecs.ts:108-114 | Once a phase has thrown, the later systems do not run. |
| Ecs.VisitThrowsIff | packages/engine/src/ecs.ts:109-113 | A pass throws if and only if some entity meets a named kind that has no storage. |
| Ecs.DispatchThrowsIff | packages/engine/src/ecs.ts:107-115 | A phase throws if and only if some (registered system, entity) pair meets a named kind that has no storage. |
| Ecs.ExpectedSnoc | packages/engine/src/ecs.ts:118-124 | Registering one more system appends its calls after all the calls of the earlier systems. |
| Ecs.DispatchCalls | packages/engine/src/ecs.ts:117-125 | When every registered kind has storage, a phase does not throw. Its calls are ordered system by system and, within a system, by entity creation. Every call gets the phase's argument. |
| Ecs.World.ProcessInput | packages/engine/src/ecs.ts:107-115 | The nested loops produce exactly `Dispatch` of the input systems with no argument. |
| Ecs.World.Update | packages/engine/src/ecs.ts:117-125 | The nested loops produce exactly `Dispatch` of the update systems with `dt`. |
| Ecs.World.Render | packages/engine/src/ecs.ts:127-135 | The nested loops produce exactly `Dispatch` of the render systems with the extrapolation. |
| Ecs.World.Run | packages/engine/src/ecs.ts:108-114 | The system-major, entity-minor loop with its `every` test. It stops at the first throw, and its outcome is `Dispatch` of the given list. |
| Loop.GameLoop.constructor | packages/engine/src/game-loop.ts:13-20 | The step is one second over the update rate. The other fields start at 0, and no callback has run. |
| Loop.GameLoop.Start | packages/engine/src/game-loop.ts:22-25 | `previous` becomes the clock reading. The frame handle is the one just requested. Nothing else changes. |
| Loop.GameLoop.Stop | packages/engine/src/game-loop.ts:27-29 | The current frame handle is cancelled. No other field changes. |
| Loop.GameLoop.Frame | packages/engine/src/game-loop.ts:31-53 | One frame adds min(1000, now - previous) to the lag and stores now. Its trace is one input call, then n updates each given exactly the step, then one render. If the lag is non-negative, n = floor(lag / step), the lag stays in [0, step) and the render's extrapolation is in [0, 1). Lag plus the time consumed by updates stays equal to the sum of clamped deltas, and the consumed time is the number of updates times the step. |
| Loop.GameLoop.Advance | packages/engine/src/game-loop.ts:32-37 | The start of a frame: the clamped delta is added to the lag, `previous` becomes now, and input runs once. |
| Loop.GameLoop.CatchUp | packages/engine/src/game-loop.ts:39-47 | The while loop runs n updates, each given the step, and lowers the lag by n steps; afterwards lag < step. For a non-negative starting lag, the final lag is in [0, step) and n = floor(lag / step). With lag < step, n = 0. The update-time filter advances once per update. |
| Loop.GameLoop.UpdateOnce | packages/engine/src/game-loop.ts:40-46 | One loop iteration: one update with the step, the lag lowered by one step, and the update-time estimate smoothed toward the measured delta. |
| Loop.TicksMeaning | packages/engine/src/game-loop.ts:39-47 | n iterations lower the lag by n steps, consume n steps, append n update calls and apply n filter steps. |
| Loop.Updates | packages/engine/src/game-loop.ts:45 | n update calls, each given the step. |
| Loop.GameLoop.Present | packages/engine/src/game-loop.ts:49-52 | The frame ends with one render given lag / step, which lies in [0, 1) when 0 ≤ lag < step. The render-time estimate is smoothed toward the frame delta, and a new frame is requested. |
| Loop.ExtrapolationInUnitRange | packages/engine/src/game-loop.ts:49 | For 0 ≤ lag < step, the extrapolation lag / step lies in [0, 1). |
| Loop.SmoothBetween | packages/engine/src/game-loop.ts:42-50 | Each filter step moves 1/20 of the way toward the sample. The new value lies between the old value and the sample, and it reaches the sample only if it already was the sample. |
| Loop.UpdateFilterBounded | packages/engine/src/game-loop.ts:39-43 | When the starting estimate and every measured delta lie in [lo, hi], the smoothed update time stays in [lo, hi]. `previous` ends at the last clock reading. |
| Loop.GameLoop.RenderFps | packages/engine/src/game-loop.ts:55-57 | A value exists exactly when the render frame time is non-zero, and then it is 1000 divided by that time. |
| Loop.GameLoop.UpdateFps | packages/engine/src/game-loop.ts:59-61 | A value exists exactly when the update frame time is non-zero, and then it is 1000 divided by that time. |
| Areas.EntitySet.constructor | packages/engine/src/components/area.component.ts:16 | The overlap set starts empty. |
| Areas.EntitySet.Add | packages/engine/src/components/area.component.ts:34 | Set insertion. |
| Areas.EntitySet.Delete | packages/engine/src/components/area.component.ts:38 | Set deletion. |
| Areas.Area.constructor | packages/engine/src/components/area.component.ts:14-16 | A new area has a fresh, empty overlap set, no published events and no subscriptions. |
| Areas.Area.Publish | packages/engine/src/components/area.component.ts:18-20 | The event is appended to the area's own log with its name and entity unchanged. Subscriptions are unchanged. |
| Areas.Area.Subscribe | packages/engine/src/components/area.component.ts:22-27 | The handler is appended for that event name. The event log is unchanged. |
| Areas.Area.AddOverlappingEntity | packages/engine/src/components/area.component.ts:33-35 | The set is updated exactly as one `Added(e)` step. |
| Areas.Area.RemoveOverlappingEntity | packages/engine/src/components/area.component.ts:37-39 | The set is updated exactly as one `Removed(e)` step. |
| Areas.Area.GetOverlappingEntities | packages/engine/src/components/area.component.ts:41-43 | It returns the live set object itself, not a copy. |
| Areas.LastOn | packages/engine/src/components/area.component.ts:29-39 | The index of the last add or remove of e: it names e, and no later operation names e. |
| Areas.ReplaySnoc | packages/engine/src/components/area.component.ts:33-39 | Replaying one more operation is that operation applied after the earlier ones. |
| Areas.MemberIffLastAdded | packages/engine/src/components/area.component.ts:29-39 | `isOverlapping(e)` holds exactly when the last operation on e was an add, or when no operation touched e and it was a member to begin with. |
| Areas.AddIdempotent | packages/engine/src/components/area.component.ts:33-39 | Adding twice equals adding once. Removing an absent entity changes nothing, and removal touches no other member. |
| AreaSystems.OverlapSymmetric | packages/engine/src/systems/area.system.ts:18-22 | The overlap amounts and the overlap test are symmetric in the two boxes. |
| AreaSystems.TouchingIsNotOverlapping | packages/engine/src/systems/area.system.ts:18-22 | Boxes whose edges touch on either axis do not overlap, because the test is strict. |
| AreaSystems.Examine | packages/engine/src/systems/area.system.ts:24-32 | One loop body: the set holds the entity exactly when it now overlaps, and no other member changes. At most one event is published, about that entity. It is published exactly when the overlap status changed: ENTER for a new overlap, EXIT for a lost one. |
| AreaSystems.SweepStep | packages/engine/src/systems/area.system.ts:11-33 | Applying one more loop body to the state after k checks gives the state after k+1 checks. |
| AreaSystems.LastCheck | packages/engine/src/systems/area.system.ts:11-33 | The index of the last check of e: it names e, and no later check names e. |
| AreaSystems.SweepMembership | packages/engine/src/systems/area.system.ts:11-33 | After the loop, e is a member exactly when its last check overlapped, or when it was never examined and was a member before. |
| AreaSystems.SweepEvents | packages/engine/src/systems/area.system.ts:11-33 | When every entity is examined at most once, the loop publishes about e exactly what one loop body publishes from the starting membership. |
| AreaSystems.WithTransform | packages/engine/src/systems/area.system.ts:11 | The entities returned for `[TransformComponent]` are exactly the world's entities that have a transform. |
| AreaSystems.WithTransformOrdered | packages/engine/src/systems/area.system.ts:11 | Those entities come in creation order, each once. |
| AreaSystems.Checks | packages/engine/src/systems/area.system.ts:11-22 | Every examined entity comes from the list, and the area's own entity is never examined. |
| AreaSystems.ChecksCover | packages/engine/src/systems/area.system.ts:11-22 | An entity is examined exactly when it is in the list and is not the area. Its check then records the current overlap of the two boxes. |
| AreaSystems.ChecksDistinct | packages/engine/src/systems/area.system.ts:11-22 | Over a duplicate-free entity list, each entity is examined once. |
| AreaSystems.AreaSystemMeaning | packages/engine/src/systems/area.system.ts:6-34 | After one call, every other entity with a transform is a member exactly when it currently overlaps the area. The area itself and entities without a transform keep their old membership. For each entity, the events are exactly one ENTER on a new overlap, exactly one EXIT on a lost one, and nothing otherwise. |
| AreaSystems.AreaSystemRun | packages/engine/src/systems/area.system.ts:6-34 | The imperative loop leaves the area's set and log equal to the sweep over those entities in order. Subscriptions are unchanged. |
| AreaSystems.ExamineOther | packages/engine/src/systems/area.system.ts:13-32 | One iteration on the live area: its set and log change exactly as `Examine` says. |
| Timers.Started | packages/engine/src/components/timer.component.ts:22-27 | `start` changes nothing while time is left, including the duration. On an idle timer, a positive duration replaces the stored one and a non-positive one keeps it. Time left then equals the duration. |
| Timers.Updated | packages/engine/src/components/timer.component.ts:29-37 | An idle timer is unchanged and does not fire. Time left is never negative afterwards. TIMEOUT fires exactly when the decrement goes strictly below 0, and the timer is then idle. Landing exactly on 0 goes idle without firing. |
| Timers.ExactExpirySilent | packages/engine/src/components/timer.component.ts:29-37 | As written: a timer started at 1 second and updated twice by 0.5 seconds ends idle and has published no TIMEOUT. |
| Timers.UpdatedFixed | packages/engine/src/components/timer.component.ts:29-37 | As intended: TIMEOUT fires exactly when a running countdown reaches zero or passes it, and the timer is then idle. Otherwise time left drops by the delta. |
| Timers.FixedFiresOnExpiry | packages/engine/src/components/timer.component.ts:29-37 | With the correction, a running timer whose non-negative deltas add up to at least its remaining time publishes exactly one TIMEOUT and ends idle. |
| Timers.IdleStaysIdle | packages/engine/src/components/timer.component.ts:30 | Updates of an idle timer change nothing and fire nothing. |
| Timers.AtMostOneTimeout | packages/engine/src/components/timer.component.ts:29-37 | Any run of updates without a start fires TIMEOUT at most once, and after a TIMEOUT the timer is idle. |
| Timers.Timer.constructor | packages/engine/src/components/timer.component.ts:18-20 | A timer built with `autoStart` has time left equal to its duration. Otherwise it is idle. |
| Timers.Timer.Start | packages/engine/src/components/timer.component.ts:22-27 | The state becomes `Started(old, d)`. Timeouts and handlers are unchanged. |
| Timers.Timer.Update | packages/engine/src/components/timer.component.ts:29-37 | The state becomes `Updated(old, dt)`, and the timeout count rises by one exactly when it fired. |
| Timers.Timer.Subscribe | packages/engine/src/components/timer.component.ts:39-44 | The handler is appended. The state is unchanged. |
| Labels.Label.constructor | packages/engine/src/components/label.component.ts:1-8 | A new label holds the given text, family, size and colour, and needs an update. |
| Labels.Label.SetText | packages/engine/src/components/label.component.ts:14-17 | Only the text changes, to the new value, and the label needs an update. |
| Labels.Label.SetFontFamily | packages/engine/src/components/label.component.ts:23-26 | Only the family changes, and the label needs an update. |
| Labels.Label.SetFontSize | packages/engine/src/components/label.component.ts:32-35 | Only the size changes, and the label needs an update. |
| Labels.Label.SetFontColor | packages/engine/src/components/label.component.ts:41-44 | Only the colour changes, and the label needs an update. |
| Labels.Label.TextureUpdated | packages/engine/src/components/label.component.ts:50-52 | The dirty flag is cleared, and no property changes. |
| Labels.ApplyAllSnoc | packages/engine/src/components/label.component.ts:14-44 | A sequence of setter calls followed by one more applies that change to the state the sequence reached. |
| Labels.TextIsLastSet | packages/engine/src/components/label.component.ts:10-17 | After any sequence of setter calls, the text getter returns the last text set, or the original text if none was set. |
| Resources.ResourceManager.constructor | packages/engine/src/resources/resource-manager.ts:4-6 | There are no resources and no loaders. |
| Resources.ResourceManager.AddLoader | packages/engine/src/resources/resource-manager.ts:8-10 | The loader is installed for the type, overwriting any earlier one. Resources are unchanged. |
| Resources.ResourceManager.Load | packages/engine/src/resources/resource-manager.ts:12-20 | It fails with "no loader" exactly when the type has no loader, and then resources are unchanged. Otherwise it appends exactly the loader's resource at the end. Loaders are unchanged. |
| Resources.FirstWithId | packages/engine/src/resources/resource-manager.ts:22-24 | `get(url)` finds the first resource whose id is url. No earlier resource has that id, and when none matches, no resource has it. |
| Resources.FindEarliestWins | packages/engine/src/resources/resource-manager.ts:22-24 | Once a url is found, loading more resources does not change what `get` returns: with duplicates, the earliest wins. |
| Resources.OfType | packages/engine/src/resources/resource-manager.ts:26-28 | `getAll(t)` holds exactly the resources of type t. |
| Resources.OfTypeAppend | packages/engine/src/resources/resource-manager.ts:26-28 | Insertion order: after appending a resource, `getAll(t)` is the old result followed by that resource if its type is t. |
| Transforms.WithPosition | packages/engine/src/components/transform.component.ts:29-32 | Writing the position makes the position read back as written, and slots 0-3 are untouched. |
| Transforms.WithScale | packages/engine/src/components/transform.component.ts:38-41 | Writing the scale makes the scale read back as written. Slots 1 and 2 and the position are untouched. |
| Transforms.WithRotation | packages/engine/src/components/transform.component.ts:47-54 | Writing the rotation sets slots 0-3 to cos, sin, -sin, cos. The position is untouched, and the scale becomes (cos, cos). |
| Transforms.InitialDiscardsScale | packages/engine/src/components/transform.component.ts:13-19 | The constructor keeps the given position. Because it sets the rotation last, the stored scale is (cos r, cos r) whatever scale was passed. |
| Transforms.Transform.constructor | packages/engine/src/components/transform.component.ts:13-19 | The slots are identity, then the position, then the scale, then the rotation written in that order. |
| Transforms.Transform.GetPosition | packages/engine/src/components/transform.component.ts:25-27 | It returns a fresh vector holding slots 4-5, with a no-op callback. |
| Transforms.Transform.SetPosition | packages/engine/src/components/transform.component.ts:29-32 | Only slots 4-5 change, to the given vector. |
| Transforms.Transform.GetScale | packages/engine/src/components/transform.component.ts:34-36 | It returns a fresh vector holding slots 0 and 3. |
| Transforms.Transform.SetScale | packages/engine/src/components/transform.component.ts:38-41 | Only slots 0 and 3 change. |
| Transforms.Transform.SetRotation | packages/engine/src/components/transform.component.ts:47-54 | Only slots 0-3 change. |
| Transforms.CopyIsDetached | packages/engine/src/components/transform.component.ts:21-27 | Setting a coordinate on the vector the getter returned leaves the transform's position unchanged. |
| Vectors.Vec2.constructor | packages/engine/src/utils/vec2.ts:6-10 | It stores the coordinates and the callback, and nothing has been notified. |
| Vectors.Vec2.SetX | packages/engine/src/utils/vec2.ts:16-21 | x takes the value and y is kept. The callback fires once exactly when the value differs from the stored x. |
| Vectors.Vec2.SetY | packages/engine/src/utils/vec2.ts:27-32 | y takes the value and x is kept. The callback fires once exactly when the value differs from the stored y. |
| Vectors.Vec2.Set | packages/engine/src/utils/vec2.ts:34-40 | Both coordinates are set. The callback fires at most once, and exactly when either coordinate changes. |
| Vectors.Vec2.SetOnChange | packages/engine/src/utils/vec2.ts:42-44 | Only the callback changes. |
| Vectors.Vec2.Add | packages/engine/src/utils/vec2.ts:46-48 | It returns a fresh vector equal to the sum, with a no-op callback. The receiver is unchanged. |
| Vectors.Vec2.Copy | packages/engine/src/utils/vec2.ts:50-52 | It returns a fresh vector with the same coordinates and a no-op callback. |
| Vectors.Vec2.Scale | packages/engine/src/utils/vec2.ts:67-69 | It returns a fresh scaled vector. The receiver is unchanged. |
| Vectors.Vec2.Subtract | packages/engine/src/utils/vec2.ts:71-73 | It returns a fresh vector equal to the difference. The receiver is unchanged. |
| Vectors.Vec2.Normalize | packages/engine/src/utils/vec2.ts:62-65 | It returns a fresh vector, each coordinate divided by the length. |
| Vectors.AddThenSubtract | packages/engine/src/utils/vec2.ts:46-73 | `v.add(w).subtract(w)` is v. |
| Vectors.DotSymmetric | packages/engine/src/utils/vec2.ts:54-56 | The dot product is symmetric. |
| Vectors.LengthSquared | packages/engine/src/utils/vec2.ts:54-60 | The length is non-negative, and its square is `v.dot(v)`. |
| Vectors.LengthZeroIff | packages/engine/src/utils/vec2.ts:58-60 | The length is 0 exactly for the zero vector. |
| Vectors.NormalizeIsUnit | packages/engine/src/utils/vec2.ts:62-65 | For a non-zero vector, the normalised vector has length 1, and scaling it back by the length gives the vector. |
| Mat3.MultiplyIsProduct | packages/engine/src/utils/mat3.ts:23-33 | Entry (i, j) of `multiply(a, b)` is the sum over k of b[i][k]·a[k][j]: the row-major product b·a. |
| Mat3.IdentityUnit | packages/engine/src/utils/mat3.ts:3-34 | The identity is a left and a right unit of `multiply`. |
| Mat3.MultiplyAssociative | packages/engine/src/utils/mat3.ts:3-34 | `multiply` is associative. |
| Mat3.ProjectionCorners | packages/engine/src/utils/mat3.ts:36-38 | For non-zero w and h, the row vector [x y 1] times the projection maps (0, 0) to (-1, 1) and (w, h) to (1, -1). |
| Mat3.ScaleIsMultiply | packages/engine/src/utils/mat3.ts:40-52 | `scale(m, x, y)` is m multiplied by the diagonal scaling matrix: entries 0-2 times x, entries 3-5 times y, entries 6-8 kept. |
| Mat3.ScaleComposes | packages/engine/src/utils/mat3.ts:40-52 | Two scalings compose by multiplying their factors, and scaling by (1, 1) is the identity. |
| Colors.Defaults | packages/engine/src/utils/color.ts:9-13 | The default colour is (255, 255, 255, 1), and `Color.red(a)` is (255, 0, 0, a). |
| Colors.Color.ToFloat32Array | packages/engine/src/utils/color.ts:15-17 | It yields four entries. |
| Colors.Float32ArrayInUnitRange | packages/engine/src/utils/color.ts:15-17 | Channels in [0, 255] and alpha in [0, 1] map into [0, 1]. Multiplying the first three entries back by 255 recovers the colour, so alpha is not rescaled. |
| Colors.RGBAStringFields | packages/engine/src/utils/color.ts:19-21 | The string is `rgba(` … `)`. Splitting its inside on spaces gives the red, green and blue numbers, then `/`, then alpha: the channels in r, g, b, a order. |
| Colors.SplitFive | packages/engine/src/utils/color.ts:19-21 | Four space-free fields joined as `R G B / A` split back into exactly those fields. |
| Colors.ChannelRoundTrip | packages/engine/src/utils/color.ts:19-21 | A whole channel value in [0, 255] prints as decimal digits that parse back to the value. |
| Numeric.Floor | packages/engine/src/utils/random.ts:9 | `Math.floor`: the greatest integer not above x. |
| Numeric.Ceil | packages/game/src/ball.system.ts:22 | `Math.ceil`: the least integer not below x. |
| Numeric.NatToStringRoundTrip | packages/engine/src/prefabs/label.prefab.ts:22 | An entity id's decimal string is non-empty digits with no leading zero, and it parses back to the id. |
| Numeric.NatToStringInjective | packages/engine/src/prefabs/label.prefab.ts:22 | Different entities get different texture ids. |
| Numeric.IntToString | packages/engine/src/utils/color.ts:20 | A whole number prints as a canonical numeral: an optional minus sign, then digits with no leading zero and no `-0`. The sign appears exactly for negative numbers, and the numeral reads back (`ParseInt`) as the number. |
| Numeric.DigitsRoundTrip | packages/engine/src/prefabs/label.prefab.ts:22 | Conversely, every digit string without a leading zero is what `toString` prints for its value, so `NatToString` is onto the canonical numerals. |
| Numeric.ParseIntRoundTrip | packages/engine/src/utils/color.ts:20 | Every canonical integer numeral is the printed form of its value, so printing and reading integers are inverse in both directions. |
| Numeric.NumberToString | packages/engine/src/utils/color.ts:20 | A whole number below 10^21 in magnitude prints as a canonical integer numeral that reads back as the number, with a minus sign exactly when it is negative. |
| Random.RandomIntegerInRange | packages/engine/src/utils/random.ts:8-10 | For integers min ≤ max and a draw in [0, 1), the result lies in [min, max]. |
| Random.RandomIntegerCovers | packages/engine/src/utils/random.ts:8-10 | Every integer of [min, max] is produced by some draw in [0, 1). |
| Random.RandomFloatInRange | packages/engine/src/utils/random.ts:19-21 | For min < max, the result lies in [min, max). |
| Random.PickRandomNonEmpty | packages/engine/src/utils/random.ts:30-33 | For a non-empty sequence, the index is in [0, len-1] and the result is one of its elements. |
| Random.PickRandomEmpty | packages/engine/src/utils/random.ts:30-33 | For an empty sequence, the index is 0 and the result is undefined. |
| Random.PickRandomCovers | packages/engine/src/utils/random.ts:30-33 | Every element of a non-empty sequence can be picked. |
| Meshes.Uint16 | packages/engine/src/prefabs/circle.prefab.ts:34-35 | Storing into a `Uint16Array` keeps a value below 65536 unchanged and always yields a value below 65536. |
| Meshes.FanVertices | packages/engine/src/prefabs/circle.prefab.ts:8 | The fan's vertex data holds 4 numbers per vertex. |
| Meshes.FanIndices | packages/engine/src/prefabs/circle.prefab.ts:9 | The fan's index data holds 3 indices per triangle. |
| Meshes.FanVertexAt | packages/engine/src/prefabs/circle.prefab.ts:11-29 | The first block is the centre (0, 0) with uv (0.5, 0.5), and block j+1 is rim vertex j. |
| Meshes.RimUv | packages/engine/src/prefabs/circle.prefab.ts:28-29 | Every rim uv is ((x+1)/2, (y+1)/2). |
| Meshes.FanTriangle | packages/engine/src/prefabs/circle.prefab.ts:32-36 | Triangle j is (0, j+1, j+2), stored as `Uint16`. |
| Meshes.FanIndicesWithin | packages/engine/src/prefabs/circle.prefab.ts:33-35 | Every index is below the vertex count segments + 2. |
| Meshes.WriteRimVertex | packages/engine/src/prefabs/circle.prefab.ts:17-29 | One vertex iteration extends the written prefix by exactly rim vertex i. |
| Meshes.WriteTriangle | packages/engine/src/prefabs/circle.prefab.ts:32-36 | One index iteration extends the written prefix by exactly triangle i. |
| Meshes.GenerateCircleGeometry | packages/engine/src/prefabs/circle.prefab.ts:7-40 | The arrays are exactly the fan: (segments + 2)·4 vertex numbers and segments·3 indices. Every write, up to offset (segments+1)·4+3, stays in bounds. |
| Meshes.RimPointAt | packages/engine/src/components/circle.component.ts:24-35 | The first point is the centre (0, 0), and point j+1 is the rim point at angle j·step. |
| Meshes.WriteRimPoint | packages/engine/src/components/circle.component.ts:29-35 | One vertex iteration extends the written prefix by exactly rim point i. |
| Meshes.RimLoop | packages/engine/src/components/circle.component.ts:29-35 | The vertex loop fills the array after the centre with the rim points. |
| Meshes.TriangleLoop | packages/engine/src/components/circle.component.ts:38-42 | The index loop fills the array with triangles (0, i+1, i+2). |
| Meshes.CreateCircleGeometry | packages/engine/src/components/circle.component.ts:16-45 | (n + 2)·2 vertex numbers with the rim at angle step 2π/n, and n·3 indices forming the fan. |
| Meshes.CircleStatics.constructor | packages/engine/src/components/circle.component.ts:5-6 | Before any construction, there is no shared geometry. |
| Meshes.NewCircleComponent | packages/engine/src/components/circle.component.ts:8-14 | The component stores the radius and colour unchanged. The shared geometry is built on the first construction and kept afterwards. |
| Meshes.ConstructTwice | packages/engine/src/components/circle.component.ts:8-13 | Two constructions on an empty cache each keep their own radius and colour. The cache ends holding the default 24-segment fan: its rim points and its triangle indices. That the second construction reuses the first one's arrays is `Meshes.NewCircleComponent`'s keep clause. |
| Meshes.QuadIndicesWithin | packages/engine/src/prefabs/rectangle.prefab.ts:7-8 | The quad has 4 vertices, and its 6 indices are all below 4. |
| Components.Velocity.constructor | packages/engine/src/components/velocity.component.ts:1-5 | It stores the given vector. |
| Components.BallData.constructor | packages/game/src/ball.system.ts:9 | It stores the speed and the direction. |
| Components.Material.constructor | packages/engine/src/prefabs/rectangle.prefab.ts:22 | It stores the colour, with no texture. |
| Prefabs.PrefabMeshes.constructor | packages/engine/src/prefabs/circle.prefab.ts:42-43 | The module-level buffers hold the constant quad and the 32-segment fan. |
| Prefabs.PositionedTransform | packages/engine/src/prefabs/rectangle.prefab.ts:17-19 | A default transform given a position: it holds that position and the constructor's scale (cos 0, cos 0). |
| Prefabs.AttachShape | packages/engine/src/prefabs/rectangle.prefab.ts:20-22 | It attaches the transform, the named mesh and a fresh material of the given colour, in that order, to this entity only. |
| Prefabs.CreateRectangle | packages/engine/src/prefabs/rectangle.prefab.ts:10-24 | It returns the id just created. The entity has a fresh transform at the given position, mesh "rectangle" on the constant quad, and a fresh material of the given colour. The size is not applied, as written. |
| Prefabs.CreateRectangleScaled | packages/engine/src/prefabs/rectangle.prefab.ts:10-24 | As intended, the transform's scale is the requested size. It attaches exactly the transform, the quad mesh and an untextured material of that colour, all fresh, and leaves the system lists alone. |
| Prefabs.CreateCircle | packages/engine/src/prefabs/circle.prefab.ts:45-56 | It returns the id just created, with a transform at the position, mesh "circle" on the shared fan, and a material of the colour. The radius is not applied, as written. |
| Prefabs.CreateCircleScaled | packages/engine/src/prefabs/circle.prefab.ts:45-56 | As intended, the transform's scale is (radius, radius). It attaches exactly the transform, the circle mesh and an untextured material of that colour, all fresh, and leaves the system lists alone. |
| Prefabs.AttachLabel | packages/engine/src/prefabs/label.prefab.ts:16-22 | It attaches the label and sets the material's texture id. Transform, mesh and every other entity are unchanged. |
| Prefabs.CreateLabel | packages/engine/src/prefabs/label.prefab.ts:6-24 | It returns the rectangle's entity. The entity has a fresh label with the text, family, size and `fontColor.toRGBAString()`, needing an update. Its white material has the entity id's decimal string as texture id, its transform is at the position, and no other entity changes. |
| Boundary.Extent | packages/game/src/main.ts:43-56 | The size is the rectangle's width and height if there is a rectangle, else the circle's 2r, else 0. |
| Boundary.ClampInto | packages/game/src/main.ts:67 | The clamp is at least half the size, and at most extent - half when the box fits. A centre already inside is kept. |
| Boundary.InsideUntouched | packages/game/src/main.ts:63-76 | An axis whose box lies inside the canvas is left unchanged. |
| Boundary.OutsideBounces | packages/game/src/main.ts:63-68 | A box crossing an edge has its velocity negated and its centre clamped into [half, extent - half]. |
| Boundary.StepLandsInside | packages/game/src/main.ts:63-68 | After one step, a box that fits is inside the canvas. |
| Boundary.StepIdempotent | packages/game/src/main.ts:63-68 | A second step changes nothing more. |
| Boundary.OversizedPinned | packages/game/src/main.ts:63-68 | A box larger than the canvas always bounces and is pinned at half its size. |
| Boundary.BounceX | packages/game/src/main.ts:63-68 | As written: x velocity is negated exactly when the box crosses the left or right edge, and y velocity is kept. The clamped x goes to a copy of the position, so the transform does not move. |
| Boundary.BounceY | packages/game/src/main.ts:71-76 | As written, the same on the y axis. |
| Boundary.BoundaryStep | packages/game/src/main.ts:26-77 | As written: each velocity coordinate bounces independently, and neither clamp reaches the transform. |
| Boundary.BounceFixedX | packages/game/src/main.ts:63-68 | As intended, the position's x is clamped and y is kept. No other slot of the matrix changes. |
| Boundary.BounceFixedY | packages/game/src/main.ts:71-76 | As intended, the position's y is clamped and x is kept. No other slot of the matrix changes. |
| Boundary.BoundaryStepFixed | packages/game/src/main.ts:26-77 | As intended, both axes are stepped independently on the position and the velocity, and the scale is kept. Only the position slots of the matrix change. |
| BallSystems.Steps | packages/game/src/ball.system.ts:19-22 | The number of sub-steps is 0 exactly when the total movement is zero. |
| BallSystems.StepCount | packages/game/src/ball.system.ts:18-25 | With at least one step, each sub-step has length at most 2, and the steps together add up to the total movement. |
| BallSystems.StepsIsFewest | packages/game/src/ball.system.ts:4-22 | The sub-step count is k exactly when 2·(k-1) < length ≤ 2·k: the fewest steps of length at most 2 that cover the movement. |
| BallSystems.SubSteps | packages/game/src/ball.system.ts:18-25 | It computes `ceil(length / 2)` sub-steps and the movement of each. |
| BallSystems.FirstHit | packages/game/src/ball.system.ts:40-54 | A found collider is in the list and strictly overlaps the ball. When none is found, no collider overlaps it. |
| BallSystems.FirstHitNone | packages/game/src/ball.system.ts:40-93 | No hit exactly when no collider overlaps. |
| BallSystems.FirstHitAppend | packages/game/src/ball.system.ts:40-91 | The first overlapping collider in list order wins. |
| BallSystems.PaddleDirection | packages/game/src/ball.system.ts:60-71 | The re-aimed direction has a non-zero x. |
| BallSystems.PaddleDirectionMeaning | packages/game/src/ball.system.ts:60-73 | The re-aimed direction is the normalised (-dir.x, dist/(h/2)·0.6): unit length, x reversed, the raw vector scaled down. A centred hit gives y direction 0. |
| BallSystems.ResolveDirection | packages/game/src/ball.system.ts:60-80 | A paddle hit reverses x, re-aims y and adds 50 to the speed. Any other hit negates only y and keeps the speed. |
| BallSystems.PushOutSeparates | packages/game/src/ball.system.ts:83-87 | The push-out is along x exactly when overlapX < overlapY, so a tie goes to y. The resolved axis's overlap with that collider becomes exactly 0, and the other axis is kept. |
| BallSystems.WalkIsScaled | packages/game/src/ball.system.ts:28-99 | k hit-free sub-steps move the ball by k times the step. |
| BallSystems.RunWithoutHit | packages/game/src/ball.system.ts:28-100 | With no collision in any sub-step, the ball walks all the steps, and its direction and speed are unchanged. |
| BallSystems.NoHitMovesAll | packages/game/src/ball.system.ts:28-100 | With no collision, the final position is the start plus the total movement. Zero movement leaves everything unchanged. |
| BallSystems.HitFreeSteps | packages/game/src/ball.system.ts:28-99 | The count of hit-free sub-steps before the first hit is at most the step count. |
| BallSystems.HitFreeStepsMeaning | packages/game/src/ball.system.ts:28-99 | The counted sub-steps are hit-free, and the next one, if any, hits. |
| BallSystems.RunResolvesAtMostOnce | packages/game/src/ball.system.ts:91-96 | At most one collision is resolved per call. The result is the full hit-free walk, or the resolution of the first collider hit at the first sub-step that hits. |
| BallSystems.RunKeepsAiming | packages/game/src/ball.system.ts:60-80 | The ball keeps a direction with a non-zero x (or none), so a later paddle hit can always re-aim it. |
| BallSystems.ColliderList | packages/game/src/ball.system.ts:40 | Every entity with the Collider tag and a transform comes with its transform. |
| BallSystems.FirstWith | packages/game/src/ball.system.ts:58-59 | The destructured first entity with a tag, if any, carries the tag. |
| BallSystems.BallSystemRun | packages/game/src/ball.system.ts:13-101 | One call leaves the ball's position, direction and speed exactly as `Run` over the sub-steps and colliders says. The ball's scale is unchanged, no matrix slot other than the position changes, and it stays aimed. |
| BallSystems.Launch | packages/game/src/ball.system.ts:17-100 | The movement, the sub-step count and the loop, with the collider list fixed. Only the position slots of the matrix change. |
| BallSystems.Move | packages/game/src/ball.system.ts:28-100 | The outer loop: its result is `Run` over the given number of sub-steps. Only the position slots of the matrix change. |
| BallSystems.RunStep | packages/game/src/ball.system.ts:28-99 | One more sub-step of `Run`: a hit resolves and stops, and a miss moves the ball by the step and goes on. |
| BallSystems.SubStep | packages/game/src/ball.system.ts:29-99 | One iteration: a collision is detected exactly when some collider overlaps the moved ball. It then resolves the first hit; otherwise the ball moves to the new position. Only the position slots of the matrix change. |
| BallSystems.Conclude | packages/game/src/ball.system.ts:89-99 | The end of an iteration: the resolved or moved state, and the flag that breaks the loop. Only the position slots of the matrix change. |
| BallSystems.FindHit | packages/game/src/ball.system.ts:40-93 | The inner loop returns the first collider in list order that overlaps the moved ball, with its centre delta and overlap. |
| BallSystems.Visit | packages/game/src/ball.system.ts:41-92 | One inner iteration skips the ball itself. It reports the collider as the first hit when it overlaps, and otherwise extends the hit-free prefix. |
| BallSystems.HitIsFirst | packages/game/src/ball.system.ts:40-92 | An overlapping collider after a hit-free prefix is the first hit of the whole list. |
| BallSystems.Respond | packages/game/src/ball.system.ts:55-89 | The hit response writes exactly `Resolve`: the new direction, speed and pushed-out position. Only the position slots of the matrix change. |
| Pong.PlayerTarget | packages/pong/src/main.ts:171-176 | "w" alone lowers y by 500·dt, "s" alone raises it, and both or neither leave it. |
| Pong.Clamp | packages/pong/src/main.ts:178-179 | When the paddle fits, y is clamped into [h/2, vh - h/2], and a y already inside is kept. A paddle taller than the viewport is placed at vh - h/2. |
| Pong.CpuMoveBy | packages/pong/src/main.ts:196-201 | The move is at most 500·dt in magnitude and has the sign of the distance. Within reach it is the whole distance; beyond it, exactly 500·dt. Distance 0 gives no move. |
| Pong.CpuReachesBall | packages/pong/src/main.ts:197-203 | Within one step of the ball, the paddle lands exactly on the ball's y. |
| Pong.PlayerPaddle | packages/pong/src/main.ts:169-180 | As written: every write goes to a copy of the position, so the paddle does not move. The clamp is computed from the unmoved y. |
| Pong.PlayerPaddleFixed | packages/pong/src/main.ts:169-180 | As intended, the paddle's y becomes the clamped key-driven target, and x and the scale are kept. No other slot of the matrix changes. |
| Pong.CpuPaddle | packages/pong/src/main.ts:191-207 | As written: the move and the clamp go to copies, so the paddle does not move. |
| Pong.CpuPaddleFixed | packages/pong/src/main.ts:191-207 | As intended, the paddle's y becomes the clamped y minus `moveBy`, and x and the scale are kept. No other slot of the matrix changes. |
| Pong.Scores.constructor | packages/pong/src/main.ts:62 | Both scores start at 0. |
| Pong.LeftScoreEnter | packages/pong/src/main.ts:117-122 | The cpu score rises by exactly 1 and the player's is kept. The cpu label's text becomes the new score's decimal string and needs an update. The ball timer is started, with no publication and no change of its handlers. |
| Pong.RightScoreEnter | packages/pong/src/main.ts:132-137 | The player score rises by exactly 1 and the cpu's is kept. The player label's text becomes the new score's decimal string. The ball timer is started, with no publication and no change of its handlers. |
| Pong.RandomDirectionAims | packages/pong/src/main.ts:160-164 | A serve direction is a unit vector with x ≠ 0, no steeper than 45 degrees. |
| Pong.ServeHeightInRange | packages/pong/src/main.ts:155 | The serve height lies in [200, 448]. |
| Pong.BallTimeout | packages/pong/src/main.ts:151-158 | As written: speed becomes 500 and the direction a random serve direction. The position writes go to copies, so the ball stays where it was. |
| Pong.BallTimeoutFixed | packages/pong/src/main.ts:151-158 | As intended, the ball is placed at (576, `randomInteger(200, 448)`), with speed 500 and a serve direction. Only the position slots of the ball's matrix change. |
| Pong.RegisterUpdateSystems | packages/pong/src/main.ts:210-215 | The six update systems are appended in the order timer, player, cpu, ball, area, performance. |
| Pong.DispatchSix | packages/pong/src/main.ts:210-215 | Six registrations whose kinds all have storage dispatch without throwing, one system after another, each on its own selected entities. |
| Pong.UpdateOrder | packages/pong/src/main.ts:210-215 | One update phase calls the timer system on every timer entity first, then the player, cpu, ball, area and performance systems, each on its own entities in creation order. |

## Left out

- Floating point: numbers are reals, so NaN, Infinity, rounding and the `Float32Array` rounding of vertex and colour data are not modelled. The `Uint16Array` wrap of indices is modelled (`Meshes.Uint16`).
- Vectors.Vec2.Normalize: requires a non-zero length; the source divides by zero there and yields NaN.
- Loop.GameLoop.RenderFps: returns no value where the source returns Infinity (a zero frame time).
- Loop.GameLoop.UpdateFps: returns no value where the source returns Infinity.
- `SECOND_IN_MILLISECONDS` comes from `./constants`, which is not part of this model. It is taken as 1000.
- The clock, `requestAnimationFrame`, `cancelAnimationFrame`, `Math.random`, the canvas size and the pressed keys are parameters. `sqrt`, `cos`, `sin` and `atan2` are uninterpreted, so `Transforms.Transform.Rotation` (atan2 of two slots) carries no contract.
- The event bus (`event-bus.ts`) is not part of this model.
  - Publishing appends to a ghost log (`Areas.Area.published`), and the timer counts its TIMEOUTs.
  - Subscribing records a handler token. The model does not return the unsubscribe function.
  - Pong's handlers are separate methods (`Pong.LeftScoreEnter`, `Pong.RightScoreEnter`, `Pong.BallTimeout`). The bus does not invoke them.
- Systems are tokens in `Ecs`. A phase's outcome is the ordered list of calls, and the bodies of the called systems run separately as the `AreaSystems`, `BallSystems`, `Boundary` and `Pong` methods.
- `getEntitiesWithComponents` is not defined in `ecs.ts`. It is modelled as the dispatch filter (`Ecs.Select`): it yields entities in creation order and throws where a named kind has no storage.
- Resources.ResourceManager.Load: the loader is a function and `load` is synchronous. The asynchrony of `await loader(url)` and the loader's own failures are not modelled.
- `Resources.ResourceManager.Get` and `Resources.ResourceManager.GetAll` are the functions `Find` and `OfType`. Their properties are stated by `Resources.FirstWithId`, `Resources.FindEarliestWins`, `Resources.OfType` and `Resources.OfTypeAppend`.
- Colors.Color.ToRGBAString: numbers with a fractional part print through a `fractional` parameter, because JavaScript's shortest round-trip formatting is not modelled. Whole numbers print exactly (`Numeric.NumberToString`).
- BallSystems.BallSystemRun: requires the Collider, Player and CPU tags to have storage. The source reads the Collider storage only inside the sub-step loop, so a ball with zero movement runs without it. It looks up Player and CPU only on a collision. Where that storage is missing the source throws, and the model does not capture this error path.
- BallSystems.BallSystemRun: requires the ball's direction to be aimed (x ≠ 0, or no direction) and every paddle to have a non-zero height. A zero paddle height would make the re-aim divide by zero. A direction with x = 0 and y ≠ 0 can be well defined in the source: after a border hit, or an off-centre paddle hit. It is excluded anyway, because a centred paddle hit from it would normalise the zero vector. `Aiming` states an invariant the ball keeps rather than the exact NaN condition. The serve and the system keep aiming (`Pong.RandomDirectionAims`, `BallSystems.RunKeepsAiming`).
- BallSystems.BallSystemRun: requires the ball's transform not to be shared with a collider's.
- BallSystems.BallSystemRun: looks up the player and cpu entities once per call rather than on every hit. The call changes no tags, so the lookups give the same result.
- Boundary.BoundaryStep: does not state the velocity vector's notification log. It states the vector's value and callback.
- Boundary.BounceX: does not state the velocity vector's notification log. It states the vector's value and callback.
- Boundary.BounceY: does not state the velocity vector's notification log. It states the vector's value and callback.
- Boundary.BoundaryStepFixed: does not state the velocity vector's notification log.
- Boundary.BounceFixedX: does not state the velocity vector's notification log.
- Boundary.BounceFixedY: does not state the velocity vector's notification log.
- Prefabs.CreateLabel: builds on the as-written rectangle builder, so the requested size is not applied (see Findings).
- Timers.Timer.Update: keeps the strict `< 0` test of the code as written. The intended rule is stated and proved on values only (`Timers.UpdatedFixed`, `Timers.FixedFiresOnExpiry`), because no modelled caller drives the timer's `update`.
- Sound (`sound.ts`, `zzfx.ts`) is not part of this model, and `Sound.play()` is a no-op.
- Not part of this model:
  - the renderer;
  - `engine.ts`;
  - the render, label, movement, rotation and timer systems (glue over the modelled components or over missing renderer methods);
  - texture and resource loaders;
  - `index.ts`;
  - the build configuration.
- Also not part of this model:
  - the DOM, info-text and spawn-loop parts of the two demos' `main.ts`;
  - the pong `performanceSystem`, beyond its registration.
- The demo systems use each file's own time unit. The millisecond step of `game-loop.ts` is not reconciled with the seconds the systems expect.
- Entity ids are unbounded naturals. JavaScript's 2^53 limit is not modelled.

## Findings

| source | as written | input that shows it | evidently intended | confidence | as-written member | corrected member |
|---|---|---|---|---|---|---|
| packages/engine/src/prefabs/rectangle.prefab.ts:18 | `transform.scale.set(size.x, size.y)` sets a copy returned by the scale getter | `createRectangle(world, new Vec2(20, 120))` stores scale (1, 1) | the transform's scale becomes the size | not executed | Prefabs.CreateRectangle | Prefabs.CreateRectangleScaled |
| packages/engine/src/prefabs/circle.prefab.ts:49 | `transform.scale.set(radius, radius)` sets a copy | `createCircle(world, 5)` stores scale (1, 1) | the transform's scale becomes (radius, radius) | not executed | Prefabs.CreateCircle | Prefabs.CreateCircleScaled |
| packages/pong/src/main.ts:172-179 | `transform.position.y -= …` and the clamp assign to copies of the position | keys {"w": true}, dt = 0.1 leaves the paddle's y unchanged | the paddle moves by 500·dt and is clamped | not executed | Pong.PlayerPaddle | Pong.PlayerPaddleFixed |
| packages/pong/src/main.ts:203-206 | `transform.position.y -= moveBy` and the clamp assign to copies | paddle at y 324, ball at y 100, dt = 0.1: the paddle stays at 324 | the paddle follows the ball by at most 500·dt | not executed | Pong.CpuPaddle | Pong.CpuPaddleFixed |
| packages/pong/src/main.ts:154-155 | `transform.position.x = …` and `.y = …` assign to copies | a TIMEOUT with the ball at x 1200 leaves it at x 1200 | the ball is re-served from (576, randomInteger(200, 448)) | not executed | Pong.BallTimeout | Pong.BallTimeoutFixed |
| packages/engine/src/components/timer.component.ts:33 | `if (this.timeLeft < 0)` publishes TIMEOUT only when the countdown goes strictly below zero | `start(1)`, then `update(0.5)` twice: the timer ends idle and no TIMEOUT is published | TIMEOUT whenever the countdown reaches zero (`<= 0`) | not executed | Timers.ExactExpirySilent | Timers.UpdatedFixed |
| packages/game/src/main.ts:67-75 | both clamps assign to copies of the position | a shape at x -10 with half width 5 bounces but stays at x -10 | the position is clamped into the canvas | not executed | Boundary.BoundaryStep | Boundary.BoundaryStepFixed |
