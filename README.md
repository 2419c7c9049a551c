# Cart game world model

The model covers the world logic of a browser cart game built on matter-js. A cart is dropped onto procedurally generated ground. A chain of single-shot timers spawns coins above it. Once the last coin exists, torque is applied to the cart's wheels. The best distance reached is kept across restarts. The logic exists twice, and the model covers both copies:

- `WorldService` (`world_service.dfy`) is the current lifecycle service. It caches the ground plot across soft resets. A fresh cart is built on every `init`. The coin count is the length of the shared coin registry. It also folds the records.
- `WorldComponent` (`world_component.dfy`) is the older self-contained component. It lays its own ground once. The coin count is a counter in the closure of `addCoins`.

Shared pieces:

- `terrain.dfy`: the ground-plotting loop. `Plot` is the specification both `do … while` loops are proved against. Its lemmas state contiguity, the width bounds, termination past the target width and the flat first segment.
- `cart.dfy`: the cart-assembly arithmetic. This is the 8-vertex hull, the two wheels hung `1.5 r` below chassis vertices 1 and 2, and the constraint anchors relative to the chassis centre.
- `timers.dfy`: the browser's `setTimeout` / `clearTimeout` as a value, a table of pending ids.
- `models.dfy`: `RecordsModel`, `WorldView` and the `StatsModel` computation.
- `base.dfy` and `physics.dfy`: vectors, `Math.max`, and bodies as plain records.

Random draws are an input sequence of reals in `[0, 1)`, `draws`. `WorldService.PlotGround` and `WorldService.Init` return how many draws they used; the component's `CreateGround` and `InitWorld` do not report it. Time is not modelled. The browser running a pending timer is the method `Fire(id)`, and any pending timer may fire next. `Bodies.fromVertices` (the hull recentring) and `Vertices.contains` are foreign code and are passed in as function values.

Behaviour of the code that a reader might not expect, and that the model keeps:

- **Record folding.** The records are folded only when an engine already exists (world.service.ts:38-39). The first `init` leaves them null rather than recording a distance of 0.
- **Segment anchor.** A segment's anchor is `(x + w/2, y + dy/2)` (world.service.ts:97-98). The rise shifts only its y.
- **Contiguity.** Consecutive anchors are `w_i/2 + w_{i+1}/2` apart. That is less than the width `w_i` when segment `i+1` is narrower, so the anchors do not step by whole widths. What the code guarantees is that each segment's left edge is the previous segment's right edge. That is what `Terrain.PlotContiguous` proves.
- **`distanceMax`.** The stats' `distanceMax` is `round(max(record, chassis x))`, computed on the unrounded x (stats-model.ts:18-22). It is not the maximum of the record and the rounded distance.
- **Termination.** The plotting loop always ends with the code's constants: every pass advances by at least `200 - 50 = 150`.
- **Cancelling on `init`.** `init` forgets the held timer id without calling `clearTimeout` (world.service.ts:45). A chain that is still in flight therefore keeps its pending timer. `WorldService.Init` says exactly that: no pending timer is removed.

## Model

| member | source | states |
|---|---|---|
| Base.Max | src/web-ui/src/app/features/game/services/world.service.ts:237 | `Math.max` is an upper bound of both arguments and equals one of them |
| Terrain.SegmentWidth | src/web-ui/src/app/features/game/services/world.service.ts:93 | every segment width drawn from `[0,1)` lies in `[150, 250)` |
| Terrain.SegmentRise | src/web-ui/src/app/features/game/services/world.service.ts:94 | a height change drawn from `[0,1)` with `vY >= 0` lies in `[-vY/2, vY/2]`, strictly below `vY/2` when `vY > 0`, and is 0 when `vY` is 0 (likewise world.component.ts:107) |
| Terrain.PassBound | src/web-ui/src/app/features/game/services/world.service.ts:107-110 | the number of loop passes from `x` is bounded; it is at least 1 (a `do … while` runs once) |
| Terrain.PassBoundMonotone | src/web-ui/src/app/features/game/services/world.service.ts:107-110 | starting further right never needs more passes |
| Terrain.Plot | src/web-ui/src/app/features/game/services/world.service.ts:92-110 | the plot has at least one segment and no more than the pass bound |
| Terrain.PlotUnfold | src/web-ui/src/app/features/game/services/world.service.ts:92-110 | one pass: a segment past the limit ends the plot, otherwise the plot continues from its right edge with two draws used and `vY` grown by 5 |
| Terrain.PlotPrefixStep | src/web-ui/src/app/features/game/services/world.service.ts:96-110 | a pass that stays within the limit keeps the laid prefix plus the rest equal to the whole plot |
| Terrain.PlotPrefixStop | src/web-ui/src/app/features/game/services/world.service.ts:96-110 | the pass that passes the limit completes the plot |
| Terrain.SegmentGeometry | src/web-ui/src/app/features/game/services/world.service.ts:96-105 | the entry `MakeSegment` builds and its polygon `Quad`: exactly the vertices `(0,0), (w,dy), (w,dy+20), (0,20)`, i.e. a top edge of width `w` and rise `dy`, two vertical sides and depth 20 throughout; anchor `(x + w/2, y + dy/2)`, left edge `(x, y)` and right edge `(x + w, y + dy)` |
| Terrain.PlotLink | src/web-ui/src/app/features/game/services/world.service.ts:107-110 | consecutive entries touch (right edge of `i` = left edge of `i+1`), and every entry but the last ends at or before the limit |
| Terrain.PlotLast | src/web-ui/src/app/features/game/services/world.service.ts:110 | the last entry ends past the limit: the loop exits with `x > width` |
| Terrain.PlotContiguous | src/web-ui/src/app/features/game/services/world.service.ts:92-110 | all entries are well-formed quads of width in `[150, 250)`; the first starts at `(x, y)`; they form a contiguous chain; only the last ends past the limit |
| Terrain.PlotEntry | src/web-ui/src/app/features/game/services/world.service.ts:92-109 | entry `i`'s polygon is the one pass `i` pushes: its width comes from draw `2i` and its rise from draw `2i+1`, scaled by `vY + 5i` for start variance `vY`; its anchor follows from `PlotContiguous` |
| Terrain.FirstSegmentFlat | src/web-ui/src/app/features/game/services/world.service.ts:90-94 | starting with `vY = 0` the first segment is flat |
| Terrain.GroundBody | src/web-ui/src/app/features/game/services/world.service.ts:117-124 | a ground body is a static polygon of the entry's vertices at its anchor, at rest, with options `isStatic: true, frictionStatic: 1` (likewise world.component.ts:116-119) |
| Terrain.BuiltFromAppend | src/web-ui/src/app/features/game/components/world/world.component.ts:116-121 | pushing one more segment body keeps the bodies in step with the plot, in order |
| CartAssembly.HullVertices | src/web-ui/src/app/features/game/services/world.service.ts:143-152 | the hull has 8 vertices starting at the origin, mirrored about its vertical mid-line, on the three levels `0`, `height` and `height + thickness`, and within its width |
| CartAssembly.CreateCartWheel | src/web-ui/src/app/features/game/services/world.service.ts:164-178 | the wheel is a circle centred at `(x, y + 1.5 r)`; the constraint binds chassis 0 to the wheel with anchor `(x - cx, y - cy + 1.5 r)`, which lands on the wheel's centre |
| CartAssembly.CreateCart | src/web-ui/src/app/features/game/services/world.service.ts:134-162 | exactly 3 bodies (the chassis, a polygon from the placed hull, at index 0) and 2 constraints; wheel `k` hangs `1.5 r` below placed vertex `k`, and its anchor is that position relative to the chassis centre |
| Timers.SetTimeout | src/web-ui/src/app/features/game/services/world.service.ts:195-197 | a fresh id not pending before is now pending with the requested callback; exactly one more timer is pending; every timer pending before keeps its callback |
| Timers.Remove | src/web-ui/src/app/features/game/services/world.service.ts:183-185 | the id is no longer pending; removing an id that is not pending changes nothing; otherwise one fewer timer is pending; every other pending timer keeps its callback |
| Timers.Cancel | src/web-ui/src/app/features/game/services/world.service.ts:182-188 | a held id is removed, and with none held nothing changes |
| Timers.AtMostOnePending | src/web-ui/src/app/features/game/services/world.service.ts:192-198 | when every pending timer is the held one, at most one timer is pending, and none when no id is held |
| Models.CoinBody | src/web-ui/src/app/features/game/services/world.service.ts:207-209 | a coin is a circle of radius 5 at rest at the spawn point, with the single option `slop: 0` (likewise world.component.ts:207-209) |
| Models.Round | src/web-ui/src/app/features/game/models/stats-model.ts:15-16 | `Math.round` gives the integer `n` with `n <= x + 0.5 < n + 1` |
| Models.RoundMonotone | src/web-ui/src/app/features/game/models/stats-model.ts:16-22 | rounding is monotone |
| Models.NextRecords | src/web-ui/src/app/features/game/services/world.service.ts:229-239 | the new record is at least the previous record (0 without one) and the chassis x (0 without a cart), and equals one of them, so it is exactly their maximum |
| Models.RecordsAfter | src/web-ui/src/app/features/game/services/world.service.ts:38-39 | the fold of successive inits: no run leaves the starting records; after a run the record is at least that run's distance and the record before it, and equals one of them |
| Models.RecordsMonotone | src/web-ui/src/app/features/game/services/world.service.ts:38-39 | over any series of runs the record never decreases |
| Models.RecordsDominate | src/web-ui/src/app/features/game/services/world.service.ts:229-239 | after a series of runs the record is at least the starting record and every run's distance |
| Models.Contained | src/web-ui/src/app/features/game/models/stats-model.ts:10-12 | the filtered coins are coins of the input that the cart contains, and no more of them than the input has |
| Models.ContainedExactly | src/web-ui/src/app/features/game/models/stats-model.ts:10-12 | the filter keeps each contained coin as often as it occurs and drops every other coin |
| Models.ContainedExtremes | src/web-ui/src/app/features/game/models/stats-model.ts:10-12 | all coins are counted iff all are inside; none iff none are |
| Models.ComputeStats | src/web-ui/src/app/features/game/models/stats-model.ts:6-30 | with no world all fields are 0. Otherwise: the coin count is the number of contained coins, between 0 and the number of coins; the max count is copied; velocity and distance are rounded; `distanceMax` is the rounded maximum of the record and the chassis x; `distanceMax >= distance` and `distanceMax >= round(record)` |
| WorldServiceModel.StartChainKeepsTimers | src/web-ui/src/app/features/game/services/world.service.ts:45-71 | after `init` drops the held id and a new chain schedules its first timer, that timer is held and the previously held one belongs to an abandoned chain |
| WorldServiceModel.RescheduleKeepsTimers | src/web-ui/src/app/features/game/services/world.service.ts:200-214 | a rescheduling firing leaves the chain's new timer as the held one and every other pending timer unchanged |
| WorldServiceModel.ResolveKeepsTimers | src/web-ui/src/app/features/game/services/world.service.ts:200-217 | a resolving firing leaves no timer held and the other pending timers unchanged |
| WorldServiceModel.SingleChainFiresHeld | src/web-ui/src/app/features/game/services/world.service.ts:195-201 | with one chain running alone, the firing timer is the held one, of the latest chain, which has not resolved yet |
| WorldServiceModel.SingleChainRescheduleKeeps | src/web-ui/src/app/features/game/services/world.service.ts:211-214 | with one chain running alone, a firing below 15 coins reschedules; the run stays single, with exactly the new timer pending and held |
| WorldServiceModel.SingleChainResolveKeeps | src/web-ui/src/app/features/game/services/world.service.ts:211-217 | with one chain running alone, the 15th coin resolves the chain: no timer is left, the chain is resolved and the torque is 0.025 |
| WorldServiceModel.RescheduleKeepsCoinState | src/web-ui/src/app/features/game/services/world.service.ts:211-214 | the coin-spawning invariant survives a rescheduling firing |
| WorldServiceModel.ResolveKeepsCoinState | src/web-ui/src/app/features/game/services/world.service.ts:211-217 | the coin-spawning invariant survives a resolving firing, which marks the chain resolved and sets torque 0.025 |
| WorldServiceModel.InitKeepsCoinState | src/web-ui/src/app/features/game/services/world.service.ts:45-74 | `init` re-establishes the coin-spawning invariant; the new run is single-chain exactly when no timer was pending |
| WorldServiceModel.WorldService.constructor | src/web-ui/src/app/features/game/services/world.service.ts:24-33 | an empty plot and registry, no ground, cart, engine, held id or records, and torque 0 |
| WorldServiceModel.WorldService.GetCart | src/web-ui/src/app/features/game/services/world.service.ts:225-227 | the chassis exists iff the cart does, and is its body 0 |
| WorldServiceModel.WorldService.GetRecords | src/web-ui/src/app/features/game/services/world.service.ts:229-239 | the records folded with the chassis x, or 0 without a cart; `NextRecords` states the bounds |
| WorldServiceModel.WorldService.View | src/web-ui/src/app/features/game/services/world.service.ts:76-81 | a view exists iff an engine does; it shows body 0 of the cart, the live coin registry and the constant 15 |
| WorldServiceModel.WorldService.Init | src/web-ui/src/app/features/game/services/world.service.ts:35-82 | records are set to `getRecords()` iff an engine existed, and are otherwise unchanged, so the record never decreases. A new engine is made. The plot is regenerated iff `recreateGround` or it was empty, else kept. The ground is one body per plot entry. The cart is `createCart(0, -100, …)`, coins are emptied and torque is 0. A new chain is started. No pending timer is cancelled; one new timer is scheduled and held |
| WorldServiceModel.WorldService.ResetRun | src/web-ui/src/app/features/game/services/world.service.ts:38-70 | the part of `init` before `addCoins`: records set to `getRecords()` iff an engine existed, the held id and torque reset, a new engine, the ground refreshed, a fresh cart, an empty registry |
| WorldServiceModel.WorldService.RefreshGround | src/web-ui/src/app/features/game/services/world.service.ts:50-54 | the plot is regenerated iff `recreateGround` or it was empty, otherwise kept unchanged; the ground bodies are rebuilt from it |
| WorldServiceModel.WorldService.PlotGround | src/web-ui/src/app/features/game/services/world.service.ts:84-111 | the loop leaves exactly `Plot(x, y, 0, width, draws)`, using two draws per segment |
| WorldServiceModel.WorldService.CreateGround | src/web-ui/src/app/features/game/services/world.service.ts:113-132 | one static body per plot entry, in order, and no constraints |
| WorldServiceModel.WorldService.ClearCoinTimeout | src/web-ui/src/app/features/game/services/world.service.ts:182-188 | the held timer, if any, is cancelled and no id is held |
| WorldServiceModel.WorldService.ScheduleCoinCreation | src/web-ui/src/app/features/game/services/world.service.ts:192-198 | the held timer is cancelled first, then exactly one new timer is scheduled and held |
| WorldServiceModel.WorldService.AddCoins | src/web-ui/src/app/features/game/services/world.service.ts:180-223 | a new chain is recorded, the held timer cancelled, and the chain's first timer scheduled and held |
| WorldServiceModel.WorldService.CreateCoin | src/web-ui/src/app/features/game/services/world.service.ts:200-218 | with no engine, only the held timer is cancelled. Otherwise one coin is appended at the chain's spawn point; the chain reschedules iff the registry is shorter than the quantity, else it resolves and torque becomes 0.025 |
| WorldServiceModel.WorldService.Fire | src/web-ui/src/app/features/game/services/world.service.ts:195-218 | the service invariant is kept and exactly one coin at `(0, -150)` is added. Below 15 coins the chain reschedules and holds the new timer. At 15 or more it resolves: no timer is held and torque is 0.025 |
| WorldServiceModel.WorldService.PhysicsStep | src/web-ui/src/app/features/game/services/world.service.ts:68 | the physics engine moving the chassis changes only body 0's position and velocity |
| WorldServiceModel.WorldService.AfterUpdate | src/web-ui/src/app/features/game/services/world.service.ts:61-66 | both wheels (bodies 1 and 2) get the current torque, the chassis and constraints are unchanged |
| WorldServiceModel.SingleChainHoldsOneTimer | src/web-ui/src/app/features/game/services/world.service.ts:192-198 | while one chain runs alone since the last `init`, at most one timer is pending |
| WorldComponentModel.CoinCreated | src/web-ui/src/app/features/game/components/world/world.component.ts:211-217 | one firing keeps the spawn point and quantity, raises `count` by exactly 1, and leaves the chain resolved iff it was already or `count` reached `quantity` |
| WorldComponentModel.SpawnAfter | src/web-ui/src/app/features/game/components/world/world.component.ts:211-217 | after `n` firings `count` has grown by `n` and the chain has resolved iff it was already, or `n > 0` and the count reached `quantity` |
| WorldComponentModel.SpawnResolvesAtQuantity | src/web-ui/src/app/features/game/components/world/world.component.ts:180-217 | after `n` firings the closure's `count` is `n`, and the chain has resolved iff `n` reached `quantity` |
| WorldComponentModel.WorldComponent.constructor | src/web-ui/src/app/features/game/components/world/world.component.ts:11-18 | no engine, cart or held id, and torque 0 |
| WorldComponentModel.WorldComponent.InitWorld | src/web-ui/src/app/features/game/components/world/world.component.ts:44-95 | an engine, the ground built from `Plot(0, 0, 0, 50000, draws)`, the cart `createCart(100, -100, …)`, torque 0, a fresh closure with `count = 0`, and exactly one pending timer, the held one, with the timer counter advanced by one |
| WorldComponentModel.WorldComponent.CreateGround | src/web-ui/src/app/features/game/components/world/world.component.ts:97-130 | the loop pushes one static body per pass, in order, built from exactly `Plot(x, y, 0, width, draws)`, so the ground is a contiguous chain (`Terrain.PlotContiguous`) |
| WorldComponentModel.WorldComponent.ClearCoinTimeout | src/web-ui/src/app/features/game/components/world/world.component.ts:182-188 | the held timer, if any, is cancelled and no id is held |
| WorldComponentModel.WorldComponent.ScheduleCoinCreation | src/web-ui/src/app/features/game/components/world/world.component.ts:192-198 | the held timer is cancelled first, then exactly one new timer is scheduled and held |
| WorldComponentModel.WorldComponent.AddCoins | src/web-ui/src/app/features/game/components/world/world.component.ts:178-223 | a fresh closure with `count = 0` and its first timer scheduled and held |
| WorldComponentModel.WorldComponent.CreateCoin | src/web-ui/src/app/features/game/components/world/world.component.ts:200-218 | with no engine, only the held timer is cancelled. Otherwise one coin is added and `count` rises by 1; the chain reschedules iff `count < quantity`, else it resolves and torque becomes 0.025 |
| WorldComponentModel.WorldComponent.Fire | src/web-ui/src/app/features/game/components/world/world.component.ts:195-218 | the invariant is kept and at most one timer is pending. Exactly one coin is added and counted. Below the quantity the chain holds the single new timer, the timer counter advances by one and torque stays 0. At the quantity it has resolved with `count == quantity`, no timer, the timer counter unchanged and torque 0.025 |
| WorldComponentModel.WorldComponent.AfterUpdate | src/web-ui/src/app/features/game/components/world/world.component.ts:81-86 | both wheels get the current torque; the chassis and constraints are unchanged |

## Left out

- Rendering, the camera (`Render.create`, `Bounds.shift` in `beforeTick`) and `fitToScreen` are display code with no game logic.
- The RxJS subjects `world$` and `records$` are plain fields (`View`, `records`). Stream composition and the 500 ms stats sampling are not modelled.
- Timer durations (`delay` 1000, `interval` 100) are not modelled, because time is not modelled. Any pending timer may fire next.
- Per-chain timer uniqueness is not stated across chains. There is no ordering on timers, so a timer orphaned by `init` may fire after the new chain has resolved. In the model the registry can then exceed 15 coins. Real delays make this unlikely.
- Resolving the `addCoins` promise runs the `.then` handler that sets the torque. It is modelled as immediate, not as a separate microtask.
- `Bodies.*`, `Composite.create`, `World.add/clear` and `Engine.create/run/clear`: bodies are records of the arguments the game passes. A ground body's stored position is its anchor, not the recentred centroid `fromVertices` computes. The physics integrator becomes `PhysicsStep`, which moves the chassis arbitrarily.
- `Bodies.fromVertices` recentring and `Vertices.contains` are foreign code, passed in as function values.
- JavaScript numbers are exact reals; IEEE rounding, overflow and NaN are not modelled.
- `Math.random` is an input sequence of draws.
- Angular glue (`ngOnInit`, `ngOnDestroy`, `onResize`), the shell and board components, `world-view.ts` and `records-model.ts`: the last two are the datatypes `WorldView` and `Records`.
- `WorldComponentModel.WorldComponent.InitWorld`: it is modelled as run once, on a component that has not spawned yet, as `ngOnInit` runs it.
