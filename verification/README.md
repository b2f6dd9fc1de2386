# element-motion shared-element transitions, modelled in Dafny

This project models four pieces of the element-motion (formerly yubaba)
library, each from the generation of the library it lives in:

- **`Baba`** (`packages/react-next`), the transition coordinator. An instance
  tagged with a name looks the name up in the process-wide children store when
  it mounts. If a snapshot is there, the instance executes the collected
  animations against it. Otherwise it shows itself, stores its own snapshot
  and tells its manager it is ready. On unmount it schedules the removal of
  what it stored.
- **`ConcealMove`** (`packages/yubaba`): geometry, timing and callbacks of the
  conceal-move effect.
- **`FadeMove`** (`packages/motions`): geometry, timing and callbacks of the
  fade-move motion.
- **`VisibilityManager`** (`packages/core`): a one-cell state machine that
  shows or hides its children in response to motion start and finish signals.

Files:

- `wrappers.dfy`: `Option` and `Result`.
- `geometry.dfy`: boxes, offsets (`Delta`, `Shift`), the duration choice and
  the data an effect receives.
- `baba.dfy`: the store (`ChildrenStore`, a class holding a map from name to
  snapshot) and the `Baba` class.
  - `Blocks` is the reference partition of the collected data into blocks.
    `PartitionBlocks` is the source's `reduce`, proved equal to it.
  - The promise chain of `execute` is recorded as a trace of calls (`Call`)
    on the instance. `RunTrace` specifies that trace when every promise
    resolves.
  - A `resolves` argument gives the outcome of each `prepare` and `animate`
    promise. `SettleTrace` is the trace when some of them reject: the chain
    stops at the first rejecting stage. `Completes` says whether the chain
    reaches its final `.then`.
  - `HandOff` is a client that walks two instances of one name through a
    hand-off. `RejectedHandOff` does the same with a rejecting `prepare`.
- `conceal_move.dfy`, `fade_move.dfy`: each effect has a specification
  function `Render` that states its geometry, and a class whose
  `calculatedDuration` field the render methods update.
- `visibility_manager.dfy`: a class with the `style` cell and a ghost history
  of handled signals. `Run` gives the style after a history.

The DOM reads, the scroll correction and the duration heuristic are not part
of the model. They are parameters:

- Baba's `getElementSizeLocation` is a `box` argument to each lifecycle method.
- `recalculateElementBoundingBoxFromScroll` is a function argument `recalc`.
- `dynamic` is a function argument too. Nothing is assumed about it; in
  particular it is not assumed to be monotonic.

## Where the code and the library's design notes differ (the model follows the code)

- `execute` reads the stored snapshot but does not remove it. A snapshot
  leaves the store only through the removal that the old instance scheduled
  on unmount (50 ms). Nothing cancels that removal: the returned canceller is
  never used. If the new instance stores its own snapshot before the timer
  fires, the timer removes that fresh snapshot. `HandOff` shows this order.
  It is the order when the new instance's chain settles within those 50 ms.
  When the animations take longer, the timer removes the old snapshot during
  the chain and the new instance's final store survives.
- The design notes describe failures as isolated per phase, so that a
  failure would not stop the other phases of its block or later blocks. The code instead joins
  the prepares and each block with `Promise.all`. The first rejecting
  `prepare` or `animate` skips every later block and the final `.then`. The
  instance then stays at opacity 0, does not store and does not notify its
  manager (`Baba.Baba.Execute`, `Baba.ChainUntilStops`, `RejectedHandOff`).
- `Baba.execute` runs each entry's `prepare` and `animate`, and no
  `afterAnimate` phase.
- `FadeMove`'s prop comments say `scaleX`/`scaleY` default to true, but they have
  no default prop, so an absent flag means no scaling on that axis.
- `VisibilityManager` ignores `isInitiallyVisible`: the style starts as `{}`.
- `ConcealMove` places its box at the scroll-corrected origin. It measures the
  translation from the captured origin. The box lands on the destination
  exactly when the scroll correction did not move the origin
  (`ConcealMove.LandsOnDestination`). `FadeMove` measures from the corrected
  origin and always lands (`FadeMove.Render`).
- `ConcealMove` is meant to shift its content so that the focal element sits
  at the box's corner. It writes that shift by putting a minus sign in front
  of the focal offset's text. A focal element above or to the left of the
  origin makes the text `--<n>px`, which is not a length, so the content does
  not move at all (`ConcealMove.Render`).
- `ConcealMove.animate` and `FadeMove.animate` set their finish timer before
  they render. So the timer uses the duration computed by the previous render
  (`beforeAnimate`'s).

## Model

| member | source | states |
|---|---|---|
| Baba.PartitionBlocks | packages/react-next/src/components/Baba.tsx:151-184 | the reduce over the data equals the reference partition `Blocks`; it has one block more than there are waits, and its blocks concatenate to the animation payloads in order |
| Baba.Push | packages/react-next/src/components/Baba.tsx:152-181 | one reduce step keeps at least one block; an animation appends its payload after every payload collected so far and leaves the earlier blocks; a wait adds one empty block at the end; anything else changes nothing |
| Baba.BlocksSnoc | packages/react-next/src/components/Baba.tsx:152-181 | one reduce step (append to the last block, open a block, or skip) applied after a prefix gives the partition of the longer prefix |
| Baba.BlockCount | packages/react-next/src/components/Baba.tsx:172-176 | starting from one empty block, each wait opens a block: the number of blocks is 1 plus the number of waits |
| Baba.BlocksFlatten | packages/react-next/src/components/Baba.tsx:154-169 | every animation goes to a block, in collected order: the concatenated blocks are the animation payloads |
| Baba.WaitSplits | packages/react-next/src/components/Baba.tsx:172-176 | a wait cuts the partition: the partition of xs + [wait] + ys is that of xs followed by that of ys |
| Baba.NoWaitOneBlock | packages/react-next/src/components/Baba.tsx:154-169 | without waits all animations form one block |
| Baba.OtherIgnored | packages/react-next/src/components/Baba.tsx:178-180 | an entry whose action is neither `'animation'` nor `'wait'` leaves the partition as if it were absent |
| Baba.Starts | packages/react-next/src/components/Baba.tsx:196 | starting a block calls `animate` for each of its payloads, in block order, tagged with the block |
| Baba.PreparesCollect | packages/react-next/src/components/Baba.tsx:188-190 | the `prepare` map calls `prepare` once for each animation entry, in collected order, and makes no other call |
| Baba.BlockRunOrder | packages/react-next/src/components/Baba.tsx:194-197 | one block's run starts all its animations before its join, and every animate gets the origin and destination targets it was given |
| Baba.ChainOrder | packages/react-next/src/components/Baba.tsx:194-198 | the chain over the blocks is in stage order: block k's starts, then its join, then block k+1 |
| Baba.ChainTargets | packages/react-next/src/components/Baba.tsx:194-198 | every animate of the chain gets the same origin and destination targets |
| Baba.ChainCollect | packages/react-next/src/components/Baba.tsx:194-198 | the chain animates the concatenated blocks and joins blocks 0, 1, ..., n-1 in order |
| Baba.RunTraceOrder | packages/react-next/src/components/Baba.tsx:186-198 | every prepare comes before the prepares' join, which comes before any animate; blocks run strictly in order; each animate gets the stored snapshot as origin and this instance as destination |
| Baba.RunTraceCalls | packages/react-next/src/components/Baba.tsx:186-198 | each animation entry is prepared once and animated once, in collected order; there is one join per block (1 plus the number of waits), in order |
| Baba.ChainCompletesResolves | packages/react-next/src/components/Baba.tsx:194-198 | the chain over the blocks reaches its last join exactly when none of its `animate` promises rejects |
| Baba.ChainUntilComplete | packages/react-next/src/components/Baba.tsx:194-198 | when every block of the chain resolves, the chain makes exactly the calls of the run where every promise resolves |
| Baba.ChainUntilPrefix | packages/react-next/src/components/Baba.tsx:194-198 | what the chain calls when promises may reject is a prefix of the full chain |
| Baba.ChainUntilStops | packages/react-next/src/components/Baba.tsx:194-198 | a rejection stops the chain: block k starts only when blocks 0 to k-1 resolved, and joins only when blocks 0 to k resolved |
| Baba.ChainUntilShorter | packages/react-next/src/components/Baba.tsx:194-198 | a chain that stops at a rejecting block makes fewer calls than the full chain |
| Baba.SettleTracePrefix | packages/react-next/src/components/Baba.tsx:193-213 | the calls `execute` makes are a prefix of the full run `RunTrace`; they are the full run exactly when no `prepare` or `animate` rejects |
| Baba.AllResolve | packages/react-next/src/components/Baba.tsx:193-213 | when no promise rejects, the chain reaches its final `.then` |
| Baba.AfterStore | packages/react-next/src/components/Baba.tsx:127-144 | no write while unmounting or without data; otherwise the name maps to {box, element, render, data}; no other name changes |
| Baba.Baba.constructor | packages/react-next/src/components/Baba.tsx:73-81 | a new instance is hidden, not unmounting, has not stored, and has made no calls |
| Baba.Baba.SetRef | packages/react-next/src/components/Baba.tsx:219-221 | records the element and changes nothing else |
| Baba.Baba.SetReactNode | packages/react-next/src/components/Baba.tsx:223-225 | records the render callback and changes nothing else |
| Baba.Baba.SetData | packages/react-next/src/components/Baba.tsx:227-229 | records the collected data and changes nothing else |
| Baba.Baba.Store | packages/react-next/src/components/Baba.tsx:127-144 | the store becomes `AfterStore` of the old store; `hasStoredBefore` becomes true when this call writes and otherwise keeps its value |
| Baba.Baba.DelayedClear | packages/react-next/src/components/Baba.tsx:115-125 | schedules the removal of the name after 50 ms only if the instance stored before; otherwise schedules nothing |
| Baba.Baba.ClearTimerFires | packages/react-next/src/components/Baba.tsx:117-119 | the scheduled timer removes the name from the store and nothing else |
| Baba.Baba.WillUnmount | packages/react-next/src/components/Baba.tsx:105-108 | sets `unmounting` (so every later store is a no-op), then schedules the clear as `DelayedClear` does |
| Baba.Baba.DidUpdate | packages/react-next/src/components/Baba.tsx:110-113 | stores again, as `Store` does |
| Baba.Baba.ShowStoreNotify | packages/react-next/src/components/Baba.tsx:199-212 | the instance becomes shown, stores, then calls the manager's `onFinish` when there is a manager |
| Baba.Baba.RunBlocks | packages/react-next/src/components/Baba.tsx:194-198 | block by block: all starts of a block, then its join when they all resolve; once a block rejects, no later block starts; returns whether every block resolved |
| Baba.Baba.Execute | packages/react-next/src/components/Baba.tsx:146-217 | with no snapshot under the name it makes no call and changes nothing; otherwise it makes the calls of `SettleTrace`; exactly when the chain completes it then shows, stores and notifies; on a rejection shown, stored state and store are unchanged |
| Baba.Baba.Settle | packages/react-next/src/components/Baba.tsx:151-198 | makes the prepares, and their join and the blocks only when the prepares resolve, exactly as `SettleTrace`; returns whether the chain completes |
| Baba.Baba.DidMount | packages/react-next/src/components/Baba.tsx:84-103 | executes exactly when the store holds the name; without a snapshot it makes no animation calls and shows, stores (when it may) and notifies; with one it does so only when the chain completes, and otherwise stays hidden without storing or notifying |
| Baba.MountAndLeave | packages/react-next/src/components/Baba.tsx:84-125 | an instance mounting under a free name shows itself, stores its snapshot (with its element, render callback and data) and notifies its manager; unmounting then schedules the removal of that name after 50 ms |
| Geometry.Delta | packages/motions/src/FadeMove/index.tsx:58-59 | the translation is the unique offset that takes the start location to the target location |
| Geometry.Negate | packages/yubaba/src/animations/ConcealMove/index.tsx:99 | the negated offset undoes the offset |
| ConcealMove.Render | packages/yubaba/src/animations/ConcealMove/index.tsx:42-104 | it throws exactly when the focal box is missing; otherwise the duration is `dynamic(corrected origin, destination)` for `'dynamic'` and the given number of milliseconds otherwise; the box sits at the corrected origin; it takes the destination's size only when moving; opacity is 0 exactly when fading out; it has a transform exactly when moving, and the translation takes the captured origin onto the destination; the children get a class exactly when moving, which shifts them back by the focal offset when that offset is non-negative on both axes and shifts nothing otherwise |
| ConcealMove.LandsOnDestination | packages/yubaba/src/animations/ConcealMove/index.tsx:65-93 | the moved box (corrected position plus translation) lands on the destination exactly when the scroll correction left the origin in place |
| ConcealMove.DurationIgnoresOptions | packages/yubaba/src/animations/ConcealMove/index.tsx:53-57 | the calculated duration does not depend on the render options |
| ConcealMove.ConcealMove.constructor | packages/yubaba/src/animations/ConcealMove/index.tsx:40 | the calculated duration starts at 0 |
| ConcealMove.ConcealMove.RenderAnimation | packages/yubaba/src/animations/ConcealMove/index.tsx:42-104 | throws exactly when `Render` does, leaving the duration unchanged; otherwise records the calculated duration before rendering `Render`'s result |
| ConcealMove.ConcealMove.BeforeAnimate | packages/yubaba/src/animations/ConcealMove/index.tsx:106-109 | finishes at once, even if the render then throws; renders in place |
| ConcealMove.ConcealMove.Animate | packages/yubaba/src/animations/ConcealMove/index.tsx:111-115 | finishes after the duration calculated before this call; renders the move |
| ConcealMove.ConcealMove.AfterAnimate | packages/yubaba/src/animations/ConcealMove/index.tsx:117-127 | sets the child's opacity to 1, finishes after 100 ms, renders the move fading out |
| FadeMove.Render | packages/motions/src/FadeMove/index.tsx:53-88 | the duration is `dynamic(corrected origin, destination)` for `'dynamic'` and the given number of milliseconds otherwise; the box is at the corrected origin with its size and margin 0; before the motion the transform is the identity and the box is opaque; during it, the translation takes the corrected origin onto the destination and the box is transparent; an axis without scaling keeps scale 1 |
| FadeMove.FadeMove.constructor | packages/motions/src/FadeMove/index.tsx:51 | the calculated duration starts at 0 |
| FadeMove.FadeMove.RenderMotion | packages/motions/src/FadeMove/index.tsx:53-88 | renders `Render`'s result and records its duration |
| FadeMove.FadeMove.BeforeAnimate | packages/motions/src/FadeMove/index.tsx:90-94 | finishes at once and renders in place |
| FadeMove.FadeMove.Animate | packages/motions/src/FadeMove/index.tsx:96-99 | finishes after the duration calculated before this call; renders the motion |
| VisibilityManager.UnsetUntilFinish | packages/core/src/VisibilityManager/index.tsx:44-74 | the style stays `{}` exactly until a finish for this manager arrives; starts alone never hide |
| VisibilityManager.VisibleAfterLastFinish | packages/core/src/VisibilityManager/index.tsx:44-74 | the style is visible exactly when the last signal this manager acts on is a finish |
| VisibilityManager.VisibilityManager.constructor | packages/core/src/VisibilityManager/index.tsx:37-42 | the style starts as `{}` whatever `isInitiallyVisible` is |
| VisibilityManager.VisibilityManager.OnStart | packages/core/src/VisibilityManager/index.tsx:44-60 | forwards to the parent's `onStart` when the parent has `onFinish`, and throws when it then has no `onStart`; a signal for another name leaves the style; otherwise a visible style becomes hidden and any other style stays |
| VisibilityManager.VisibilityManager.OnFinish | packages/core/src/VisibilityManager/index.tsx:62-74 | forwards to the parent's `onFinish` first, when there is one; a signal for another name leaves the style, otherwise it becomes visible |

## Left out

- Timers, promises and React scheduling become an ordered trace. An effect's
  timers become `Effect` values, and Baba's calls become `Call` values.
  Nothing models time passing or callbacks running concurrently.
- Baba.Baba.Execute: the promise chain settles or stops within one call, so
  nothing else can happen while it runs. An unmount during the chain is not
  modelled, though it would make the final store a no-op. Neither is the
  removal timer firing during the chain. All DOM reads during one execution
  return the same `box`. A rejection is the only failure modelled; the
  rejection reason and the unhandled rejected promise are not.
- Baba.Baba.DelayedClear: returns whether its canceller would cancel a timer,
  not the canceller itself. Baba never calls the canceller.
- A `null` element ref is not modelled: `SetRef` takes a handle.
- `childrenStore`, `Collector`, `BabaManager` and the DOM helpers are not part
  of this model. The store is a plain map, and the manager context is the
  `hasManager` flag.
- React's `setState` batching is not modelled, and neither are the handler
  closures that capture the style of the last render. Each handler call sees
  the style the previous call left.
- Rendering details are left out: CSS strings, the `transition` strings
  (of the box and of the children's class), `willChange`, `overflow`,
  `position` and `console.log`. Only the duration, the geometry, the opacity
  and the transforms are kept. Of the children's class only its translation
  is kept, including the case where its text is not a valid length. The
  half-duration of the opacity transition is not modelled.
- Pixel values and durations are integers. FadeMove's scale is kept as an
  undivided ratio, because the source uses floating-point division.
- The default `timingFunction` and `zIndex` come from helpers that are not
  part of this model, so both are carried as given props.
- Each effect's `render()`, which registers its callbacks with the
  `Collector`, is not modelled. Baba's data entries stand for what is
  registered. ConcealMove registers `beforeAnimate`, `animate` and
  `afterAnimate`, which are the methods of its class. FadeMove has no
  `afterAnimate`.
- `AnimationOpacity`, `ReshapingContainer` and the storybook files are not
  part of this model.
