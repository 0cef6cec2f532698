# Sensory Deprivation — a Dafny model of the handler queue and module state machine

"Sensory Deprivation" is a needy module for Keep Talking and Nobody Explodes.
While it is armed it turns the main camera's picture monochrome and pauses all
game audio. Every instance on every bomb shares that one effect, so a
process-wide FIFO queue decides which instance owns it. An instance joins the
queue when it is activated. The first available entry becomes the holder, and
the holder is begun (its `Begin` runs) exactly once. When the holder leaves,
the next available entry is promoted within the same call.

The project has two files:

- `sensory_deprivation.dfy` (module `SensoryDeprivation`) holds the model.
  - `HandlerQueue` is the static handler queue, a class whose `entries` field
    is a `seq<ModuleData>`. `FindNext` (with its dequeuing loop),
    `MarkUnavailableInPlace` (the foreach of `RemoveFromQueue`), `AddToQueue`
    and `RemoveFromQueue` are methods, each proved against pure functions on
    the queue's contents: `Discarded`/`DropUnavailable` (the front-dequeuing
    loop), `Select` (the queue after selection), `Holder` (what `FindNext`
    returns), `BeginTarget` (who gets begun) and `MarkUnavailable` (the
    removal's foreach).
  - The lemmas beside those functions state the queue's guarantees. There is
    a single holder, and selection keeps order. Selection is idempotent. A
    later registration never pre-empts an earlier one. Removing the holder
    promotes the next available entry of another module, and the removed
    module is never the one begun.
  - Two ghost fields keep a log of the slots `Begin` was called for. The
    queue keeps that log strictly increasing, so `Begin` never runs twice for
    the same slot.
  - `Handler` is one module instance. Its fields are the id, `_effect`,
    `_active` and `_begun`. It also holds the host's event subscriptions, as
    a count per callback (`Subscriptions`), and the number of `HandlePass`
    acknowledgements (`passes`). Each event handler is a method whose
    `ensures` gives the new state of the instance, of the queue and of the
    engine globals. On the teardown paths the camera's effect component is
    either unchanged or, when a promoted module's `Begin` added one, that
    module's effect; those contracts also give the state of the module
    promoted in the same call.
  - `Engine` stands for the engine globals: the main camera's effect component
    (`cameraEffect`) and `AudioListener.pause` (`audioPaused`).
- `scenarios.dfy` (module `Scenarios`) plays through whole bombs built from the
  model: FIFO promotion among three modules, the skipping of a withdrawn
  entry, one module's arm/expire/deactivate cycle, and a forced solve followed
  by a deactivation.

Three behaviours of the code that the model keeps as written:

- `TwitchHandleForcedSolve` swaps `StartFilter` back for `Pass` only when
  `_begun` is set (`Assets/Scripts/SensoryDeprivation.cs:150-154`); a module
  that never began keeps its `Pass` subscription from `NewModule`.
- Arm → expire → deactivate acknowledges twice: `StopFilter` acknowledges on
  the timer's expiry, and `RemoveModule` runs `StopFilter` again because
  `_effect` is still set (`Assets/Scripts/SensoryDeprivation.cs:83-86`).
  `Scenarios.ArmExpireDeactivate` proves `passes == 2`.
- `RemoveFromQueue` marks the entries whose module has the same `_moduleId`
  (`Assets/Scripts/SensoryDeprivation.cs:49`), not the same object; `MarkOne`
  compares ids too.

## Model

| member | source | states |
|---|---|---|
| SensoryDeprivation.Discarded | Assets/Scripts/SensoryDeprivation.cs:29-30 | the dequeuing loop discards exactly the leading run of unavailable slots; what it stops at is available |
| SensoryDeprivation.Select | Assets/Scripts/SensoryDeprivation.cs:27-39 | selection leaves the queue empty exactly when no slot was available, shortens it by the discarded slots only, and leaves a settled queue whose only active slot is the front |
| SensoryDeprivation.MarkUnavailable | Assets/Scripts/SensoryDeprivation.cs:49-50 | removal keeps the queue's length and changes each slot only by clearing Available where the module id matches |
| SensoryDeprivation.AtMostOneActive | Assets/Scripts/SensoryDeprivation.cs:33-37 | single holder: with Active set only at the front, at most one slot is Active |
| SensoryDeprivation.NoneActive | Assets/Scripts/SensoryDeprivation.cs:33-37 | a queue with no Active flag counts zero active slots |
| SensoryDeprivation.SelectKeepsOrder | Assets/Scripts/SensoryDeprivation.cs:27-39 | selection keeps the surviving slots in order with their modules and Available flags; only the front gains Active |
| SensoryDeprivation.SelectIdempotent | Assets/Scripts/SensoryDeprivation.cs:27-39 | selecting again changes nothing, begins nobody and returns the same holder |
| SensoryDeprivation.SelectAfterDrop | Assets/Scripts/SensoryDeprivation.cs:29-38 | after the dequeuing loop, the holder is the front and is begun exactly when it was not Active yet |
| SensoryDeprivation.DiscardedAppend | Assets/Scripts/SensoryDeprivation.cs:41-45 | appending a slot does not move the first available slot, and decides it only when none was before |
| SensoryDeprivation.EnqueueFront | Assets/Scripts/SensoryDeprivation.cs:41-45 | no pre-emption: a registering module is neither holder nor begun while an earlier slot is available; otherwise it is both |
| SensoryDeprivation.AddToQueueResult | Assets/Scripts/SensoryDeprivation.cs:41-45 | AddToQueue reports true exactly when every earlier slot was unavailable |
| SensoryDeprivation.EnqueueSettled | Assets/Scripts/SensoryDeprivation.cs:41-45 | on a settled queue, a newcomer is begun exactly when the queue was empty, and the holder is otherwise unchanged |
| SensoryDeprivation.EnqueueWaits | Assets/Scripts/SensoryDeprivation.cs:41-45 | registering on a settled queue gives the newcomer the Active front of an empty queue, or appends it as waiting and keeps the rest |
| SensoryDeprivation.MarkUnavailableNoMatch | Assets/Scripts/SensoryDeprivation.cs:47-50 | removing a module with no slot leaves the queue unchanged |
| SensoryDeprivation.RemovedNotBegun | Assets/Scripts/SensoryDeprivation.cs:47-52 | the module begun, and the holder chosen, after a removal are never the removed module |
| SensoryDeprivation.RemoveHolderPromotes | Assets/Scripts/SensoryDeprivation.cs:47-52 | removing the holder passes the effect to the first later available slot of another module, which is begun in the same call; with none, nobody holds it |
| SensoryDeprivation.RemoveHolderNextWaiting | Assets/Scripts/SensoryDeprivation.cs:47-52 | removing the holder with a waiting module right behind it clears only the holder's flag and makes the next module the begun front |
| SensoryDeprivation.IncreasingDistinct | Assets/Scripts/SensoryDeprivation.cs:33-37 | the log of begun slots holds no slot twice |
| SensoryDeprivation.BookkeptDropFront | Assets/Scripts/SensoryDeprivation.cs:29-30 | dequeuing the front slot keeps the begin-once bookkeeping |
| SensoryDeprivation.BookkeptBegin | Assets/Scripts/SensoryDeprivation.cs:33-37 | beginning a non-Active front slot logs it and keeps the bookkeeping |
| SensoryDeprivation.BookkeptEnqueue | Assets/Scripts/SensoryDeprivation.cs:43 | enqueuing a non-Active slot keeps the bookkeeping |
| SensoryDeprivation.BookkeptMark | Assets/Scripts/SensoryDeprivation.cs:49-50 | clearing Available flags keeps the bookkeeping |
| SensoryDeprivation.Effect.constructor | Assets/Scripts/SensoryDeprivation.cs:170 | a new effect component starts with RunEffect off |
| SensoryDeprivation.ModuleCounter.constructor | Assets/Scripts/SensoryDeprivation.cs:14 | the static id counter starts at zero |
| SensoryDeprivation.HandlerQueue.constructor | Assets/Scripts/SensoryDeprivation.cs:22 | the handler queue starts empty and consistent |
| SensoryDeprivation.HandlerQueue.FindNext | Assets/Scripts/SensoryDeprivation.cs:27-39 | the queue becomes Select of the old queue, the result is Holder, exactly the BeginTarget module is begun and logged, and the queue invariant is restored |
| SensoryDeprivation.HandlerQueue.AddToQueue | Assets/Scripts/SensoryDeprivation.cs:41-45 | enqueue then select; the result is true exactly when the queue was empty or the module already held it; the module is begun only on an empty queue |
| SensoryDeprivation.HandlerQueue.MarkUnavailableInPlace | Assets/Scripts/SensoryDeprivation.cs:49-50 | the foreach clears Available on every slot with the module's id and changes nothing else |
| SensoryDeprivation.HandlerQueue.RemoveFromQueue | Assets/Scripts/SensoryDeprivation.cs:47-52 | mark then select; the module begun, if any, is another module, and the queue invariant holds again |
| SensoryDeprivation.Handler.Start | Assets/Scripts/SensoryDeprivation.cs:60-65 | the id is the incremented static counter, and NewModule and RemoveModule are subscribed once each; nothing is begun or held |
| SensoryDeprivation.Handler.NewModule | Assets/Scripts/SensoryDeprivation.cs:67-72 | the module joins the queue; on an empty queue it is begun at once and takes the camera's effect, otherwise Pass is subscribed and it waits with the engine untouched |
| SensoryDeprivation.Handler.Pass | Assets/Scripts/SensoryDeprivation.cs:74-78 | acknowledges once and changes nothing else |
| SensoryDeprivation.Handler.Withdraw | Assets/Scripts/SensoryDeprivation.cs:82 | leaving the queue begins only another module, leaves this module's own state alone, and changes the camera's effect only to the one that module took |
| SensoryDeprivation.Handler.RemoveModule | Assets/Scripts/SensoryDeprivation.cs:80-88 | leaves the queue and promotes the next module; a held effect is stopped (effect and audio pause off, one more acknowledgement) and released |
| SensoryDeprivation.Handler.Begin | Assets/Scripts/SensoryDeprivation.cs:90-103 | marks the module begun, swaps Pass for StartFilter, subscribes StopFilter, and takes the camera's effect, adding a fresh one only when there is none |
| SensoryDeprivation.Handler.StartFilter | Assets/Scripts/SensoryDeprivation.cs:105-114 | sets Active and, when an effect is held, turns it and the audio pause on; only a begun module holds one |
| SensoryDeprivation.Handler.StopFilter | Assets/Scripts/SensoryDeprivation.cs:116-126 | clears Active, turns a held effect and the audio pause off, and acknowledges once; only a begun module holds one |
| SensoryDeprivation.Handler.OnDestroy | Assets/Scripts/SensoryDeprivation.cs:128-131 | destruction behaves exactly as RemoveModule |
| SensoryDeprivation.Handler.Quiesce | Assets/Scripts/SensoryDeprivation.cs:143-155 | a held effect and the audio pause go off, an acknowledgement is sent only mid-cycle, and StartFilter is swapped back for Pass once begun |
| SensoryDeprivation.Handler.TwitchHandleForcedSolve | Assets/Scripts/SensoryDeprivation.cs:140-157 | as written: leaves the queue and promotes the next module, switches off without releasing, acknowledges if active, and restores Pass if begun |
| SensoryDeprivation.Handler.TwitchHandleForcedSolveReleasing | Assets/Scripts/SensoryDeprivation.cs:140-157 | the same forced solve, which also releases the effect, so the module holds none afterwards |
| Scenarios.ArmExpireDeactivate | Assets/Scripts/SensoryDeprivation.cs:67-126 | a lone module is begun on activation and releases the effect on deactivation, leaving the queue empty; the effect and audio pause end off after two acknowledgements |
| Scenarios.ActivateThree | Assets/Scripts/SensoryDeprivation.cs:41-45 | three activations in order: the first is begun and holds the effect, the other two wait behind it in order |
| Scenarios.FirstComeFirstServed | Assets/Scripts/SensoryDeprivation.cs:47-52 | when the holder deactivates, the second module is begun and takes the effect, and the third keeps waiting |
| Scenarios.SkipComputation | Assets/Scripts/SensoryDeprivation.cs:27-52 | a waiting module's removal only clears its flag; the holder's removal then skips that slot and begins the one behind it |
| Scenarios.LazySkip | Assets/Scripts/SensoryDeprivation.cs:80-88 | a module that deactivated while waiting is never begun; the next module behind it is |
| Scenarios.ForcedSolveThenDeactivate | Assets/Scripts/SensoryDeprivation.cs:140-157 | as written: after a forced solve hands over the effect and the new holder arms, deactivating the solved module switches the shared effect and audio pause off during the new holder's cycle |
| Scenarios.ForcedSolveReleasingThenDeactivate | Assets/Scripts/SensoryDeprivation.cs:140-157 | with the releasing forced solve, the same events leave the new holder's effect and audio pause on |

## Left out

- Rendering: `MonochromeEffect.OnRenderImage`, `Graphics.Blit`, the shader and its material (lines 166-179) are not modelled. `RunEffect` is a boolean field of `Effect`.
- The camera lookup: `Camera.main.GetComponent`/`AddComponent` is modelled as the `Engine.cameraEffect` field. A missing main camera, which would throw, is not modelled.
- `AudioListener.pause` is the boolean `Engine.audioPaused`.
- Logging (`Log`, `Debug.LogFormat`, lines 54-58) has no effect on state and is left out.
- `ProcessTwitchCommand` and `TwitchHelpMessage` (lines 133-138) only reply with a fixed message and are left out.
- The host's delegate dispatch: subscriptions are counted per callback, so the order of handlers in a delegate list and the invocation of subscribers by the host are not modelled. Scenarios call the handlers directly.
- `HandlePass` is counted in `passes`; what the host does on it is not modelled.
- The coroutine form of `TwitchHandleForcedSolve` (`yield break`) is modelled as a method that runs to completion.
- The static queue and counter are objects shared through each handler's `queue` field and the constructor's counter argument. Several bombs in one process share them the same way.
- SensoryDeprivation.Handler.Start: does not model wrap-around of the 32-bit `s_lastModuleId`; the id is an unbounded `nat`.
- SensoryDeprivation.Handler.Begin: the shader assignment on a newly added component is left out with rendering.

## Findings

| source | as written | input that shows it | evidently intended | confidence | as-written member | corrected member |
|---|---|---|---|---|---|---|
| Assets/Scripts/SensoryDeprivation.cs:140-157 | a forced solve turns the effect off but keeps `_effect` and the `StopFilter` and `RemoveModule` subscriptions, so a later `RemoveModule` or `OnDestroy` of the solved module runs `StopFilter` on the shared camera effect | modules A, B, C activate in order; A arms; A is force-solved (B is begun); B arms; A is deactivated; the effect and the audio pause go off while B is active | a force-solved module lets go of the effect as `RemoveModule` does, so only the current holder switches it | not executed; low: needs the host to deactivate or destroy the solved module while another module's cycle is armed | Scenarios.ForcedSolveThenDeactivate | SensoryDeprivation.Handler.TwitchHandleForcedSolveReleasing, Scenarios.ForcedSolveReleasingThenDeactivate |
