/**
 * Whole bombs built from the model: several module instances sharing one
 * handler queue and one set of engine globals, driven through the event
 * sequences the game produces.
 */
module Scenarios {
  import opened SensoryDeprivation

  /** One module alone: it begins as soon as it is activated; the needy
      activation turns the effect and the audio pause on, the timer expiry
      turns them off and acknowledges, and the deactivation that follows
      stops the filter again, acknowledging a second time. */
  method ArmExpireDeactivate() returns (a: Handler, q: HandlerQueue, e: Engine)
    ensures a.queue == q && a.engine == e
    ensures q.entries == [] && !a.active && a.effect == null
    ensures e.cameraEffect != null && !e.cameraEffect.runEffect && !e.audioPaused
    ensures a.passes == 2
  {
    q := new HandlerQueue();
    e := new Engine();
    var ids := new ModuleCounter();
    a := new Handler.Start(q, e, ids);
    a.NewModule();
    assert q.entries == [ModuleData(a, true, true)];
    a.StartFilter();
    assert e.cameraEffect.runEffect && e.audioPaused;
    a.StopFilter();
    assert q.entries == [ModuleData(a, true, true)];
    assert MarkUnavailable(q.entries, a.id) == [ModuleData(a, false, true)];
    a.RemoveModule();
  }

  /** Three modules on one bomb, activated in order: the first begins at
      once and takes the camera's effect, the other two wait behind it. */
  method ActivateThree() returns (a: Handler, b: Handler, c: Handler, q: HandlerQueue, e: Engine)
    ensures fresh(a) && fresh(b) && fresh(c) && fresh(q) && fresh(e)
    ensures a.queue == q && b.queue == q && c.queue == q
    ensures a.engine == e && b.engine == e && c.engine == e
    ensures a.id < b.id < c.id
    ensures q.Valid() && a.Valid() && b.Valid() && c.Valid()
    ensures q.entries == [ModuleData(a, true, true), Fresh(b), Fresh(c)]
    ensures a.begun && a.effect != null && fresh(a.effect) && a.effect == e.cameraEffect
    ensures !a.active && !e.audioPaused
    ensures !b.begun && b.effect == null && !c.begun && c.effect == null
  {
    q := new HandlerQueue();
    e := new Engine();
    var ids := new ModuleCounter();
    a := new Handler.Start(q, e, ids);
    b := new Handler.Start(q, e, ids);
    c := new Handler.Start(q, e, ids);
    EnqueueWaits([], a);
    a.NewModule();
    EnqueueWaits(q.entries, b);
    b.NewModule();
    EnqueueWaits(q.entries, c);
    c.NewModule();
  }

  /** When the holder of three deactivates, the next in line begins and
      takes over the camera's effect, and the one after it keeps waiting. */
  method FirstComeFirstServed() returns (a: Handler, b: Handler, c: Handler, q: HandlerQueue)
    ensures a.begun && a.effect == null
    ensures b.begun && b.effect != null && b.effect == b.engine.cameraEffect
    ensures !c.begun && c.effect == null
    ensures q.entries == [ModuleData(b, true, true), Fresh(c)]
  {
    var e;
    a, b, c, q, e := ActivateThree();
    RemoveHolderNextWaiting(q.entries, a.id);
    a.RemoveModule();
  }

  /** The queue computations behind LazySkip: the waiting module's removal
      only clears its flag, and the holder's removal then skips that slot. */
  lemma SkipComputation(a: Handler, b: Handler, c: Handler)
    requires a.id < b.id < c.id
    ensures var q0 := [ModuleData(a, true, true), Fresh(b), Fresh(c)];
      var q1 := [ModuleData(a, true, true), ModuleData(b, false, false), Fresh(c)];
      MarkUnavailable(q0, b.id) == q1 && BeginTarget(q1) == null && Select(q1) == q1 &&
      BeginTarget(MarkUnavailable(q1, a.id)) == c &&
      Select(MarkUnavailable(q1, a.id)) == [ModuleData(c, true, true)]
  {
    var q1 := [ModuleData(a, true, true), ModuleData(b, false, false), Fresh(c)];
    assert Discarded(q1) == 0;
    var q2 := MarkUnavailable(q1, a.id);
    assert q2 == [ModuleData(a, false, true), ModuleData(b, false, false), Fresh(c)];
    assert Discarded(q2[2..]) == 0;
    assert Discarded(q2) == 2;
  }

  /** A waiting module that deactivates keeps its slot, flagged unavailable;
      when the holder later deactivates, that slot is skipped and the module
      behind it begins. */
  method LazySkip() returns (a: Handler, b: Handler, c: Handler, q: HandlerQueue)
    ensures !b.begun && b.effect == null
    ensures c.begun && c.effect != null && c.effect == c.engine.cameraEffect
    ensures q.entries == [ModuleData(c, true, true)]
  {
    var e;
    a, b, c, q, e := ActivateThree();
    SkipComputation(a, b, c);
    b.RemoveModule();
    a.RemoveModule();
  }

  /** The forced solve as written: the holder, mid-cycle, is force-solved
      and hands the effect to the next module, which then activates; when
      the force-solved module is deactivated afterwards it still holds the
      shared effect and switches it off, along with the audio pause, under
      the new holder's active cycle. */
  method ForcedSolveThenDeactivate() returns (b: Handler, e: Engine)
    ensures b.active && b.begun && b.effect != null && b.effect == e.cameraEffect
    ensures !b.effect.runEffect && !e.audioPaused
  {
    var a, c, q;
    a, b, c, q, e := ActivateThree();
    a.StartFilter();
    RemoveHolderNextWaiting(q.entries, a.id);
    a.TwitchHandleForcedSolve();
    b.StartFilter();
    MarkUnavailableNoMatch(q.entries, a.id);
    a.RemoveModule();
  }

  /** The same events with the forced solve that lets go of the effect: the
      later deactivation of the force-solved module leaves the shared effect
      and the audio pause running for the new holder. */
  method ForcedSolveReleasingThenDeactivate() returns (b: Handler, e: Engine)
    ensures b.active && b.begun && b.effect != null && b.effect == e.cameraEffect
    ensures b.effect.runEffect && e.audioPaused
  {
    var a, c, q;
    a, b, c, q, e := ActivateThree();
    a.StartFilter();
    RemoveHolderNextWaiting(q.entries, a.id);
    a.TwitchHandleForcedSolveReleasing();
    b.StartFilter();
    MarkUnavailableNoMatch(q.entries, a.id);
    a.RemoveModule();
  }
}
