/*
 * A model of the needy module "Sensory Deprivation": a process-wide FIFO
 * admission queue decides which module instance may own the one shared
 * monochrome screen effect, and every instance runs a small state machine
 * over the host's events on top of it.
 *
 * The queue (the static handler queue and FindNext / AddToQueue /
 * RemoveFromQueue) is the class HandlerQueue; it is specified by the pure
 * functions DropUnavailable, Select, Holder, BeginTarget and MarkUnavailable
 * on sequences of ModuleData.  One module instance is the class Handler.
 */
module SensoryDeprivation {

  /** How many times each event handler of a module instance is subscribed
      to its host event (a delegate list may hold one handler more than
      once): NewModule to OnActivate, RemoveModule to OnNeedyDeactivation,
      Pass and StartFilter to OnNeedyActivation, StopFilter to
      OnTimerExpired. */
  datatype Subscriptions = Subscriptions(
    newModule: nat, removeModule: nat, pass: nat, startFilter: nat, stopFilter: nat)

  /** Removing a handler from a delegate list drops one occurrence, and does
      nothing when it is not there. */
  function Unsubscribe(n: nat): nat
  {
    if n == 0 then 0 else n - 1
  }

  /** One slot of the handler queue: the module, and its two flags. */
  datatype ModuleData = ModuleData(handler: Handler, available: bool, active: bool)

  /** The slot that AddToQueue appends for a newly registered module. */
  function Fresh(m: Handler): ModuleData
  {
    ModuleData(m, true, false)
  }

  // ---------------------------------------------------------------------
  // Selection, as functions on the queue's contents
  // ---------------------------------------------------------------------

  /** How many slots the front-dequeuing loop of FindNext discards: the
      length of the queue's leading run of unavailable slots. */
  function Discarded(q: seq<ModuleData>): (k: nat)
    ensures k <= |q|
    ensures k < |q| ==> q[k].available
    ensures forall i :: 0 <= i < k ==> !q[i].available
  {
    if q != [] && !q[0].available then 1 + Discarded(q[1..]) else 0
  }

  /** The queue once the front-dequeuing loop of FindNext has run. */
  function DropUnavailable(q: seq<ModuleData>): seq<ModuleData>
  {
    q[Discarded(q)..]
  }

  /** Only the front slot may carry the Active flag. */
  ghost predicate OnlyFrontActive(q: seq<ModuleData>)
  {
    forall i :: 0 < i < |q| ==> !q[i].active
  }

  /** The state every queue operation leaves: empty, or its front slot is
      available and has been begun. */
  ghost predicate Settled(q: seq<ModuleData>)
  {
    q == [] || (q[0].available && q[0].active)
  }

  /** The queue after FindNext: unavailable front slots discarded, and the
      new front (if any) marked Active. */
  function Select(q: seq<ModuleData>): (r: seq<ModuleData>)
    ensures |r| == |q| - Discarded(q)
    ensures r == [] <==> forall i :: 0 <= i < |q| ==> !q[i].available
    ensures OnlyFrontActive(q) ==> Settled(r) && OnlyFrontActive(r)
  {
    var k := Discarded(q);
    if k == |q| then [] else [q[k].(active := true)] + q[k + 1..]
  }

  /** The module FindNext returns: the first available slot's module, or null. */
  function Holder(q: seq<ModuleData>): Handler?
  {
    var k := Discarded(q);
    if k == |q| then null else q[k].handler
  }

  /** The module on which FindNext calls Begin: the first available slot's
      module when that slot is not Active yet, otherwise null. */
  function BeginTarget(q: seq<ModuleData>): Handler?
  {
    var k := Discarded(q);
    if k < |q| && !q[k].active then q[k].handler else null
  }

  /** The objects the Begin call inside FindNext may change. */
  function BeginFrame(q: seq<ModuleData>): set<object>
  {
    var t := BeginTarget(q);
    if t == null then {} else {t, t.engine}
  }

  /** One slot after RemoveFromQueue's foreach: it loses its Available flag
      when its module has the given id. */
  function MarkOne(d: ModuleData, id: nat): ModuleData
  {
    d.(available := d.available && d.handler.id != id)
  }

  /** The foreach of RemoveFromQueue: every slot whose module has the given
      id loses its Available flag; nothing else changes. */
  function MarkUnavailable(q: seq<ModuleData>, id: nat): (r: seq<ModuleData>)
    ensures |r| == |q|
    ensures forall i :: 0 <= i < |q| ==> r[i] == MarkOne(q[i], id)
  {
    if q == [] then [] else [MarkOne(q[0], id)] + MarkUnavailable(q[1..], id)
  }

  /** The number of slots carrying the Active flag. */
  function ActiveCount(q: seq<ModuleData>): nat
  {
    if q == [] then 0 else (if q[0].active then 1 else 0) + ActiveCount(q[1..])
  }

  // ---------------------------------------------------------------------
  // Properties of selection
  // ---------------------------------------------------------------------

  /** Single holder: when only the front may be Active, at most one slot is. */
  lemma {:induction false} AtMostOneActive(q: seq<ModuleData>)
    requires OnlyFrontActive(q)
    ensures ActiveCount(q) <= 1
  {
    if q != [] {
      NoneActive(q[1..]);
    }
  }

  lemma {:induction false} NoneActive(q: seq<ModuleData>)
    requires forall i :: 0 <= i < |q| ==> !q[i].active
    ensures ActiveCount(q) == 0
  {
    if q != [] {
      NoneActive(q[1..]);
    }
  }

  /** Selection never reorders: the slots that survive it are the queue's
      slots from the first available one on, in the same order and with the
      same modules and Available flags; only the front's Active flag is set. */
  lemma {:induction false} SelectKeepsOrder(q: seq<ModuleData>)
    ensures var k := Discarded(q); var r := Select(q);
      forall i :: 0 <= i < |r| ==>
        r[i].handler == q[k + i].handler && r[i].available == q[k + i].available &&
        r[i].active == (i == 0 || q[k + i].active)
  {
  }

  /** Running selection again on its own result changes nothing and calls
      Begin on nobody. */
  lemma {:induction false} SelectIdempotent(q: seq<ModuleData>)
    ensures Select(Select(q)) == Select(q)
    ensures BeginTarget(Select(q)) == null
    ensures Holder(Select(q)) == Holder(q)
  {
    var s := Select(q);
    if s != [] {
      assert Discarded(s) == 0;
      assert s == [s[0]] + s[1..];
    }
  }

  /** Selection in terms of what the front-dequeuing loop leaves: nothing,
      or a front slot that is available and is begun unless already Active. */
  lemma {:induction false} SelectAfterDrop(q: seq<ModuleData>)
    ensures var e := DropUnavailable(q);
      (e == [] ==> Select(q) == [] && Holder(q) == null && BeginTarget(q) == null) &&
      (e != [] ==> e[0].available && Holder(q) == e[0].handler &&
                   BeginTarget(q) == (if e[0].active then null else e[0].handler) &&
                   Select(q) == [e[0].(active := true)] + e[1..])
  {
    var k := Discarded(q);
    if k < |q| {
      assert DropUnavailable(q)[0] == q[k];
      assert DropUnavailable(q)[1..] == q[k + 1..];
    }
  }

  /** Appending a slot does not move the first available slot; when there
      is none before it, the new slot decides. */
  lemma {:induction false} DiscardedAppend(q: seq<ModuleData>, d: ModuleData)
    ensures Discarded(q) < |q| ==> Discarded(q + [d]) == Discarded(q)
    ensures Discarded(q) == |q| ==> Discarded(q + [d]) == |q| + (if d.available then 0 else 1)
  {
    if q == [] {
      assert q + [d] == [d];
      assert Discarded([d]) == (if d.available then 0 else 1 + Discarded([d][1..]));
    } else if !q[0].available {
      assert (q + [d])[1..] == q[1..] + [d];
      DiscardedAppend(q[1..], d);
    } else {
      assert (q + [d])[0] == q[0];
    }
  }

  /** No pre-emption: a module that registers while an earlier slot is
      available neither takes the front nor gets begun; with no available
      slot before it, it takes the front and is begun at once. */
  lemma {:induction false} EnqueueFront(q: seq<ModuleData>, m: Handler)
    ensures Discarded(q) < |q| ==>
      Holder(q + [Fresh(m)]) == Holder(q) && BeginTarget(q + [Fresh(m)]) == BeginTarget(q)
    ensures Discarded(q) == |q| ==>
      Holder(q + [Fresh(m)]) == m && BeginTarget(q + [Fresh(m)]) == m
  {
    var d := Fresh(m);
    DiscardedAppend(q, d);
    var k := Discarded(q);
    if k < |q| {
      assert (q + [d])[k] == q[k];
    } else {
      assert (q + [d])[k] == d;
    }
  }

  /** AddToQueue(m) reports true exactly when m ends up at the front, which
      for a module not queued before means that every earlier slot was
      unavailable. */
  lemma {:induction false} AddToQueueResult(q: seq<ModuleData>, m: Handler)
    requires forall i :: 0 <= i < |q| ==> q[i].handler != m
    ensures Holder(q + [Fresh(m)]) == m <==> forall i :: 0 <= i < |q| ==> !q[i].available
  {
    EnqueueFront(q, m);
  }

  /** On a settled queue the new slot is begun exactly when the queue was
      empty; otherwise the holder stays. */
  lemma {:induction false} EnqueueSettled(q: seq<ModuleData>, m: Handler)
    requires Settled(q)
    ensures BeginTarget(q + [Fresh(m)]) == (if q == [] then m else null)
    ensures Holder(q + [Fresh(m)]) == (if q == [] then m else q[0].handler)
  {
    EnqueueFront(q, m);
    if q != [] {
      assert Discarded(q) == 0;
    }
  }

  /** What a registration does to a settled queue: a module joining an empty
      queue becomes its Active front; otherwise it waits at the back and
      the queue keeps everything it had. */
  lemma {:induction false} EnqueueWaits(q: seq<ModuleData>, m: Handler)
    requires Settled(q)
    ensures Select(q + [Fresh(m)]) == if q == [] then [ModuleData(m, true, true)] else q + [Fresh(m)]
  {
    var r := q + [Fresh(m)];
    DiscardedAppend(q, Fresh(m));
    if q == [] {
      assert Discarded(r) == 0;
    } else {
      assert Discarded(r) == 0 && r[0] == q[0];
      assert [r[0].(active := true)] + r[1..] == r;
    }
  }

  /** Removing a module that has no slot leaves the queue's flags as they are. */
  lemma {:induction false} MarkUnavailableNoMatch(q: seq<ModuleData>, id: nat)
    requires forall i :: 0 <= i < |q| ==> q[i].handler.id != id
    ensures MarkUnavailable(q, id) == q
  {
    if q != [] {
      MarkUnavailableNoMatch(q[1..], id);
      assert q == [q[0]] + q[1..];
    }
  }

  /** The module begun, and the holder chosen, by a removal never is the
      removed one. */
  lemma {:induction false} RemovedNotBegun(q: seq<ModuleData>, id: nat)
    ensures BeginTarget(MarkUnavailable(q, id)) != null ==> BeginTarget(MarkUnavailable(q, id)).id != id
    ensures Holder(MarkUnavailable(q, id)) != null ==> Holder(MarkUnavailable(q, id)).id != id
  {
    var r := MarkUnavailable(q, id);
    var k := Discarded(r);
    if k < |r| {
      assert r[k].available;
    }
  }

  /** Handoff: removing the holder of a settled queue passes the effect to
      the first later slot that is available and belongs to another module,
      whose Begin runs within the same call; with no such slot nobody holds
      it afterwards. */
  lemma {:induction false} RemoveHolderPromotes(q: seq<ModuleData>, id: nat)
    requires Settled(q) && OnlyFrontActive(q)
    requires q != [] && q[0].handler.id == id
    ensures var k := Discarded(MarkUnavailable(q, id));
      0 < k &&
      (forall i :: 0 < i < k ==> !q[i].available || q[i].handler.id == id) &&
      (k == |q| ==> BeginTarget(MarkUnavailable(q, id)) == null && Holder(MarkUnavailable(q, id)) == null) &&
      (k < |q| ==> q[k].available && q[k].handler.id != id &&
                   BeginTarget(MarkUnavailable(q, id)) == q[k].handler)
  {
    var r := MarkUnavailable(q, id);
    var k := Discarded(r);
    assert !r[0].available;
    forall i | 0 < i < k
      ensures !q[i].available || q[i].handler.id == id
    {
      assert !r[i].available;
    }
    if k < |q| {
      assert r[k].available && !r[k].active;
    }
  }

  /** Handoff to the next slot: when the holder's module is removed and the
      slot behind it is available and every later slot belongs to other
      modules, only the holder's flag changes, the next slot's module is
      begun and becomes the Active front, and the rest keep waiting. */
  lemma {:induction false} RemoveHolderNextWaiting(q: seq<ModuleData>, id: nat)
    requires Settled(q) && OnlyFrontActive(q)
    requires |q| >= 2 && q[0].handler.id == id && q[1].available
    requires forall i :: 0 < i < |q| ==> q[i].handler.id != id
    ensures MarkUnavailable(q, id) == [q[0].(available := false)] + q[1..]
    ensures BeginTarget(MarkUnavailable(q, id)) == q[1].handler
    ensures Select(MarkUnavailable(q, id)) == [q[1].(active := true)] + q[2..]
  {
    var r := MarkUnavailable(q, id);
    MarkUnavailableNoMatch(q[1..], id);
    assert r == [q[0].(available := false)] + q[1..];
    assert Discarded(r[1..]) == 0;
    assert Discarded(r) == 1;
    assert r[2..] == q[2..];
  }

  // ---------------------------------------------------------------------
  // Ghost bookkeeping of Begin calls
  // ---------------------------------------------------------------------
  //
  // Slots leave the queue only at the front and join it only at the back,
  // so numbering them in order of arrival, the slot at index i of the queue
  // has number dequeued + i, where dequeued counts the slots discarded so
  // far.  The log lists the numbers of the slots Begin was called for.

  /** Each number in the log is larger than the one before it. */
  ghost predicate Increasing(log: seq<nat>)
  {
    forall i :: 0 < i < |log| ==> log[i - 1] < log[i]
  }

  /** The log records one Begin per Active slot: the front slot is Active
      exactly when the last number logged is its own, every other logged
      slot has left the queue, and only the front slot may be Active. */
  ghost predicate Bookkept(q: seq<ModuleData>, dequeued: nat, log: seq<nat>)
  {
    Increasing(log) &&
    OnlyFrontActive(q) &&
    (q != [] && q[0].active ==> log != [] && log[|log| - 1] == dequeued) &&
    (!(q != [] && q[0].active) ==> forall i :: 0 <= i < |log| ==> log[i] < dequeued)
  }

  /** An increasing log holds no number twice: Begin ran at most once for
      each slot. */
  lemma {:induction false} IncreasingDistinct(log: seq<nat>)
    requires Increasing(log)
    ensures forall i, j :: 0 <= i < j < |log| ==> log[i] < log[j]
  {
    if |log| > 1 {
      var init := log[..|log| - 1];
      IncreasingDistinct(init);
      forall i, j | 0 <= i < j < |log|
        ensures log[i] < log[j]
      {
        if j < |log| - 1 {
          assert log[i] == init[i] && log[j] == init[j];
        } else if i < j - 1 {
          assert log[i] == init[i] && log[j - 1] == init[j - 1];
        }
      }
    }
  }

  /** Discarding the front slot keeps the bookkeeping. */
  lemma {:induction false} BookkeptDropFront(q: seq<ModuleData>, dequeued: nat, log: seq<nat>)
    requires Bookkept(q, dequeued, log) && q != []
    ensures Bookkept(q[1..], dequeued + 1, log)
  {
    if q[0].active {
      IncreasingDistinct(log);
    }
  }

  /** Beginning a front slot that is not Active logs its number. */
  lemma {:induction false} BookkeptBegin(q: seq<ModuleData>, dequeued: nat, log: seq<nat>)
    requires Bookkept(q, dequeued, log) && q != [] && !q[0].active
    ensures Bookkept([q[0].(active := true)] + q[1..], dequeued, log + [dequeued])
  {
  }

  /** Appending a slot that is not Active keeps the bookkeeping. */
  lemma {:induction false} BookkeptEnqueue(q: seq<ModuleData>, dequeued: nat, log: seq<nat>, d: ModuleData)
    requires Bookkept(q, dequeued, log) && !d.active
    ensures Bookkept(q + [d], dequeued, log)
  {
  }

  /** Clearing Available flags keeps the bookkeeping. */
  lemma {:induction false} BookkeptMark(q: seq<ModuleData>, dequeued: nat, log: seq<nat>, id: nat)
    requires Bookkept(q, dequeued, log)
    ensures Bookkept(MarkUnavailable(q, id), dequeued, log)
  {
  }

  // ---------------------------------------------------------------------
  // Engine globals and the shared effect
  // ---------------------------------------------------------------------

  /** The monochrome effect component on the main camera. */
  class Effect {
    var runEffect: bool

    constructor ()
      ensures !runEffect
    {
      runEffect := false;
    }
  }

  /** The engine globals the module touches: the main camera's effect
      component (if one has been added) and the global audio pause flag. */
  class Engine {
    var cameraEffect: Effect?
    var audioPaused: bool

    constructor ()
      ensures cameraEffect == null && !audioPaused
    {
      cameraEffect := null;
      audioPaused := false;
    }
  }

  /** The static counter module ids are drawn from. */
  class ModuleCounter {
    var last: nat

    constructor ()
      ensures last == 0
    {
      last := 0;
    }
  }

  // ---------------------------------------------------------------------
  // The handler queue
  // ---------------------------------------------------------------------

  class HandlerQueue {
    var entries: seq<ModuleData>
    /** Ghost: how many slots have been discarded from the front, and the
        numbers of the slots Begin was called for, in call order. */
    ghost var dequeued: nat
    ghost var log: seq<nat>

    /** The invariant that holds between any two steps of the queue. */
    ghost predicate Consistent()
      reads this
    {
      Bookkept(entries, dequeued, log)
    }

    /** The invariant between two public operations. */
    ghost predicate Valid()
      reads this
    {
      Consistent() && Settled(entries)
    }

    constructor ()
      ensures Valid() && entries == [] && dequeued == 0 && log == []
    {
      entries := [];
      dequeued := 0;
      log := [];
    }

    /** Selection: discard unavailable slots from the front, then begin the
        front module if its slot is not Active yet. */
    method FindNext() returns (holder: Handler?)
      requires Consistent()
      modifies this, BeginFrame(entries)
      ensures Valid()
      ensures entries == Select(old(entries))
      ensures holder == Holder(old(entries))
      ensures dequeued == old(dequeued) + |old(entries)| - |entries|
      ensures var t := BeginTarget(old(entries));
        (t == null ==> log == old(log)) &&
        (t != null ==> log == old(log) + [dequeued] && t.BeganFrom() && t.Valid())
    {
      SelectAfterDrop(entries);
      while entries != [] && !entries[0].available
        invariant Consistent() && log == old(log)
        invariant dequeued == old(dequeued) + |old(entries)| - |entries|
        invariant DropUnavailable(entries) == DropUnavailable(old(entries))
        modifies this
        decreases |entries|
      {
        BookkeptDropFront(entries, dequeued, log);
        entries := entries[1..];
        dequeued := dequeued + 1;
      }
      assert entries == DropUnavailable(old(entries));
      if entries == [] {
        return null;
      }
      if !entries[0].active {
        BookkeptBegin(entries, dequeued, log);
        entries[0].handler.Begin();
        log := log + [dequeued];
        entries := [entries[0].(active := true)] + entries[1..];
      }
      holder := entries[0].handler;
    }

    /** Appends a fresh slot for m and runs selection; true when m is the
        holder afterwards. */
    method AddToQueue(m: Handler) returns (r: bool)
      requires Valid()
      modifies this, BeginFrame(entries + [Fresh(m)])
      ensures Valid()
      ensures entries == Select(old(entries) + [Fresh(m)])
      ensures r <==> old(entries) == [] || old(entries)[0].handler == m
      ensures var t := BeginTarget(old(entries) + [Fresh(m)]);
        t == (if old(entries) == [] then m else null) &&
        (t == null ==> log == old(log)) &&
        (t != null ==> log == old(log) + [dequeued] && t.BeganFrom() && t.Valid())
    {
      EnqueueSettled(entries, m);
      BookkeptEnqueue(entries, dequeued, log, Fresh(m));
      entries := entries + [Fresh(m)];
      var next := FindNext();
      r := next == m;
    }

    /** The foreach of RemoveFromQueue: clears the Available flag of every
        slot whose module has the given id, in place. */
    method MarkUnavailableInPlace(id: nat)
      requires Valid()
      modifies this
      ensures Consistent()
      ensures entries == MarkUnavailable(old(entries), id)
      ensures dequeued == old(dequeued) && log == old(log)
    {
      BookkeptMark(entries, dequeued, log, id);
      ghost var marked := MarkUnavailable(entries, id);
      var i := 0;
      while i < |entries|
        invariant 0 <= i <= |entries| == |marked|
        invariant forall j :: 0 <= j < i ==> entries[j] == marked[j]
        invariant forall j :: i <= j < |entries| ==> entries[j] == old(entries)[j]
        invariant dequeued == old(dequeued) && log == old(log)
      {
        if entries[i].handler.id == id {
          entries := entries[i := entries[i].(available := false)];
        }
        i := i + 1;
      }
      assert entries == marked;
    }

    /** Marks every slot of m's id unavailable, then runs selection. */
    method RemoveFromQueue(m: Handler)
      requires Valid()
      modifies this, BeginFrame(MarkUnavailable(entries, m.id))
      ensures Valid()
      ensures entries == Select(MarkUnavailable(old(entries), m.id))
      ensures var t := BeginTarget(MarkUnavailable(old(entries), m.id));
        (t == null ==> log == old(log)) &&
        (t != null ==> log == old(log) + [dequeued] && t.id != m.id && t.BeganFrom() && t.Valid())
    {
      ghost var marked := MarkUnavailable(entries, m.id);
      RemovedNotBegun(entries, m.id);
      MarkUnavailableInPlace(m.id);
      assert entries == marked;
      ghost var t := BeginTarget(marked);
      assert t != null ==> t.id != m.id && unchanged(t, t.engine);
      var _ := FindNext();
    }
  }

  // ---------------------------------------------------------------------
  // One module instance
  // ---------------------------------------------------------------------

  class Handler {
    const id: nat
    /** The static handler queue and the engine globals, shared by all. */
    const queue: HandlerQueue
    const engine: Engine
    var effect: Effect?
    var active: bool
    var begun: bool
    /** The host needy module's event subscriptions and how many times it
        has been told HandlePass. */
    var subs: Subscriptions
    var passes: nat

    /** The effect is held, and the filter callbacks subscribed, only by a
        module the queue has begun. */
    ghost predicate Valid()
      reads this
    {
      (effect != null || subs.startFilter > 0 || subs.stopFilter > 0) ==> begun
    }

    /** What Begin does to this module's own state, between two states:
        begun, holding an effect, Pass swapped for StartFilter and StopFilter
        subscribed to the timer; nothing else. */
    twostate predicate Granted()
      reads this
    {
      begun && effect != null &&
      subs == old(subs).(pass := Unsubscribe(old(subs).pass),
                         startFilter := old(subs).startFilter + 1,
                         stopFilter := old(subs).stopFilter + 1) &&
      active == old(active) && passes == old(passes)
    }

    /** Everything Begin does: Granted, with the effect being the main
        camera's component, which is only added when there was none. */
    twostate predicate BeganFrom()
      reads this, engine
    {
      Granted() && effect == engine.cameraEffect &&
      engine.audioPaused == old(engine.audioPaused) &&
      (old(engine.cameraEffect) != null ==> engine.cameraEffect == old(engine.cameraEffect)) &&
      (old(engine.cameraEffect) == null ==> fresh(effect))
    }

    /** Start: draw the next module id and subscribe to activation and
        deactivation. */
    constructor Start(queue: HandlerQueue, engine: Engine, ids: ModuleCounter)
      modifies ids
      ensures ids.last == old(ids.last) + 1 && id == ids.last
      ensures this.queue == queue && this.engine == engine
      ensures effect == null && !active && !begun && passes == 0
      ensures subs == Subscriptions(1, 1, 0, 0, 0)
      ensures Valid()
    {
      ids.last := ids.last + 1;
      id := ids.last;
      this.queue := queue;
      this.engine := engine;
      effect := null;
      active, begun := false, false;
      subs := Subscriptions(0, 0, 0, 0, 0);
      passes := 0;
      new;
      subs := subs.(newModule := subs.newModule + 1);
      subs := subs.(removeModule := subs.removeModule + 1);
    }

    /** Activation: subscribe Pass, then join the queue, which begins this
        module at once when nobody holds the effect. */
    method NewModule()
      requires Valid() && queue.Valid()
      modifies this, queue, engine
      ensures Valid() && queue.Valid()
      ensures queue.entries == Select(old(queue.entries) + [Fresh(this)])
      ensures old(queue.entries) == [] ==>
        begun && effect != null && effect == engine.cameraEffect &&
        subs == old(subs).(startFilter := old(subs).startFilter + 1,
                           stopFilter := old(subs).stopFilter + 1) &&
        engine.audioPaused == old(engine.audioPaused) &&
        (old(engine.cameraEffect) != null ==> engine.cameraEffect == old(engine.cameraEffect)) &&
        (old(engine.cameraEffect) == null ==> fresh(effect))
      ensures old(queue.entries) != [] ==>
        subs == old(subs).(pass := old(subs).pass + 1) &&
        begun == old(begun) && effect == old(effect) && unchanged(engine)
      ensures active == old(active) && passes == old(passes)
    {
      subs := subs.(pass := subs.pass + 1);
      EnqueueSettled(queue.entries, this);
      var first := queue.AddToQueue(this);
    }

    /** The pass-through handler: acknowledge without doing anything. */
    method Pass()
      modifies this
      ensures passes == old(passes) + 1
      ensures effect == old(effect) && active == old(active) && begun == old(begun)
      ensures subs == old(subs)
    {
      passes := passes + 1;
    }

    /** Leave the queue, which hands the effect on to the next waiting
        module; this module's own state is left alone. */
    method Withdraw()
      requires queue.Valid()
      modifies queue, BeginFrame(MarkUnavailable(queue.entries, id))
      ensures queue.Valid()
      ensures queue.entries == Select(MarkUnavailable(old(queue.entries), id))
      ensures var t := BeginTarget(MarkUnavailable(old(queue.entries), id));
        t != null ==> t != this && t.Granted() && t.effect == t.engine.cameraEffect
      ensures unchanged(this)
      ensures engine.audioPaused == old(engine.audioPaused)
      ensures old(engine.cameraEffect) != null ==> engine.cameraEffect == old(engine.cameraEffect)
      ensures var t := BeginTarget(MarkUnavailable(old(queue.entries), id));
        engine.cameraEffect == old(engine.cameraEffect) ||
        (t != null && t.engine == engine && engine.cameraEffect == t.effect)
    {
      RemovedNotBegun(queue.entries, id);
      queue.RemoveFromQueue(this);
    }

    /** Deactivation: leave the queue (handing the effect on) and, if an
        effect is held, stop it and let go of it. */
    method RemoveModule()
      requires Valid() && queue.Valid()
      modifies this, queue, engine, effect, BeginFrame(MarkUnavailable(queue.entries, id))
      ensures Valid() && queue.Valid()
      ensures queue.entries == Select(MarkUnavailable(old(queue.entries), id))
      ensures var t := BeginTarget(MarkUnavailable(old(queue.entries), id));
        t != null ==> t != this && t.Granted() && t.effect == t.engine.cameraEffect
      ensures old(engine.cameraEffect) != null ==> engine.cameraEffect == old(engine.cameraEffect)
      ensures var t := BeginTarget(MarkUnavailable(old(queue.entries), id));
        engine.cameraEffect == old(engine.cameraEffect) ||
        (t != null && t.engine == engine && engine.cameraEffect == t.effect)
      ensures effect == null && begun == old(begun) && subs == old(subs)
      ensures old(effect) != null ==>
        !old(effect).runEffect && !engine.audioPaused && !active && passes == old(passes) + 1
      ensures old(effect) == null ==>
        active == old(active) && passes == old(passes) && engine.audioPaused == old(engine.audioPaused)
    {
      ghost var t := BeginTarget(MarkUnavailable(queue.entries, id));
      Withdraw();
      label Promoted:
      if effect != null {
        StopFilter();
        effect := null;
      }
      assert t != null ==> t != this && unchanged@Promoted(t);
    }

    /** Granted by the queue: swap Pass for the filter callbacks and take the
        camera's effect component, adding one if there is none. */
    method Begin()
      modifies this, engine
      ensures BeganFrom() && Valid()
      ensures old(engine.cameraEffect) == null ==> !effect.runEffect
    {
      begun := true;
      subs := subs.(pass := Unsubscribe(subs.pass));
      effect := engine.cameraEffect;
      if effect == null {
        effect := new Effect();
        engine.cameraEffect := effect;
      }
      subs := subs.(startFilter := subs.startFilter + 1);
      subs := subs.(stopFilter := subs.stopFilter + 1);
    }

    /** Needy activation after Begin: turn the effect and the audio pause on. */
    method StartFilter()
      requires Valid()
      modifies this, effect, engine
      ensures Valid()
      ensures effect != null ==> begun
      ensures active && effect == old(effect)
      ensures effect != null ==> effect.runEffect && engine.audioPaused
      ensures effect == null ==> engine.audioPaused == old(engine.audioPaused)
      ensures engine.cameraEffect == old(engine.cameraEffect)
      ensures passes == old(passes) && begun == old(begun) && subs == old(subs)
    {
      active := true;
      if effect != null {
        effect.runEffect := true;
        engine.audioPaused := true;
      }
    }

    /** Timer expiry after Begin: turn the effect and the audio pause off and
        acknowledge once. */
    method StopFilter()
      requires Valid()
      modifies this, effect, engine
      ensures Valid()
      ensures effect != null ==> begun
      ensures !active && effect == old(effect) && passes == old(passes) + 1
      ensures effect != null ==> !effect.runEffect && !engine.audioPaused
      ensures effect == null ==> engine.audioPaused == old(engine.audioPaused)
      ensures engine.cameraEffect == old(engine.cameraEffect)
      ensures begun == old(begun) && subs == old(subs)
    {
      active := false;
      if effect != null {
        effect.runEffect := false;
        engine.audioPaused := false;
      }
      passes := passes + 1;
    }

    /** Destruction runs the deactivation handler. */
    method OnDestroy()
      requires Valid() && queue.Valid()
      modifies this, queue, engine, effect, BeginFrame(MarkUnavailable(queue.entries, id))
      ensures Valid() && queue.Valid()
      ensures queue.entries == Select(MarkUnavailable(old(queue.entries), id))
      ensures var t := BeginTarget(MarkUnavailable(old(queue.entries), id));
        t != null ==> t != this && t.Granted() && t.effect == t.engine.cameraEffect
      ensures old(engine.cameraEffect) != null ==> engine.cameraEffect == old(engine.cameraEffect)
      ensures var t := BeginTarget(MarkUnavailable(old(queue.entries), id));
        engine.cameraEffect == old(engine.cameraEffect) ||
        (t != null && t.engine == engine && engine.cameraEffect == t.effect)
      ensures effect == null && begun == old(begun) && subs == old(subs)
      ensures old(effect) != null ==>
        !old(effect).runEffect && !engine.audioPaused && !active && passes == old(passes) + 1
      ensures old(effect) == null ==>
        active == old(active) && passes == old(passes) && engine.audioPaused == old(engine.audioPaused)
    {
      RemoveModule();
    }

    /** The forced solve's own part once the queue is left: switch the
        effect and the audio pause off, acknowledge if mid-cycle, and swap
        StartFilter back for Pass once begun. */
    method Quiesce()
      requires Valid()
      modifies this, effect, engine
      ensures Valid()
      ensures effect == old(effect) && active == old(active) && begun == old(begun)
      ensures effect != null ==> !effect.runEffect && !engine.audioPaused
      ensures effect == null ==> engine.audioPaused == old(engine.audioPaused)
      ensures engine.cameraEffect == old(engine.cameraEffect)
      ensures passes == old(passes) + (if active then 1 else 0)
      ensures subs == if begun
        then old(subs).(startFilter := Unsubscribe(old(subs).startFilter), pass := old(subs).pass + 1)
        else old(subs)
    {
      if effect != null {
        effect.runEffect := false;
        engine.audioPaused := false;
      }
      if active {
        passes := passes + 1;
      }
      if begun {
        subs := subs.(startFilter := Unsubscribe(subs.startFilter));
        subs := subs.(pass := subs.pass + 1);
      }
    }

    /** Forced solve, as the source has it: leave the queue (handing the
        effect on), turn the effect off, acknowledge only when mid-cycle, and
        put Pass back in place of StartFilter once begun.  The effect stays
        referenced (see TwitchHandleForcedSolveReleasing). */
    method TwitchHandleForcedSolve()
      requires Valid() && queue.Valid()
      modifies this, queue, engine, effect, BeginFrame(MarkUnavailable(queue.entries, id))
      ensures Valid() && queue.Valid()
      ensures queue.entries == Select(MarkUnavailable(old(queue.entries), id))
      ensures var t := BeginTarget(MarkUnavailable(old(queue.entries), id));
        t != null ==> t != this && t.Granted() && t.effect == t.engine.cameraEffect
      ensures old(engine.cameraEffect) != null ==> engine.cameraEffect == old(engine.cameraEffect)
      ensures var t := BeginTarget(MarkUnavailable(old(queue.entries), id));
        engine.cameraEffect == old(engine.cameraEffect) ||
        (t != null && t.engine == engine && engine.cameraEffect == t.effect)
      ensures effect == old(effect) && active == old(active) && begun == old(begun)
      ensures effect != null ==> !effect.runEffect && !engine.audioPaused
      ensures effect == null ==> engine.audioPaused == old(engine.audioPaused)
      ensures passes == old(passes) + (if active then 1 else 0)
      ensures subs == if begun
        then old(subs).(startFilter := Unsubscribe(old(subs).startFilter), pass := old(subs).pass + 1)
        else old(subs)
    {
      ghost var t := BeginTarget(MarkUnavailable(queue.entries, id));
      Withdraw();
      label Promoted:
      Quiesce();
      assert t != null ==> t != this && unchanged@Promoted(t);
    }

    /** Forced solve that also lets go of the effect, as RemoveModule does:
        afterwards the module holds no effect, so none of its later handlers
        (RemoveModule, OnDestroy, StopFilter) can touch the shared one. */
    method TwitchHandleForcedSolveReleasing()
      requires Valid() && queue.Valid()
      modifies this, queue, engine, effect, BeginFrame(MarkUnavailable(queue.entries, id))
      ensures Valid() && queue.Valid()
      ensures queue.entries == Select(MarkUnavailable(old(queue.entries), id))
      ensures var t := BeginTarget(MarkUnavailable(old(queue.entries), id));
        t != null ==> t != this && t.Granted() && t.effect == t.engine.cameraEffect
      ensures old(engine.cameraEffect) != null ==> engine.cameraEffect == old(engine.cameraEffect)
      ensures var t := BeginTarget(MarkUnavailable(old(queue.entries), id));
        engine.cameraEffect == old(engine.cameraEffect) ||
        (t != null && t.engine == engine && engine.cameraEffect == t.effect)
      ensures effect == null && active == old(active) && begun == old(begun)
      ensures old(effect) != null ==> !old(effect).runEffect && !engine.audioPaused
      ensures old(effect) == null ==> engine.audioPaused == old(engine.audioPaused)
      ensures passes == old(passes) + (if active then 1 else 0)
      ensures subs == if begun
        then old(subs).(startFilter := Unsubscribe(old(subs).startFilter), pass := old(subs).pass + 1)
        else old(subs)
    {
      ghost var t := BeginTarget(MarkUnavailable(queue.entries, id));
      Withdraw();
      label Promoted:
      Quiesce();
      effect := null;
      assert t != null ==> t != this && unchanged@Promoted(t);
    }
  }
}
