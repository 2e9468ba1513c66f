/**
 * The grab / fall / plant state machine of a block, on its flags alone. Each
 * step says how the flags change and which store operations (`Place`,
 * `Unplace`, `Plant`) the block issues. The two deferred actions, the
 * zero-delay `Invoke("Ungrab", 0)` and the timed `Plant` coroutine, are counts
 * of queued calls that the scheduler delivers with `UngrabFired` and
 * `PlantFired`.
 */
module Lifecycle {
  import opened Area

  datatype Flags = Flags(
    grabbed: bool,
    delayedUngrabbed: bool,
    planting: bool,
    prevGrabbed: bool,
    pendingUngrabs: nat,  // queued `Ungrab` invocations
    pendingPlants: nat    // running `Plant` coroutines
  )

  /** The flags as `Start` leaves them. */
  const Spawned := Flags(false, false, false, false, 0, 0)

  /**
   * What can happen to a block. `landed` is whether the snap inside the step
   * reports that the block had to climb; `supported` is whether the cell under
   * the block is occupied when a tick checks it.
   */
  datatype Event =
    | GrabCalled
    | DelayedUngrabCalled
    | UngrabFired(landed: bool)
    | LayCalled
    | UnlayCalled
    | PlantFired
    | Ticked(landed: bool, supported: bool)

  datatype Outcome = Outcome(flags: Flags, calls: seq<AreaCall>)

  /** What the flags promise at every moment of a block's life. */
  ghost predicate Inv(f: Flags)
  {
    && (f.pendingPlants > 0 ==> f.planting)
    && (f.planting ==> f.prevGrabbed)
    && (f.grabbed ==> f.prevGrabbed)
    && (f.delayedUngrabbed ==> f.pendingUngrabs > 0)
  }

  predicate AutoGrabbable(f: Flags)
  {
    !f.prevGrabbed
  }

  function UnlayStep(f: Flags): Outcome
  {
    if f.planting then Outcome(f.(planting := false, pendingPlants := 0), [CallUnplace])
    else Outcome(f, [])
  }

  function LayStep(f: Flags): Outcome
  {
    Outcome(f.(prevGrabbed := true, planting := true, pendingPlants := f.pendingPlants + 1), [CallPlace])
  }

  function GrabStep(f: Flags): Outcome
  {
    UnlayStep(f.(prevGrabbed := true, grabbed := true, delayedUngrabbed := false))
  }

  function DelayedUngrabStep(f: Flags): Outcome
  {
    Outcome(f.(delayedUngrabbed := true, pendingUngrabs := f.pendingUngrabs + 1), [])
  }

  function UngrabStep(f: Flags, landed: bool): Outcome
  {
    if !f.delayedUngrabbed then Outcome(f, [])
    else
      var released := f.(delayedUngrabbed := false, grabbed := false);
      if landed then LayStep(released) else Outcome(released, [])
  }

  function FireUngrabStep(f: Flags, landed: bool): Outcome
  {
    if f.pendingUngrabs == 0 then Outcome(f, [])
    else
      var o := UngrabStep(f, landed);
      Outcome(o.flags.(pendingUngrabs := f.pendingUngrabs - 1), o.calls)
  }

  function FirePlantStep(f: Flags): Outcome
  {
    if f.pendingPlants == 0 then Outcome(f, [])
    else Outcome(f.(pendingPlants := f.pendingPlants - 1), [CallPlant])
  }

  /** One `Update`: fall and snap only when neither grabbed nor planting, then check support. */
  function TickStep(f: Flags, landed: bool, supported: bool): Outcome
  {
    var fell := if !f.grabbed && !f.planting && landed then LayStep(f) else Outcome(f, []);
    if fell.flags.planting && !supported then
      var u := UnlayStep(fell.flags);
      Outcome(u.flags, fell.calls + u.calls)
    else fell
  }

  function Step(f: Flags, e: Event): Outcome
  {
    match e
    case GrabCalled => GrabStep(f)
    case DelayedUngrabCalled => DelayedUngrabStep(f)
    case UngrabFired(landed) => FireUngrabStep(f, landed)
    case LayCalled => LayStep(f)
    case UnlayCalled => UnlayStep(f)
    case PlantFired => FirePlantStep(f)
    case Ticked(landed, supported) => TickStep(f, landed, supported)
  }

  /** The flags after a sequence of events, and every store operation issued on the way. */
  function Run(f: Flags, es: seq<Event>): Outcome
    decreases |es|
  {
    if es == [] then Outcome(f, [])
    else
      var first := Step(f, es[0]);
      var rest := Run(first.flags, es[1..]);
      Outcome(rest.flags, first.calls + rest.calls)
  }

  /** Events that can start a new plant: an explicit `Lay`, or a snap that lands. */
  predicate MayLay(e: Event)
  {
    e.LayCalled? || (e.UngrabFired? && e.landed) || (e.Ticked? && e.landed)
  }

  /** Events that can cancel planting: `Unlay`, `Grab`, or a tick that finds no support. */
  predicate MayUnlay(e: Event)
  {
    e.UnlayCalled? || e.GrabCalled? || (e.Ticked? && !e.supported)
  }

  // ---------------------------------------------------------------------------
  // Single steps

  lemma StepKeepsInv(f: Flags, e: Event)
    requires Inv(f)
    ensures Inv(Step(f, e).flags)
  {
  }

  /** `Grab` leaves the block held, not planting, with no plant pending, and releases a reservation it had. */
  lemma GrabOutcome(f: Flags)
    ensures var o := Step(f, GrabCalled);
            && o.flags.grabbed && !o.flags.delayedUngrabbed && !o.flags.planting && o.flags.prevGrabbed
            && o.flags.pendingPlants == (if f.planting then 0 else f.pendingPlants)
            && o.calls == (if f.planting then [CallUnplace] else [])
  {
  }

  /** `Unlay` does nothing unless planting, so a second `Unlay` changes nothing and calls nothing. */
  lemma UnlayIdempotent(f: Flags)
    ensures !f.planting ==> Step(f, UnlayCalled) == Outcome(f, [])
    ensures var once := Step(f, UnlayCalled).flags;
            !once.planting && once.pendingPlants == (if f.planting then 0 else f.pendingPlants)
            && Step(once, UnlayCalled) == Outcome(once, [])
  {
  }

  /** `Lay` sets `planting` and `prevGrabbed`, reserves, and schedules one more plant. */
  lemma LayOutcome(f: Flags)
    ensures var o := Step(f, LayCalled);
            && o.flags.planting && o.flags.prevGrabbed && !AutoGrabbable(o.flags)
            && o.flags.pendingPlants == f.pendingPlants + 1
            && o.calls == [CallPlace]
  {
  }

  /**
   * A delivered ungrab does nothing unless `delayedUngrabbed` is still set;
   * otherwise it releases the block and lays it exactly when the snap landed.
   */
  lemma UngrabOutcome(f: Flags, landed: bool)
    requires f.pendingUngrabs > 0
    ensures var o := Step(f, UngrabFired(landed));
            && o.flags.pendingUngrabs == f.pendingUngrabs - 1
            && (!f.delayedUngrabbed ==> o.flags == f.(pendingUngrabs := f.pendingUngrabs - 1) && o.calls == [])
            && (f.delayedUngrabbed ==>
                  && !o.flags.grabbed && !o.flags.delayedUngrabbed
                  && o.calls == (if landed then [CallPlace] else [])
                  && o.flags.planting == (landed || f.planting))
  {
  }

  /** `Plant` reaches the store only from a planting block with a plant pending. */
  lemma PlantCallNeedsPlanting(f: Flags, e: Event)
    requires Inv(f)
    ensures CallPlant in Step(f, e).calls ==> e == PlantFired && f.planting && f.pendingPlants > 0
  {
  }

  /**
   * In a tick, the block reserves only if it was neither grabbed nor planting
   * and its snap landed; a tick that ends planting found the cell below occupied.
   */
  lemma TickOutcome(f: Flags, landed: bool, supported: bool)
    ensures var o := Step(f, Ticked(landed, supported));
            && (CallPlace in o.calls <==> !f.grabbed && !f.planting && landed)
            && (o.flags.planting ==> supported)
            && (!supported && (f.planting || (!f.grabbed && landed)) ==> CallUnplace in o.calls && o.flags.pendingPlants == 0)
            && o.flags.grabbed == f.grabbed && o.flags.delayedUngrabbed == f.delayedUngrabbed
  {
  }

  // ---------------------------------------------------------------------------
  // Runs of events

  lemma {:induction false} RunKeepsInv(f: Flags, es: seq<Event>)
    requires Inv(f)
    ensures Inv(Run(f, es).flags)
    decreases |es|
  {
    if es != [] {
      StepKeepsInv(f, es[0]);
      RunKeepsInv(Step(f, es[0]).flags, es[1..]);
    }
  }

  /**
   * Nothing resets `prevGrabbed`: once `Grab` or `Lay` has run, the block is
   * never auto-grabbable again.
   */
  lemma {:induction false} NeverAutoGrabbableAgain(f: Flags, es: seq<Event>)
    requires !AutoGrabbable(f)
    ensures !AutoGrabbable(Run(f, es).flags)
    decreases |es|
  {
    if es != [] {
      NeverAutoGrabbableAgain(Step(f, es[0]).flags, es[1..]);
    }
  }

  /**
   * A held block whose ungrab request was withdrawn by `Grab` stays held
   * through any events that do not request a new ungrab: a queued `Ungrab`
   * that fires meanwhile is a no-op.
   */
  lemma {:induction false} HeldUntilUngrabRequested(f: Flags, es: seq<Event>)
    requires f.grabbed && !f.delayedUngrabbed
    requires forall i :: 0 <= i < |es| ==> !es[i].DelayedUngrabCalled?
    ensures Run(f, es).flags.grabbed && !Run(f, es).flags.delayedUngrabbed
    decreases |es|
  {
    if es != [] {
      HeldUntilUngrabRequested(Step(f, es[0]).flags, es[1..]);
    }
  }

  /** `DelayedUngrab` followed by `Grab` before the deferred call fires leaves the block held. */
  lemma RegrabCancelsUngrab(f: Flags, landed: bool, es: seq<Event>)
    requires forall i :: 0 <= i < |es| ==> !es[i].DelayedUngrabCalled?
    ensures Run(Step(Step(f, DelayedUngrabCalled).flags, GrabCalled).flags, [UngrabFired(landed)] + es).flags.grabbed
  {
    var held := Step(Step(f, DelayedUngrabCalled).flags, GrabCalled).flags;
    var es' := [UngrabFired(landed)] + es;
    forall i | 0 <= i < |es'| ensures !es'[i].DelayedUngrabCalled? {
      if i > 0 { assert es'[i] == es[i - 1]; }
    }
    HeldUntilUngrabRequested(held, es');
  }

  /**
   * After `Unlay`, no `Plant` reaches the store until something lays the
   * block again: the cancelled coroutine never commits.
   */
  lemma {:induction false} UnlayCancelsPlant(f: Flags, es: seq<Event>)
    requires Inv(f)
    requires forall i :: 0 <= i < |es| ==> !MayLay(es[i])
    ensures CallPlant !in Run(Step(f, UnlayCalled).flags, es).calls
  {
    QuietRun(Step(f, UnlayCalled).flags, es);
  }

  lemma {:induction false} QuietRun(f: Flags, es: seq<Event>)
    requires !f.planting && f.pendingPlants == 0
    requires forall i :: 0 <= i < |es| ==> !MayLay(es[i])
    ensures CallPlant !in Run(f, es).calls
    ensures !Run(f, es).flags.planting && Run(f, es).flags.pendingPlants == 0
    decreases |es|
  {
    if es != [] {
      var first := Step(f, es[0]);
      assert !MayLay(es[0]);
      assert CallPlant !in first.calls;
      QuietRun(first.flags, es[1..]);
    }
  }

  /**
   * With a plant pending, the first delivered plant reaches the store unless
   * something cancels planting before it.
   */
  lemma {:induction false} PlantCommitsUnlessCancelled(f: Flags, es: seq<Event>)
    requires Inv(f) && f.pendingPlants > 0
    requires forall i :: 0 <= i < |es| ==> !MayUnlay(es[i])
    requires PlantFired in es
    ensures CallPlant in Run(f, es).calls
    decreases |es|
  {
    var first := Step(f, es[0]);
    if es[0] == PlantFired {
      assert first.calls == [CallPlant];
    } else {
      assert !MayUnlay(es[0]);
      assert first.flags.pendingPlants > 0;
      StepKeepsInv(f, es[0]);
      assert es == [es[0]] + es[1..];
      PlantCommitsUnlessCancelled(first.flags, es[1..]);
    }
  }

  /** `Lay` followed by the plant firing commits the block. */
  lemma LayThenPlantCommits(f: Flags)
    ensures CallPlant in Run(f, [LayCalled, PlantFired]).calls
  {
  }
}
