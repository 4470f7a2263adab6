/**
 * The start, pause, resume and step controls of the tick loop
 * (src/simulation/Orchestrator.ts): `startLoop` runs a tick at once and
 * re-arms a `setTimeout` of itself after every tick for as long as the
 * status is `running`; `pause` clears the timer; `step` runs one tick
 * paused.
 *
 * Each control is stated as a function over a `Timer` value: the status,
 * whether `tickInterval` holds a handle, and whether a timer is armed
 * (scheduled and not yet fired). Timers fire one at a time and a tick runs
 * to completion before anything else happens. The controls are given twice:
 * as written, where a timer that fires on a paused loop returns with its
 * spent handle still held, so that a later `resume` does nothing; and
 * corrected, where that return drops the handle and `step` cancels the
 * armed timer as `pause` does.
 */
module LoopControl {
  import opened Types

  /** `status`, `tickInterval !== null`, and whether a `setTimeout` of `loop` is pending. */
  datatype Timer = Timer(status: SimStatus, held: bool, armed: bool)

  /** The state after a control, and whether it ran `runTick`. */
  datatype Outcome = Outcome(after: Timer, ticked: bool)

  /** A freshly built orchestrator: stopped, no timer. */
  const Idle: Timer := Timer(Stopped, false, false)

  // ---------------------------------------------------------------------
  // As written
  // ---------------------------------------------------------------------

  /** The body of `loop` as written: a tick and a new timer while running; otherwise a return that keeps the handle. */
  function Run(t: Timer): (o: Outcome)
    ensures o.ticked <==> t.status == Running
    ensures o.after.status == t.status && (!o.ticked ==> o.after == t)
    ensures o.ticked ==> o.after.held && o.after.armed
  {
    if t.status != Running then Outcome(t, false) else Outcome(t.(held := true, armed := true), true)
  }

  /** `startLoop`: nothing while a handle is held; otherwise the status becomes `running` and `loop` runs. */
  function StartLoop(t: Timer): (o: Outcome)
    ensures t.held ==> o == Outcome(t, false)
    ensures !t.held ==> o.ticked && o.after == Timer(Running, true, true)
  {
    if t.held then Outcome(t, false) else Run(t.(status := Running))
  }

  /** The armed timer goes off and runs `loop`; with none armed nothing happens. */
  function Fire(t: Timer): (o: Outcome)
    ensures !t.armed ==> o == Outcome(t, false)
    ensures t.armed ==> (o.ticked <==> t.status == Running)
  {
    if !t.armed then Outcome(t, false) else Run(t.(armed := false))
  }

  /** `pause`: the status becomes `paused`; a held handle is cleared and dropped. */
  function Pause(t: Timer): (o: Outcome)
    ensures !o.ticked && o.after.status == Paused && !o.after.held
    ensures t.held ==> !o.after.armed
    ensures !t.held ==> o.after.armed == t.armed
  {
    if t.held then Outcome(Timer(Paused, false, false), false) else Outcome(t.(status := Paused), false)
  }

  /** `resume`: nothing while running; otherwise `startLoop`. */
  function Resume(t: Timer): (o: Outcome)
    ensures t.status == Running ==> o == Outcome(t, false)
    ensures t.status != Running ==> o == StartLoop(t)
  {
    if t.status == Running then Outcome(t, false) else StartLoop(t)
  }

  /** `step` as written: the status becomes `paused` and one tick runs; the timer is left alone. */
  function Step(t: Timer): (o: Outcome)
    ensures o.ticked && o.after == Timer(Paused, t.held, t.armed)
  {
    Outcome(t.(status := Paused), true)
  }

  /** Every armed timer has its handle held: true of every state the controls reach. */
  predicate Tracked(t: Timer) {
    t.armed ==> t.held
  }

  /** The controls as written keep every armed timer's handle held. */
  lemma TrackedKept(t: Timer)
    requires Tracked(t)
    ensures Tracked(StartLoop(t).after) && Tracked(Fire(t).after) && Tracked(Pause(t).after)
    ensures Tracked(Resume(t).after) && Tracked(Step(t).after)
  {
  }

  /** As written, `pause` followed by `resume` always restarts the loop. */
  lemma PauseThenResume(t: Timer)
    requires Tracked(t)
    ensures var o := Resume(Pause(t).after); o.ticked && o.after == Timer(Running, true, true)
  {
  }

  /**
   * As written, a paused loop whose handle is still held after its timer
   * has fired can never tick again through `resume` or a timer: only
   * `pause` (or `step`, one tick at a time) gets past it.
   */
  lemma SpentHandleSticks(t: Timer)
    requires t.status != Running && t.held && !t.armed
    ensures Resume(t) == Outcome(t, false) && Fire(t) == Outcome(t, false)
    ensures Resume(Resume(t).after) == Outcome(t, false)
  {
  }

  /**
   * As written: start the loop, take one step (the loop's timer is still
   * armed), let that timer fire on the paused loop, then resume. The
   * resume runs no tick and the simulation stays paused with no timer
   * armed; the spent handle blocks every later resume.
   */
  lemma ResumeAfterStepStalls()
    ensures var t1 := StartLoop(Idle).after;
            var t2 := Step(t1).after;
            var t3 := Fire(t2).after;
            var o := Resume(t3);
            && t3 == Timer(Paused, true, false)
            && !o.ticked && o.after.status == Paused && !o.after.armed
            && Resume(o.after) == Outcome(o.after, false)
  {
  }

  // ---------------------------------------------------------------------
  // Corrected
  // ---------------------------------------------------------------------

  /** The body of `loop`, corrected: a return on a loop that is not running drops the spent handle. */
  function FixedRun(t: Timer): (o: Outcome)
    ensures o.ticked <==> t.status == Running
    ensures o.after.status == t.status
    ensures o.ticked ==> o.after.held && o.after.armed
    ensures !o.ticked ==> !o.after.held && o.after.armed == t.armed
  {
    if t.status != Running then Outcome(t.(held := false), false) else Outcome(t.(held := true, armed := true), true)
  }

  /** `startLoop` over the corrected `loop`. */
  function FixedStartLoop(t: Timer): (o: Outcome)
    ensures t.held ==> o == Outcome(t, false)
    ensures !t.held ==> o.ticked && o.after == Timer(Running, true, true)
  {
    if t.held then Outcome(t, false) else FixedRun(t.(status := Running))
  }

  /** A timer going off runs the corrected `loop`. */
  function FixedFire(t: Timer): (o: Outcome)
    ensures !t.armed ==> o == Outcome(t, false)
    ensures t.armed ==> (o.ticked <==> t.status == Running)
  {
    if !t.armed then Outcome(t, false) else FixedRun(t.(armed := false))
  }

  /** `resume` over the corrected `startLoop`. */
  function FixedResume(t: Timer): (o: Outcome)
    ensures t.status == Running ==> o == Outcome(t, false)
    ensures t.status != Running ==> o == FixedStartLoop(t)
  {
    if t.status == Running then Outcome(t, false) else FixedStartLoop(t)
  }

  /** `step`, corrected: the loop is paused as by `pause` (its timer cleared), then one tick runs. */
  function FixedStep(t: Timer): (o: Outcome)
    ensures o.ticked && o.after == Pause(t).after
    ensures Tracked(t) ==> o.after == Timer(Paused, false, false)
  {
    Outcome(Pause(t).after, true)
  }

  /** A timer is held and armed exactly while the loop is running. */
  predicate Healthy(t: Timer) {
    t.held == t.armed && (t.armed <==> t.status == Running)
  }

  /** A fresh orchestrator is healthy, and every corrected control keeps it so. */
  lemma HealthyKept(t: Timer)
    requires Healthy(t)
    ensures Healthy(Idle)
    ensures Healthy(FixedStartLoop(t).after) && Healthy(FixedFire(t).after) && Healthy(Pause(t).after)
    ensures Healthy(FixedResume(t).after) && Healthy(FixedStep(t).after)
  {
  }

  /** Corrected, `resume` on a loop that is not running always restarts it: one tick at once and a timer armed. */
  lemma FixedResumeRestarts(t: Timer)
    requires Healthy(t) && t.status != Running
    ensures var o := FixedResume(t); o.ticked && o.after == Timer(Running, true, true)
  {
  }

  /** Corrected, a running loop keeps ticking on every firing, and a loop that is not running never does. */
  lemma FixedFireTicks(t: Timer)
    requires Healthy(t)
    ensures FixedFire(t).ticked <==> t.status == Running
    ensures t.status == Running ==> FixedFire(t).after == t
  {
  }

  /** The sequence that stalls as written resumes once corrected. */
  lemma ResumeAfterStepRestarts()
    ensures var t1 := FixedStartLoop(Idle).after;
            var t2 := FixedStep(t1).after;
            var t3 := FixedFire(t2).after;
            var o := FixedResume(t3);
            o.ticked && o.after == Timer(Running, true, true)
  {
  }
}
