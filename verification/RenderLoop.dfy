/** The render loop of one SSH session and the producers that wake it.

    `late-ssh/src/ssh.rs` runs one loop task per session.  Input, resizes and other
    tasks reach it through a bounded queue, an atomic `dirty` flag and a
    `Notify` that stores at most one permit.  Every step below is one atomic
    action of that code, so a run is an arbitrary interleaving of the loop with any
    number of producers.  Times are milliseconds of one monotone clock. */
module RenderLoop {
  import opened Wrappers

  const MIN_RENDER_GAP: nat := 15
  const WORLD_TICK_INTERVAL: nat := 66
  const INPUT_QUEUE_CAP: nat := 256

  datatype Input = Bytes(data: string)

  /** Where the loop task stands between two atomic actions. */
  datatype Phase =
    | Waiting                  // parked in the select of next_render_action
    | Woken                    // took the permit, has not loaded `dirty` yet
    | Chosen(advance: bool)    // picked a render action, wants the app lock
    | Locked(advance: bool)    // holds the lock, app is running, `dirty` not cleared yet
    | Draining(advance: bool)  // cleared `dirty`, popping queued input
    | Painting(advance: bool)  // saw the queue empty, about to tick and render
    | Sending                  // released the lock, frame handed to the SSH channel
    | Dropped                  // the write timed out, wants the lock to force a repaint
    | Ringing                  // raised `dirty` itself, holds the lock, about to notify
    | Commands                 // writing the pending terminal commands
    | Stopped

  datatype Holder = Nobody | Loop | Resizer

  /** What the loop did and when: a pass begins when its action is picked and
      ends when `previous_render` is set. */
  datatype Event = Begin(throttled: bool, at: nat) | End(at: nat)

  datatype State = State(
    now: nat,
    // shared with the producers
    queue: seq<Input>,
    dirty: bool,
    permit: bool,
    running: bool,
    repaint: bool,            // the screen owes a full repaint (resize or dropped frame)
    lock: Holder,
    // local to the loop
    phase: Phase,
    inputPending: bool,
    previousRender: Option<nat>,
    nextTick: nat,
    // producers between two of their own actions
    enqueued: nat,            // input queued, `dirty` not stored yet
    stored: nat,              // `dirty` stored, permit not posted yet
    // history
    accepted: seq<Input>,
    handled: seq<Input>,
    posted: nat,
    skips: nat,
    ticks: nat,               // times the world was advanced
    log: seq<Event>)

  const Start: State :=
    State(0, [], false, false, true, false, Nobody, Waiting, false, None, 0, 0, 0, [], [], 0, 0, 0, [])

  datatype ProducerStep =
    | Enqueue(data: Input)     // data(): a queue slot is free
    | Reject                   // data(): the queue is full or closed, the bytes are dropped
    | StoreDirty               // RenderSignal::wake, first half, by a producer that queued input
    | SpontaneousStore         // RenderSignal::wake, first half, by a task that queued nothing
    | Notify                   // second half of wake and of window_change_request
    | ResizeApp                // window_change_request: app locked and resized
    | ResizeStore              // ... `dirty` stored, app unlocked
    | HangUp                   // channel_eof, channel_close: `running` cleared under the lock

  // next_render_action
  datatype SelectStep =
    | TickFires
    | ThrottleFires
    | PermitTaken
    | DirtyLoaded

  // render_once, first lock section
  datatype DrawStep =
    | LockApp
    | ClearDirty
    | HandleOne(stillRunning: bool)
    | QueueEmpty
    | Paint(ok: bool)

  // the rest of render_once, and the bookkeeping after it
  datatype SendStep =
    | FrameSent
    | FrameFailed
    | FrameTimedOut
    | ForceRepaint
    | Ring
    | CommandsDone(ok: bool)

  datatype Step = Elapse(d: nat) | Producer(p: ProducerStep) | Select(w: SelectStep) | Draw(r: DrawStep) | Send(t: SendStep)

  predicate TickDue(s: State) { s.nextTick <= s.now }

  /** `sleep_until(previous_render + MIN_RENDER_GAP)`; ready at once before the first render. */
  predicate GapElapsed(s: State) {
    s.previousRender.Some? ==> s.previousRender.value + MIN_RENDER_GAP <= s.now
  }

  predicate ProducerEnabled(s: State, step: ProducerStep) {
    match step
    case Enqueue(_) => s.phase != Stopped && |s.queue| < INPUT_QUEUE_CAP
    case Reject => s.phase == Stopped || |s.queue| >= INPUT_QUEUE_CAP
    case StoreDirty => s.enqueued > 0
    case SpontaneousStore => true
    case Notify => s.stored > 0
    case ResizeApp => s.lock == Nobody
    case ResizeStore => s.lock == Resizer
    case HangUp => s.lock == Nobody
  }

  function ApplyProducer(s: State, step: ProducerStep): State
    requires ProducerEnabled(s, step)
  {
    match step
    case Enqueue(data) =>
      s.(queue := s.queue + [data], accepted := s.accepted + [data], enqueued := s.enqueued + 1)
    case Reject => s
    case StoreDirty => s.(dirty := true, enqueued := s.enqueued - 1, stored := s.stored + 1)
    case SpontaneousStore => s.(dirty := true, stored := s.stored + 1)
    case Notify => s.(permit := true, stored := s.stored - 1, posted := s.posted + 1)
    case ResizeApp => s.(lock := Resizer, repaint := true)
    case ResizeStore => s.(lock := Nobody, dirty := true, stored := s.stored + 1)
    case HangUp => s.(running := false)
  }

  /** The select is `biased`: an arm is taken only when those above it are not ready. */
  predicate SelectEnabled(s: State, step: SelectStep) {
    match step
    case TickFires => s.phase == Waiting && TickDue(s)
    case ThrottleFires => s.phase == Waiting && !TickDue(s) && s.inputPending && GapElapsed(s)
    case PermitTaken => s.phase == Waiting && !TickDue(s) && !s.inputPending && s.permit
    case DirtyLoaded => s.phase == Woken
  }

  function ApplySelect(s: State, step: SelectStep): State
    requires SelectEnabled(s, step)
  {
    match step
    case TickFires =>
      s.(phase := Chosen(true), inputPending := false, log := s.log + [Begin(false, s.now)],
      nextTick := s.now + WORLD_TICK_INTERVAL - (s.now - s.nextTick) % WORLD_TICK_INTERVAL)
    case ThrottleFires =>
      s.(phase := Chosen(false), inputPending := false, log := s.log + [Begin(true, s.now)])
    case PermitTaken => s.(phase := Woken, permit := false)
    case DirtyLoaded => s.(phase := Waiting, inputPending := s.dirty, skips := s.skips + 1)
  }

  predicate DrawEnabled(s: State, step: DrawStep) {
    match step
    case LockApp => s.phase.Chosen? && s.lock == Nobody
    case ClearDirty => s.phase.Locked?
    case HandleOne(_) => s.phase.Draining? && s.queue != []
    case QueueEmpty => s.phase.Draining? && s.queue == []
    case Paint(_) => s.phase.Painting?
  }

  function ApplyDraw(s: State, step: DrawStep): State
    requires DrawEnabled(s, step)
  {
    match step
    case LockApp =>
      if s.running then s.(phase := Locked(s.phase.advance), lock := Loop) else s.(phase := Stopped)
    case ClearDirty => s.(phase := Draining(s.phase.advance), dirty := false)
    case HandleOne(stillRunning) =>
      var popped := s.(queue := s.queue[1..], handled := s.handled + [s.queue[0]], running := stillRunning);
      if stillRunning then popped else popped.(phase := Stopped, lock := Nobody)
    case QueueEmpty => s.(phase := Painting(s.phase.advance))
    case Paint(ok) =>
      var ticked := s.(lock := Nobody, ticks := s.ticks + (if s.phase.advance then 1 else 0));
      if ok then ticked.(phase := Sending, repaint := false) else ticked.(phase := Stopped)
  }

  predicate SendEnabled(s: State, step: SendStep) {
    match step
    case FrameSent => s.phase == Sending
    case FrameFailed => s.phase == Sending
    case FrameTimedOut => s.phase == Sending
    case ForceRepaint => s.phase == Dropped && s.lock == Nobody
    case Ring => s.phase == Ringing
    case CommandsDone(_) => s.phase == Commands
  }

  function ApplySend(s: State, step: SendStep): State
    requires SendEnabled(s, step)
  {
    match step
    case FrameSent => s.(phase := Commands)
    case FrameFailed => s.(phase := Stopped)
    case FrameTimedOut => s.(phase := Dropped)
    case ForceRepaint =>
      if s.dirty then s.(phase := Commands, repaint := true)
      else s.(phase := Ringing, lock := Loop, repaint := true, dirty := true)
    case Ring => s.(phase := Commands, lock := Nobody, permit := true, posted := s.posted + 1)
    case CommandsDone(ok) =>
      if ok then s.(phase := Waiting, previousRender := Some(s.now), log := s.log + [End(s.now)])
      else s.(phase := Stopped)
  }

  predicate Enabled(s: State, step: Step) {
    match step
    case Elapse(_) => true
    case Producer(p) => ProducerEnabled(s, p)
    case Select(w) => SelectEnabled(s, w)
    case Draw(r) => DrawEnabled(s, r)
    case Send(t) => SendEnabled(s, t)
  }

  function Apply(s: State, step: Step): State
    requires Enabled(s, step)
  {
    match step
    case Elapse(d) => s.(now := s.now + d)
    case Producer(p) => ApplyProducer(s, p)
    case Select(w) => ApplySelect(s, w)
    case Draw(r) => ApplyDraw(s, r)
    case Send(t) => ApplySend(s, t)
  }

  // --------------------------------------------------------------- runs

  ghost predicate Runs(s: State, steps: seq<Step>)
    decreases |steps|
  {
    steps == [] || (Enabled(s, steps[0]) && Runs(Apply(s, steps[0]), steps[1..]))
  }

  ghost function After(s: State, steps: seq<Step>): State
    requires Runs(s, steps)
    decreases |steps|
  {
    if steps == [] then s else After(Apply(s, steps[0]), steps[1..])
  }

  lemma {:induction false} RunsConcat(s: State, first: seq<Step>, second: seq<Step>)
    requires Runs(s, first) && Runs(After(s, first), second)
    ensures Runs(s, first + second) && After(s, first + second) == After(After(s, first), second)
    decreases |first|
  {
    if first == [] {
      assert first + second == second;
    } else {
      assert (first + second)[1..] == first[1..] + second;
      RunsConcat(Apply(s, first[0]), first[1..], second);
    }
  }

  // --------------------------------------------------------------- the invariant

  /** There is something the screen does not show yet. */
  predicate Owed(s: State) { s.queue != [] || s.repaint }

  /** A producer has changed something and has not raised `dirty` for it yet. */
  predicate Unannounced(s: State) { s.enqueued > 0 || s.lock == Resizer }

  /** `dirty` is up and its permit is stored or about to be. */
  predicate Alarm(s: State) { s.dirty && (s.permit || s.stored > 0) }

  /** No producer is in the middle of its own sequence of actions. */
  predicate Quiet(s: State) { s.enqueued == 0 && s.stored == 0 && s.lock != Resizer }

  predicate WakeInv(s: State) {
    match s.phase
    case Waiting => Owed(s) ==> s.inputPending || Unannounced(s) || Alarm(s)
    case Woken => Owed(s) ==> Unannounced(s) || s.dirty
    case Chosen(_) => true
    case Locked(_) => true
    case Draining(_) => s.dirty ==> Alarm(s)
    case Painting(_) => (s.dirty ==> Alarm(s)) && (s.queue != [] ==> Unannounced(s) || Alarm(s))
    case Ringing => s.dirty
    case Stopped => true
    case _ => (s.dirty ==> Alarm(s)) && (Owed(s) ==> Unannounced(s) || Alarm(s))
  }

  predicate LockInv(s: State) {
    s.lock == Loop <==>
      s.phase.Locked? || s.phase.Draining? || s.phase.Painting? || s.phase == Ringing
  }

  predicate QueueInv(s: State) {
    && s.accepted == s.handled + s.queue
    && |s.queue| <= INPUT_QUEUE_CAP
  }

  predicate PermitInv(s: State) {
    && s.skips + (if s.phase == Woken then 1 else 0) + (if s.permit then 1 else 0) <= s.posted
    && (s.phase != Waiting ==> !s.inputPending)
  }

  /** Every past event is in the past, every render end is covered by
      `previous_render`, and throttled begins keep their distance from earlier ends. */
  ghost predicate LogInv(log: seq<Event>, previousRender: Option<nat>, now: nat, open: bool) {
    && Alternates(log) && (|log| % 2 == 1 <==> open)
    && (forall i :: 0 <= i < |log| ==> log[i].at <= now)
    && (forall i, j :: 0 <= i < j < |log| ==> log[i].at <= log[j].at)
    && (forall i :: 0 <= i < |log| && log[i].End? ==>
          previousRender.Some? && log[i].at <= previousRender.value)
    && Throttled(log)
  }

  /** Passes alternate: a begin at every even place, an end at every odd one. */
  ghost predicate Alternates(log: seq<Event>) {
    forall i :: 0 <= i < |log| ==> (log[i].Begin? <==> i % 2 == 0)
  }

  /** Ticks fall into distinct cells of the tick grid, all before the next one due. */
  ghost predicate TickInv(log: seq<Event>, nextTick: nat) {
    && nextTick % WORLD_TICK_INTERVAL == 0
    && (forall i :: 0 <= i < |log| && IsBegin(log[i], false) ==> log[i].at < nextTick)
    && (forall i, j :: 0 <= i < j < |log| && IsBegin(log[i], false) && IsBegin(log[j], false) ==>
          log[i].at / WORLD_TICK_INTERVAL < log[j].at / WORLD_TICK_INTERVAL)
  }

  predicate IsBegin(e: Event, throttled: bool) { e.Begin? && e.throttled == throttled }

  predicate PassOpen(s: State) { s.phase != Waiting && s.phase != Woken }

  ghost predicate Throttled(log: seq<Event>) {
    forall i, j :: 0 <= i < j < |log| && log[i].End? && log[j].Begin? && log[j].throttled ==>
      log[i].at + MIN_RENDER_GAP <= log[j].at
  }

  ghost predicate Inv(s: State) {
    WakeInv(s) && LockInv(s) && QueueInv(s) && PermitInv(s) &&
    LogInv(s.log, s.previousRender, s.now, PassOpen(s)) && TickInv(s.log, s.nextTick)
  }

  lemma ProducerKeepsWakeInv(s: State, step: ProducerStep)
    requires WakeInv(s) && LockInv(s) && PermitInv(s) && ProducerEnabled(s, step)
    ensures var s' := ApplyProducer(s, step); WakeInv(s') && LockInv(s') && PermitInv(s')
  {
  }

  lemma SelectKeepsWakeInv(s: State, step: SelectStep)
    requires WakeInv(s) && LockInv(s) && PermitInv(s) && SelectEnabled(s, step)
    ensures var s' := ApplySelect(s, step); WakeInv(s') && LockInv(s') && PermitInv(s')
  {
  }

  lemma DrawKeepsWakeInv(s: State, step: DrawStep)
    requires WakeInv(s) && LockInv(s) && PermitInv(s) && DrawEnabled(s, step)
    ensures var s' := ApplyDraw(s, step); WakeInv(s') && LockInv(s') && PermitInv(s')
  {
  }

  lemma SendKeepsWakeInv(s: State, step: SendStep)
    requires WakeInv(s) && LockInv(s) && PermitInv(s) && SendEnabled(s, step)
    ensures var s' := ApplySend(s, step); WakeInv(s') && LockInv(s') && PermitInv(s')
  {
  }

  /** The input bytes a step brings in. */
  function Arrival(step: Step): seq<Input> {
    if step.Producer? && step.p.Enqueue? then [step.p.data] else []
  }

  lemma ProducerKeepsHistory(s: State, step: ProducerStep)
    requires QueueInv(s) && ProducerEnabled(s, step)
    ensures var s' := ApplyProducer(s, step);
            QueueInv(s') && s'.log == s.log && s'.previousRender == s.previousRender && s'.now == s.now && s'.nextTick == s.nextTick
    ensures ApplyProducer(s, step).phase == s.phase
    ensures ApplyProducer(s, step).accepted == s.accepted + Arrival(Producer(step))
  {
    if step.Enqueue? {
      assert s.accepted + [step.data] == s.handled + (s.queue + [step.data]);
    }
  }

  lemma SelectKeepsHistory(s: State, step: SelectStep)
    requires QueueInv(s) && LogInv(s.log, s.previousRender, s.now, PassOpen(s)) && SelectEnabled(s, step)
    ensures var s' := ApplySelect(s, step); QueueInv(s') && LogInv(s'.log, s'.previousRender, s'.now, PassOpen(s'))
    ensures ApplySelect(s, step).accepted == s.accepted
  {
    if step == TickFires {
      LogGrows(s.log, s.previousRender, s.now, Begin(false, s.now));
    } else if step == ThrottleFires {
      LogGrows(s.log, s.previousRender, s.now, Begin(true, s.now));
    }
  }

  lemma DrawKeepsHistory(s: State, step: DrawStep)
    requires QueueInv(s) && DrawEnabled(s, step)
    ensures var s' := ApplyDraw(s, step);
            QueueInv(s') && s'.log == s.log && s'.previousRender == s.previousRender && s'.now == s.now && s'.nextTick == s.nextTick
    ensures ApplyDraw(s, step).accepted == s.accepted && PassOpen(ApplyDraw(s, step))
  {
    if step.HandleOne? {
      assert s.handled + s.queue == (s.handled + [s.queue[0]]) + s.queue[1..];
    }
  }

  lemma SendKeepsHistory(s: State, step: SendStep)
    requires QueueInv(s) && LogInv(s.log, s.previousRender, s.now, PassOpen(s)) && SendEnabled(s, step)
    ensures var s' := ApplySend(s, step); QueueInv(s') && LogInv(s'.log, s'.previousRender, s'.now, PassOpen(s'))
    ensures ApplySend(s, step).accepted == s.accepted
  {
    if step.CommandsDone? {
      LogGrows(s.log, s.previousRender, s.now, End(s.now));
    }
  }

  lemma LogGrows(log: seq<Event>, previousRender: Option<nat>, now: nat, e: Event)
    requires LogInv(log, previousRender, now, e.End?) && e.at == now
    requires e.Begin? && e.throttled && previousRender.Some? ==> previousRender.value + MIN_RENDER_GAP <= now
    ensures LogInv(log + [e], if e.End? then Some(now) else previousRender, now, e.Begin?)
  {
  }

  lemma TickGrid(now: nat, nextTick: nat) returns (next: nat)
    requires nextTick <= now && nextTick % WORLD_TICK_INTERVAL == 0
    ensures next == now + WORLD_TICK_INTERVAL - (now - nextTick) % WORLD_TICK_INTERVAL
    ensures next % WORLD_TICK_INTERVAL == 0 && now < next
  {
    next := now + WORLD_TICK_INTERVAL - (now - nextTick) % WORLD_TICK_INTERVAL;
  }

  lemma SelectKeepsTicks(s: State, step: SelectStep)
    requires TickInv(s.log, s.nextTick) && SelectEnabled(s, step)
    ensures var s' := ApplySelect(s, step); TickInv(s'.log, s'.nextTick)
  {
    if step == TickFires {
      var next := TickGrid(s.now, s.nextTick);
      forall i | 0 <= i < |s.log| && IsBegin(s.log[i], false)
        ensures s.log[i].at / WORLD_TICK_INTERVAL < s.now / WORLD_TICK_INTERVAL
      {
        assert s.log[i].at < s.nextTick <= s.now;
      }
    }
  }

  lemma SendKeepsTicks(s: State, step: SendStep)
    requires TickInv(s.log, s.nextTick) && SendEnabled(s, step)
    ensures var s' := ApplySend(s, step); TickInv(s'.log, s'.nextTick)
  {
  }

  lemma StepKeepsInv(s: State, step: Step)
    requires Inv(s) && Enabled(s, step)
    ensures Inv(Apply(s, step))
  {
    match step {
      case Elapse(_) =>
      case Producer(p) =>
        ProducerKeepsWakeInv(s, p);
        ProducerKeepsHistory(s, p);
      case Select(w) =>
        SelectKeepsWakeInv(s, w);
        SelectKeepsHistory(s, w);
        SelectKeepsTicks(s, w);
      case Draw(r) =>
        DrawKeepsWakeInv(s, r);
        DrawKeepsHistory(s, r);
      case Send(t) =>
        SendKeepsWakeInv(s, t);
        SendKeepsHistory(s, t);
        SendKeepsTicks(s, t);
    }
  }

  lemma StepAccepts(s: State, step: Step)
    requires Enabled(s, step)
    ensures Apply(s, step).accepted == s.accepted + Arrival(step)
  {
    assert s.accepted + [] == s.accepted;
    match step
    case Elapse(_) =>
    case Producer(p) =>
    case Select(_) =>
    case Draw(r) => DrawLeaves(s, r);
    case Send(t) => SendLeaves(s, t);
  }

  lemma DrawLeaves(s: State, step: DrawStep)
    requires DrawEnabled(s, step)
    ensures ApplyDraw(s, step).accepted == s.accepted && ApplyDraw(s, step).log == s.log
  {
    match step
    case HandleOne(_) =>
    case Paint(_) =>
    case _ =>
  }

  lemma SendLeaves(s: State, step: SendStep)
    requires SendEnabled(s, step)
    ensures ApplySend(s, step).accepted == s.accepted && s.log <= ApplySend(s, step).log
  {
  }

  lemma {:induction false} RunKeepsInv(s: State, steps: seq<Step>)
    requires Inv(s) && Runs(s, steps)
    ensures Inv(After(s, steps))
    decreases |steps|
  {
    if steps != [] {
      StepKeepsInv(s, steps[0]);
      RunKeepsInv(Apply(s, steps[0]), steps[1..]);
    }
  }

  // --------------------------------------------------------------- what every run keeps

  /** The input bytes accepted along a run, in arrival order. */
  ghost function AcceptedIn(steps: seq<Step>): seq<Input> {
    if steps == [] then [] else Arrival(steps[0]) + AcceptedIn(steps[1..])
  }

  lemma {:induction false} AcceptedGrows(s: State, steps: seq<Step>)
    requires Runs(s, steps)
    ensures After(s, steps).accepted == s.accepted + AcceptedIn(steps)
    decreases |steps|
  {
    if steps != [] {
      var s' := Apply(s, steps[0]);
      StepAccepts(s, steps[0]);
      AcceptedGrows(s', steps[1..]);
      assert s.accepted + (Arrival(steps[0]) + AcceptedIn(steps[1..])) == s'.accepted + AcceptedIn(steps[1..]);
    }
  }

  /** No lost wake-up: whenever the loop is parked and no producer is half way
      through, work to be shown implies an armed throttle or a raised flag with
      its permit stored. */
  lemma NoLostWakeup(steps: seq<Step>)
    requires Runs(Start, steps)
    ensures var s := After(Start, steps);
            s.phase == Waiting && Quiet(s) && Owed(s) ==> s.inputPending || (s.dirty && s.permit)
  {
    RunKeepsInv(Start, steps);
  }

  /** A producer that has queued input and not yet stored `dirty` is the one
      exception: there the queue is not empty and nothing will wake the loop yet. */
  lemma QueuedBeforeDirtyIsSilent()
    ensures exists steps :: Runs(Start, steps) &&
              var s := After(Start, steps);
              s.phase == Waiting && s.stored == 0 && s.queue != [] && !s.inputPending && !s.dirty && !s.permit
  {
    var steps := [Producer(Enqueue(Bytes("x")))];
    assert steps[1..] == [];
    assert Runs(Start, steps);
  }

  /** Accepted input is handled exactly once and in arrival order, and at most 256 inputs wait. */
  lemma InputIsFifo(steps: seq<Step>)
    requires Runs(Start, steps)
    ensures var s := After(Start, steps); AcceptedIn(steps) == s.handled + s.queue && |s.queue| <= 256
  {
    RunKeepsInv(Start, steps);
    AcceptedGrows(Start, steps);
  }

  /** Rounds of the loop that render nothing are paid for by posted permits. */
  lemma SkipsArePaidFor(steps: seq<Step>)
    requires Runs(Start, steps)
    ensures After(Start, steps).skips <= After(Start, steps).posted
  {
    RunKeepsInv(Start, steps);
  }

  /** Begin and end of passes alternate, and a throttled pass begins at least
      MIN_RENDER_GAP after the end of the pass before it. */
  lemma ThrottleKeepsGap(steps: seq<Step>, j: nat)
    requires Runs(Start, steps)
    requires var log := After(Start, steps).log; 0 < j < |log| && log[j].Begin? && log[j].throttled
    ensures var log := After(Start, steps).log;
            log[j - 1].End? && log[j - 1].at + 15 <= log[j].at
  {
    RunKeepsInv(Start, steps);
    EndBeforeBegin(After(Start, steps).log, j);
  }

  lemma EndBeforeBegin(log: seq<Event>, j: nat)
    requires Alternates(log) && Throttled(log)
    requires 0 < j < |log| && log[j].Begin? && log[j].throttled
    ensures log[j - 1].End? && log[j - 1].at + MIN_RENDER_GAP <= log[j].at
  {
    assert !log[j - 1].Begin?;
  }

  // --------------------------------------------------------------- ticks and the gap

  /** The loop has just ended a pass. */
  predicate JustRendered(s: State) { s.phase == Waiting && s.previousRender == Some(s.now) }

  /** No pass has begun since, or the first one keeps the gap. */
  predicate KeepsGapSince(s: State, n: nat, e: nat, nextTick: nat) {
    || (|s.log| == n && (s.phase == Waiting || s.phase == Woken) && s.nextTick == nextTick && s.previousRender == Some(e))
    || (|s.log| > n && e + MIN_RENDER_GAP <= s.log[n].at)
  }

  lemma StepKeepsGapSince(s: State, step: Step, n: nat, e: nat, nextTick: nat)
    requires KeepsGapSince(s, n, e, nextTick) && Enabled(s, step) && e + MIN_RENDER_GAP <= nextTick
    ensures KeepsGapSince(Apply(s, step), n, e, nextTick)
  {
    match step
    case Elapse(_) =>
    case Producer(p) => ProducerLeavesLoop(s, p);
    case Select(w) => SelectKeepsGapSince(s, w, n, e, nextTick);
    case Draw(d) => DrawLeaves(s, d);
    case Send(t) => SendLeaves(s, t);
  }

  lemma ProducerLeavesLoop(s: State, step: ProducerStep)
    requires ProducerEnabled(s, step)
    ensures var s' := ApplyProducer(s, step);
            s'.log == s.log && s'.phase == s.phase && s'.nextTick == s.nextTick && s'.previousRender == s.previousRender && s'.now == s.now
  {
  }

  lemma SelectKeepsGapSince(s: State, step: SelectStep, n: nat, e: nat, nextTick: nat)
    requires KeepsGapSince(s, n, e, nextTick) && SelectEnabled(s, step) && e + MIN_RENDER_GAP <= nextTick
    ensures KeepsGapSince(ApplySelect(s, step), n, e, nextTick)
  {
  }

  lemma {:induction false} RunKeepsGapSince(s: State, steps: seq<Step>, n: nat, e: nat, nextTick: nat)
    requires KeepsGapSince(s, n, e, nextTick) && Runs(s, steps) && e + MIN_RENDER_GAP <= nextTick
    ensures KeepsGapSince(After(s, steps), n, e, nextTick)
    decreases |steps|
  {
    if steps != [] {
      StepKeepsGapSince(s, steps[0], n, e, nextTick);
      RunKeepsGapSince(Apply(s, steps[0]), steps[1..], n, e, nextTick);
    }
  }

  /** The next pass begins within the gap when a tick is due by then. */
  lemma TickBreaksGap(s: State) returns (steps: seq<Step>)
    requires JustRendered(s) && s.nextTick < s.now + MIN_RENDER_GAP
    ensures Runs(s, steps)
    ensures var log := After(s, steps).log; |log| == |s.log| + 1 && log[|s.log|].at < s.now + MIN_RENDER_GAP
  {
    var wait := Elapse(if s.nextTick <= s.now then 0 else s.nextTick - s.now);
    TwoSteps(s, wait, Select(TickFires));
    steps := [wait, Select(TickFires)];
  }

  /** Every continuation of a run that has just ended a pass begins its next pass so much later. */
  ghost predicate NextPassKeepsGap(s: State) {
    forall steps :: Runs(s, steps) && |After(s, steps).log| > |s.log| ==> s.now + 15 <= After(s, steps).log[|s.log|].at
  }

  /** After a pass the gap is kept, whatever happens next, exactly when no world tick falls due
      within it. */
  lemma GapKeptIffNoTick(s: State)
    requires JustRendered(s)
    ensures NextPassKeepsGap(s) <==> s.now + 15 <= s.nextTick
  {
    if s.now + MIN_RENDER_GAP <= s.nextTick {
      forall steps | Runs(s, steps) && |After(s, steps).log| > |s.log|
        ensures s.now + MIN_RENDER_GAP <= After(s, steps).log[|s.log|].at
      {
        RunKeepsGapSince(s, steps, |s.log|, s.now, s.nextTick);
      }
    } else {
      var steps := TickBreaksGap(s);
    }
  }

  /** The frame goes out, time passes, and the pass ends. */
  lemma FinishPass(s: State, d: nat) returns (steps: seq<Step>)
    requires s.phase == Sending
    ensures Runs(s, steps)
    ensures var e := s.now + d;
            After(s, steps) == s.(phase := Waiting, now := e, previousRender := Some(e), log := s.log + [End(e)])
  {
    TwoSteps(s, Send(FrameSent), Elapse(d));
    var sent := s.(phase := Commands, now := s.now + d);
    OneStep(sent, Send(CommandsDone(true)));
    RunsConcat(s, [Send(FrameSent), Elapse(d)], [Send(CommandsDone(true))]);
    steps := [Send(FrameSent), Elapse(d)] + [Send(CommandsDone(true))];
  }

  /** A slow first pass. */
  lemma SlowPass() returns (steps: seq<Step>)
    ensures Runs(Start, steps)
    ensures var s := After(Start, steps); JustRendered(s) && s.now == 60 && s.nextTick == 66 && s.log == [Begin(false, 0), End(60)]
  {
    var s1 := Apply(Start, Select(TickFires));
    OneStep(Start, Select(TickFires));
    WholePass(s1);
    var finish := FinishPass(Painted(s1), 60);
    RunsConcat(s1, PassSteps(0), finish);
    RunsConcat(Start, [Select(TickFires)], PassSteps(0) + finish);
    steps := [Select(TickFires)] + (PassSteps(0) + finish);
  }

  /** World ticks do not respect the gap: a slow first pass that ends 6 ms before the
      next tick is followed by another pass after those 6 ms. */
  lemma TickIgnoresGap() returns (steps: seq<Step>)
    ensures Runs(Start, steps)
    ensures var log := After(Start, steps).log;
            |log| == 3 && log[1].End? && log[2].Begin? && log[2].at < log[1].at + 15
  {
    var slow := SlowPass();
    var s := After(Start, slow);
    var wait := Elapse(6);
    TwoSteps(s, wait, Select(TickFires));
    RunsConcat(Start, slow, [wait, Select(TickFires)]);
    steps := slow + [wait, Select(TickFires)];
  }

  /** The times at which throttled passes (or ticks) begin, in order. */
  ghost function Begins(log: seq<Event>, throttled: bool): seq<nat> {
    if log == [] then []
    else Begins(log[..|log| - 1], throttled) +
         (if IsBegin(log[|log| - 1], throttled) then [log[|log| - 1].at] else [])
  }

  lemma {:induction false} BeginsAreEvents(log: seq<Event>, throttled: bool, i: nat) returns (p: nat)
    requires i < |Begins(log, throttled)|
    ensures p < |log| && IsBegin(log[p], throttled) && log[p].at == Begins(log, throttled)[i]
  {
    var front := log[..|log| - 1];
    if i < |Begins(front, throttled)| {
      p := BeginsAreEvents(front, throttled, i);
    } else {
      p := |log| - 1;
    }
  }

  lemma ThrottledBeginsApart(log: seq<Event>, i: nat, j: nat)
    requires Alternates(log) && Throttled(log)
    requires forall i, j :: 0 <= i < j < |log| ==> log[i].at <= log[j].at
    requires i < j < |log| && IsBegin(log[i], true) && IsBegin(log[j], true)
    ensures log[i].at + MIN_RENDER_GAP <= log[j].at
  {
    assert log[i + 1].End?;
  }

  ghost predicate LogFacts(log: seq<Event>) {
    && Alternates(log) && Throttled(log)
    && (forall i, j :: 0 <= i < j < |log| ==> log[i].at <= log[j].at)
    && (forall i, j :: 0 <= i < j < |log| && IsBegin(log[i], false) && IsBegin(log[j], false) ==>
          log[i].at / WORLD_TICK_INTERVAL < log[j].at / WORLD_TICK_INTERVAL)
  }

  lemma FactsOfFront(log: seq<Event>)
    requires LogFacts(log) && log != []
    ensures LogFacts(log[..|log| - 1])
  {
  }

  /** The newest begin and the one before it of the same kind. */
  lemma LastBeginApart(log: seq<Event>, throttled: bool, j: nat)
    requires LogFacts(log) && log != [] && IsBegin(log[|log| - 1], throttled)
    requires j + 1 == |Begins(log[..|log| - 1], throttled)|
    ensures var before, last := Begins(log[..|log| - 1], throttled)[j], log[|log| - 1].at;
            if throttled then before + MIN_RENDER_GAP <= last
            else before / WORLD_TICK_INTERVAL < last / WORLD_TICK_INTERVAL
  {
    var p := BeginsAreEvents(log[..|log| - 1], throttled, j);
    if throttled {
      ThrottledBeginsApart(log, p, |log| - 1);
    }
  }

  predicate Spread(times: seq<nat>, throttled: bool, i: nat, j: nat)
    requires i <= j < |times|
  {
    if throttled then times[i] + MIN_RENDER_GAP * (j - i) <= times[j]
    else times[i] / WORLD_TICK_INTERVAL + (j - i) <= times[j] / WORLD_TICK_INTERVAL
  }

  lemma {:induction false} BeginsSpread(log: seq<Event>, throttled: bool, i: nat, j: nat)
    requires LogFacts(log) && i <= j < |Begins(log, throttled)|
    ensures Spread(Begins(log, throttled), throttled, i, j)
    decreases |log|, j
  {
    var front := log[..|log| - 1];
    var before := Begins(front, throttled);
    FactsOfFront(log);
    if j < |before| {
      BeginsSpread(front, throttled, i, j);
    } else if i < j {
      BeginsSpread(front, throttled, i, j - 1);
      LastBeginApart(log, throttled, j - 1);
    }
  }

  /** The render rate is bounded: throttled passes that are k apart begin at least
      k gaps apart, and ticks that are k apart begin in tick cells k apart, hence more
      than k - 1 intervals apart, however input and resizes flood in. */
  lemma RenderRate(steps: seq<Step>, i: nat, j: nat)
    requires Runs(Start, steps) && i <= j
    ensures var t := Begins(After(Start, steps).log, true);
            j < |t| ==> t[i] + 15 * (j - i) <= t[j]
    ensures var t := Begins(After(Start, steps).log, false);
            j < |t| ==> t[i] / 66 + (j - i) <= t[j] / 66
    ensures var t := Begins(After(Start, steps).log, false);
            j < |t| ==> 66 * (j - i - 1) < t[j] - t[i]
  {
    RunKeepsInv(Start, steps);
    FactsOfLog(After(Start, steps));
    if j < |Begins(After(Start, steps).log, true)| {
      BeginsSpread(After(Start, steps).log, true, i, j);
    }
    if j < |Begins(After(Start, steps).log, false)| {
      BeginsSpread(After(Start, steps).log, false, i, j);
      TicksSpread(After(Start, steps).log, i, j);
    }
  }

  lemma FactsOfLog(s: State)
    requires Inv(s)
    ensures LogFacts(s.log)
  {
  }

  lemma TicksSpread(log: seq<Event>, i: nat, j: nat)
    requires LogFacts(log) && i <= j < |Begins(log, false)|
    ensures var t := Begins(log, false); t[i] + WORLD_TICK_INTERVAL * (j - i - 1) < t[j]
  {
    BeginsSpread(log, false, i, j);
    CellsApart(Begins(log, false)[i], Begins(log, false)[j], j - i);
  }

  lemma CellsApart(a: nat, b: nat, k: nat)
    requires a / WORLD_TICK_INTERVAL + k <= b / WORLD_TICK_INTERVAL
    ensures a + WORLD_TICK_INTERVAL * (k - 1) < b
  {
  }

  // --------------------------------------------------------------- what is owed until it is painted

  predicate IsPaint(step: Step) { step.Draw? && step.r.Paint? }

  predicate NoPaint(steps: seq<Step>) { forall i :: 0 <= i < |steps| ==> !IsPaint(steps[i]) }

  /** A frame was lost, and the next one has not been painted. */
  predicate FrameOwed(s: State) { s.phase == Dropped || s.phase == Stopped || (s.phase != Sending && s.repaint) }

  lemma ProducerKeepsOwed(s: State, step: ProducerStep)
    requires ProducerEnabled(s, step)
    ensures FrameOwed(s) ==> FrameOwed(ApplyProducer(s, step))
    ensures s.repaint ==> ApplyProducer(s, step).repaint
  {
  }

  lemma SelectKeepsOwed(s: State, step: SelectStep)
    requires SelectEnabled(s, step)
    ensures FrameOwed(s) ==> FrameOwed(ApplySelect(s, step))
    ensures s.repaint ==> ApplySelect(s, step).repaint
  {
  }

  lemma DrawKeepsOwed(s: State, step: DrawStep)
    requires DrawEnabled(s, step) && !step.Paint?
    ensures FrameOwed(s) ==> FrameOwed(ApplyDraw(s, step))
    ensures s.repaint ==> ApplyDraw(s, step).repaint
  {
  }

  lemma SendKeepsOwed(s: State, step: SendStep)
    requires SendEnabled(s, step)
    ensures FrameOwed(s) ==> FrameOwed(ApplySend(s, step))
    ensures s.repaint ==> ApplySend(s, step).repaint
  {
  }

  lemma StepKeepsOwed(s: State, step: Step)
    requires Enabled(s, step) && !IsPaint(step)
    ensures FrameOwed(s) ==> FrameOwed(Apply(s, step))
    ensures s.repaint ==> Apply(s, step).repaint
  {
    match step
    case Elapse(_) =>
    case Producer(p) => ProducerKeepsOwed(s, p);
    case Select(w) => SelectKeepsOwed(s, w);
    case Draw(r) => DrawKeepsOwed(s, r);
    case Send(t) => SendKeepsOwed(s, t);
  }

  lemma {:induction false} StaysOwed(s: State, steps: seq<Step>)
    requires Runs(s, steps) && NoPaint(steps)
    ensures FrameOwed(s) ==> FrameOwed(After(s, steps))
    ensures s.repaint ==> After(s, steps).repaint
    decreases |steps|
  {
    if steps != [] {
      StepKeepsOwed(s, steps[0]);
      StaysOwed(Apply(s, steps[0]), steps[1..]);
    }
  }

  /** A full repaint is owed and the loop is about to notice. */
  predicate RepaintArmed(s: State) { s.repaint && (s.inputPending || (s.dirty && s.permit)) }

  /** A frame whose write times out is made up for: until the next frame is painted, the parked
      loop owes a full repaint and is armed for it or has `dirty` with a permit, whatever happens
      in between. */
  lemma LostFrameIsRepainted(s: State, steps: seq<Step>)
    requires Inv(s) && s.phase == Sending && NoPaint(steps)
    requires Runs(Apply(s, Send(FrameTimedOut)), steps)
    ensures var t := After(Apply(s, Send(FrameTimedOut)), steps); t.phase == Waiting && Quiet(t) ==> RepaintArmed(t)
  {
    var dropped := Apply(s, Send(FrameTimedOut));
    StepKeepsInv(s, Send(FrameTimedOut));
    RunKeepsInv(dropped, steps);
    StaysOwed(dropped, steps);
  }

  /** So is a resize. */
  lemma ResizeIsRepainted(s: State, steps: seq<Step>)
    requires Inv(s) && s.lock == Nobody && NoPaint(steps)
    requires Runs(Apply(s, Producer(ResizeApp)), steps)
    ensures var t := After(Apply(s, Producer(ResizeApp)), steps);
            t.repaint && (t.phase == Waiting && Quiet(t) ==> RepaintArmed(t))
  {
    var resized := Apply(s, Producer(ResizeApp));
    StepKeepsInv(s, Producer(ResizeApp));
    RunKeepsInv(resized, steps);
    StaysOwed(resized, steps);
  }

  // --------------------------------------------------------------- when the loop ends

  /** A call failed, or an input made the app quit. */
  predicate Fatal(step: Step) {
    step in {Send(FrameFailed), Send(CommandsDone(false)), Draw(Paint(false)), Draw(HandleOne(false))}
  }

  /** Some call failed, an input quit, or the app was locked after a hang-up. */
  predicate Ended(steps: seq<Step>, hungUp: bool) {
    steps != [] && (Fatal(steps[0]) || (hungUp && steps[0] == Draw(LockApp)) ||
                    Ended(steps[1..], hungUp || steps[0] == Producer(HangUp)))
  }

  /** Until the loop ends the app runs unless it was hung up, and that never while it is drawn. */
  predicate EndInv(s: State, hungUp: bool) {
    && s.phase != Stopped && (s.running <==> !hungUp)
    && (s.lock == Loop <==> s.phase.Locked? || s.phase.Draining? || s.phase.Painting? || s.phase == Ringing)
    && (s.phase.Locked? || s.phase.Draining? || s.phase.Painting? ==> s.running)
  }

  lemma ProducerEnds(s: State, step: ProducerStep, hungUp: bool)
    requires EndInv(s, hungUp) && ProducerEnabled(s, step)
    ensures EndInv(ApplyProducer(s, step), hungUp || step == HangUp)
  {
  }

  lemma SelectEnds(s: State, step: SelectStep, hungUp: bool)
    requires EndInv(s, hungUp) && SelectEnabled(s, step)
    ensures EndInv(ApplySelect(s, step), hungUp)
  {
  }

  lemma DrawEnds(s: State, step: DrawStep, hungUp: bool)
    requires EndInv(s, hungUp) && DrawEnabled(s, step)
    ensures if step in {Paint(false), HandleOne(false)} || (hungUp && step == LockApp) then ApplyDraw(s, step).phase == Stopped
            else EndInv(ApplyDraw(s, step), hungUp)
  {
  }

  lemma SendEnds(s: State, step: SendStep, hungUp: bool)
    requires EndInv(s, hungUp) && SendEnabled(s, step)
    ensures if step in {FrameFailed, CommandsDone(false)} then ApplySend(s, step).phase == Stopped
            else EndInv(ApplySend(s, step), hungUp)
  {
  }

  lemma StepEnds(s: State, step: Step, hungUp: bool)
    requires EndInv(s, hungUp) && Enabled(s, step)
    ensures if Fatal(step) || (hungUp && step == Draw(LockApp)) then Apply(s, step).phase == Stopped
            else EndInv(Apply(s, step), hungUp || step == Producer(HangUp))
  {
    match step
    case Elapse(_) =>
    case Producer(p) => ProducerEnds(s, p, hungUp);
    case Select(w) => SelectEnds(s, w, hungUp);
    case Draw(r) => DrawEnds(s, r, hungUp);
    case Send(t) => SendEnds(s, t, hungUp);
  }

  lemma {:induction false} StoppedForGood(s: State, steps: seq<Step>)
    requires s.phase == Stopped && Runs(s, steps)
    ensures After(s, steps).phase == Stopped
    decreases |steps|
  {
    if steps != [] {
      StoppedForGood(Apply(s, steps[0]), steps[1..]);
    }
  }

  lemma {:induction false} EndsIff(s: State, steps: seq<Step>, hungUp: bool)
    requires EndInv(s, hungUp) && Runs(s, steps)
    ensures After(s, steps).phase == Stopped <==> Ended(steps, hungUp)
    decreases |steps|
  {
    if steps != [] {
      var s' := Apply(s, steps[0]);
      StepEnds(s, steps[0], hungUp);
      if s'.phase == Stopped {
        StoppedForGood(s', steps[1..]);
      } else {
        EndsIff(s', steps[1..], hungUp || steps[0] == Producer(HangUp));
      }
    }
  }

  /** In every run the loop has ended exactly when a call failed, an input quit, or it came to
      draw after a hang-up. */
  lemma LoopEndsIff(steps: seq<Step>)
    requires Runs(Start, steps)
    ensures After(Start, steps).phase == Stopped <==> Ended(steps, false)
  {
    EndsIff(Start, steps, false);
  }

  /** Nothing is being drawn or handled, and what is left of a pass under way is counted. */
  predicate HungUp(s: State, handled: seq<Input>, passes: nat) {
    && !s.running && s.handled == handled && !s.phase.Locked? && !s.phase.Draining? && !s.phase.Painting?
    && |s.log| <= passes
    && (s.phase.Chosen? || s.phase == Stopped ==> |s.log| <= passes)
    && (s.phase == Waiting || s.phase == Woken ==> |s.log| + 1 <= passes)
    && (s.phase in {Sending, Dropped, Ringing, Commands} ==> |s.log| + 2 <= passes)
  }

  lemma ProducerStaysHungUp(s: State, step: ProducerStep, handled: seq<Input>, passes: nat)
    requires HungUp(s, handled, passes) && ProducerEnabled(s, step)
    ensures HungUp(ApplyProducer(s, step), handled, passes)
  {
  }

  lemma SelectStaysHungUp(s: State, step: SelectStep, handled: seq<Input>, passes: nat)
    requires HungUp(s, handled, passes) && SelectEnabled(s, step)
    ensures HungUp(ApplySelect(s, step), handled, passes)
  {
  }

  lemma DrawStaysHungUp(s: State, step: DrawStep, handled: seq<Input>, passes: nat)
    requires HungUp(s, handled, passes) && DrawEnabled(s, step)
    ensures HungUp(ApplyDraw(s, step), handled, passes)
  {
  }

  lemma SendStaysHungUp(s: State, step: SendStep, handled: seq<Input>, passes: nat)
    requires HungUp(s, handled, passes) && SendEnabled(s, step)
    ensures HungUp(ApplySend(s, step), handled, passes)
  {
  }

  lemma StepStaysHungUp(s: State, step: Step, handled: seq<Input>, passes: nat)
    requires HungUp(s, handled, passes) && Enabled(s, step)
    ensures HungUp(Apply(s, step), handled, passes)
  {
    match step
    case Elapse(_) =>
    case Producer(p) => ProducerStaysHungUp(s, p, handled, passes);
    case Select(w) => SelectStaysHungUp(s, w, handled, passes);
    case Draw(r) => DrawStaysHungUp(s, r, handled, passes);
    case Send(t) => SendStaysHungUp(s, t, handled, passes);
  }

  lemma {:induction false} StaysHungUp(s: State, steps: seq<Step>, handled: seq<Input>, passes: nat)
    requires HungUp(s, handled, passes) && Runs(s, steps)
    ensures HungUp(After(s, steps), handled, passes)
    decreases |steps|
  {
    if steps != [] {
      StepStaysHungUp(s, steps[0], handled, passes);
      StaysHungUp(Apply(s, steps[0]), steps[1..], handled, passes);
    }
  }

  /** After a hang-up no input is handled and nothing is drawn any more: what is left is at most
      the end of the pass under way and the beginning of one that ends the loop. */
  lemma HangUpStopsLoop(s: State, steps: seq<Step>)
    requires Inv(s) && s.lock == Nobody && Runs(Apply(s, Producer(HangUp)), steps)
    ensures var t := After(Apply(s, Producer(HangUp)), steps);
            && t.handled == s.handled && |t.log| <= |s.log| + 2
            && !t.phase.Locked? && !t.phase.Draining? && !t.phase.Painting?
  {
    StaysHungUp(Apply(s, Producer(HangUp)), steps, s.handled, |s.log| + 2);
  }

  // --------------------------------------------------------------- the world and the renders

  /** The pass under way is to advance the world and has not done so. */
  predicate Advancing(p: Phase) {
    match p
    case Chosen(advance) => advance
    case Locked(advance) => advance
    case Draining(advance) => advance
    case Painting(advance) => advance
    case _ => false
  }

  predicate TicksMatch(p: Phase, ticks: nat, passes: nat) {
    if p == Stopped then ticks <= passes <= ticks + 1 else passes == ticks + (if Advancing(p) then 1 else 0)
  }

  ghost predicate TickInvariant(s: State) { TicksMatch(s.phase, s.ticks, |Begins(s.log, false)|) }

  lemma BeginsSnoc(log: seq<Event>, e: Event, throttled: bool)
    ensures Begins(log + [e], throttled) == Begins(log, throttled) + (if IsBegin(e, throttled) then [e.at] else [])
  {
    assert (log + [e])[..|log|] == log;
  }

  lemma ProducerKeepsTickInvariant(s: State, step: ProducerStep)
    requires TickInvariant(s) && ProducerEnabled(s, step)
    ensures TickInvariant(ApplyProducer(s, step))
  {
  }

  lemma SelectKeepsTickInvariant(s: State, step: SelectStep)
    requires TickInvariant(s) && SelectEnabled(s, step)
    ensures TickInvariant(ApplySelect(s, step))
  {
    BeginsSnoc(s.log, Begin(false, s.now), false);
    BeginsSnoc(s.log, Begin(true, s.now), false);
    BeginsSnoc(s.log, End(s.now), false);
    match step
    case TickFires =>
    case ThrottleFires =>
    case _ =>
  }

  lemma DrawKeepsTickInvariant(s: State, step: DrawStep, passes: nat)
    requires TicksMatch(s.phase, s.ticks, passes) && DrawEnabled(s, step)
    ensures TicksMatch(ApplyDraw(s, step).phase, ApplyDraw(s, step).ticks, passes)
  {
    match step
    case LockApp =>
    case HandleOne(_) =>
    case Paint(_) =>
    case _ =>
  }

  lemma SendKeepsTickInvariant(s: State, step: SendStep, passes: nat)
    requires TicksMatch(s.phase, s.ticks, passes) && SendEnabled(s, step)
    ensures TicksMatch(ApplySend(s, step).phase, ApplySend(s, step).ticks, passes)
  {
    match step
    case ForceRepaint =>
    case CommandsDone(_) =>
    case _ =>
  }

  lemma SendBeginsNothing(s: State, step: SendStep, throttled: bool)
    requires SendEnabled(s, step)
    ensures Begins(ApplySend(s, step).log, throttled) == Begins(s.log, throttled)
  {
    BeginsSnoc(s.log, End(s.now), throttled);
    if step != CommandsDone(true) {
      SendLeavesLog(s, step);
    }
  }

  lemma StepKeepsTickInvariant(s: State, step: Step)
    requires TickInvariant(s) && Enabled(s, step)
    ensures TickInvariant(Apply(s, step))
  {
    match step
    case Elapse(_) =>
    case Producer(p) => ProducerKeepsTickInvariant(s, p);
    case Select(w) => SelectKeepsTickInvariant(s, w);
    case Draw(r) =>
      DrawKeepsTickInvariant(s, r, |Begins(s.log, false)|);
      DrawLeaves(s, r);
    case Send(t) =>
      SendKeepsTickInvariant(s, t, |Begins(s.log, false)|);
      SendBeginsNothing(s, t, false);
  }

  lemma {:induction false} RunKeepsTickInvariant(s: State, steps: seq<Step>)
    requires TickInvariant(s) && Runs(s, steps)
    ensures TickInvariant(After(s, steps))
    decreases |steps|
  {
    if steps != [] {
      StepKeepsTickInvariant(s, steps[0]);
      RunKeepsTickInvariant(Apply(s, steps[0]), steps[1..]);
    }
  }

  /** The world advances once in every tick pass and in no other: in every run the advances are the
      tick passes begun, but for one that is under way or that the loop ended in. */
  lemma WorldAdvancesPerTick(steps: seq<Step>)
    requires Runs(Start, steps)
    ensures var t := After(Start, steps);
            if t.phase == Stopped then t.ticks <= |Begins(t.log, false)| <= t.ticks + 1
            else |Begins(t.log, false)| == t.ticks + (if Advancing(t.phase) then 1 else 0)
  {
    RunKeepsTickInvariant(Start, steps);
  }

  /** The cell of the tick grid a time falls into. */
  function Cell(at: nat): nat { at / 66 }

  /** A tick pass begun in the same cell, before. */
  ghost predicate TickBefore(log: seq<Event>, n: nat, at: nat)
    requires n <= |log|
  {
    exists i :: 0 <= i < n && IsBegin(log[i], false) && Cell(log[i].at) == Cell(at)
  }

  ghost predicate FirstInCell(log: seq<Event>, nextTick: nat, now: nat) {
    && (forall i :: 0 <= i < |log| ==> log[i].at <= now)
    && nextTick % 66 == 0
    && (nextTick > 0 ==> exists i :: 0 <= i < |log| && IsBegin(log[i], false) && 66 * (Cell(log[i].at) + 1) == nextTick)
    && (forall j :: 0 <= j < |log| && IsBegin(log[j], true) ==> TickBefore(log, j, log[j].at))
  }

  lemma CellsGrow(log: seq<Event>, nextTick: nat, now: nat, e: Event)
    requires FirstInCell(log, nextTick, now) && e.at == now && (IsBegin(e, true) ==> TickBefore(log, |log|, now))
    ensures FirstInCell(log + [e], nextTick, now)
  {
    var more := log + [e];
    assert forall i :: 0 <= i < |log| ==> more[i] == log[i];
    if nextTick > 0 {
      var i :| 0 <= i < |log| && IsBegin(log[i], false) && 66 * (Cell(log[i].at) + 1) == nextTick;
      assert IsBegin(more[i], false);
    }
    forall j | 0 <= j < |more| && IsBegin(more[j], true) ensures TickBefore(more, j, more[j].at) {
      var i :| 0 <= i < j && IsBegin(log[i], false) && Cell(log[i].at) == Cell(more[j].at);
      assert IsBegin(more[i], false);
    }
  }

  lemma NextCell(now: nat, nextTick: nat)
    requires nextTick <= now && nextTick % 66 == 0
    ensures now + 66 - (now - nextTick) % 66 == 66 * (Cell(now) + 1)
  {
  }

  lemma SameCell(at: nat, now: nat, nextTick: nat)
    requires at <= now < nextTick == 66 * (Cell(at) + 1)
    ensures Cell(now) == Cell(at)
  {
  }

  lemma SelectKeepsCells(s: State, step: SelectStep)
    requires FirstInCell(s.log, s.nextTick, s.now) && SelectEnabled(s, step)
    ensures var s' := ApplySelect(s, step); FirstInCell(s'.log, s'.nextTick, s.now)
  {
    match step
    case TickFires =>
      var begin := Begin(false, s.now);
      CellsGrow(s.log, s.nextTick, s.now, begin);
      NextCell(s.now, s.nextTick);
      var log := s.log + [begin];
      assert IsBegin(log[|s.log|], false) && Cell(log[|s.log|].at) == Cell(s.now);
    case ThrottleFires =>
      var i :| 0 <= i < |s.log| && IsBegin(s.log[i], false) && 66 * (Cell(s.log[i].at) + 1) == s.nextTick;
      SameCell(s.log[i].at, s.now, s.nextTick);
      CellsGrow(s.log, s.nextTick, s.now, Begin(true, s.now));
    case _ =>
  }

  lemma SendKeepsCells(s: State, step: SendStep)
    requires FirstInCell(s.log, s.nextTick, s.now) && SendEnabled(s, step)
    ensures var s' := ApplySend(s, step); FirstInCell(s'.log, s'.nextTick, s.now)
  {
    if step == CommandsDone(true) {
      CellsGrow(s.log, s.nextTick, s.now, End(s.now));
    } else {
      SendLeavesLog(s, step);
    }
  }

  lemma SendLeavesLog(s: State, step: SendStep)
    requires SendEnabled(s, step) && step != CommandsDone(true)
    ensures ApplySend(s, step).log == s.log && ApplySend(s, step).nextTick == s.nextTick
  {
    match step
    case ForceRepaint =>
    case CommandsDone(_) =>
    case _ =>
  }

  lemma DrawLeavesLog(s: State, step: DrawStep)
    requires DrawEnabled(s, step)
    ensures ApplyDraw(s, step).log == s.log && ApplyDraw(s, step).nextTick == s.nextTick && ApplyDraw(s, step).now == s.now
  {
    match step
    case LockApp =>
    case HandleOne(_) =>
    case Paint(_) =>
    case _ =>
  }

  lemma SendLeavesNow(s: State, step: SendStep)
    requires SendEnabled(s, step)
    ensures ApplySend(s, step).now == s.now
  {
    match step
    case ForceRepaint =>
    case CommandsDone(_) =>
    case _ =>
  }

  lemma NowStays(s: State, step: Step)
    requires Enabled(s, step) && !step.Elapse?
    ensures Apply(s, step).now == s.now
  {
    match step
    case Producer(p) => ProducerLeavesLoop(s, p);
    case Select(_) =>
    case Draw(r) => DrawLeavesLog(s, r);
    case Send(t) => SendLeavesNow(s, t);
  }

  lemma StepKeepsCells(s: State, step: Step)
    requires FirstInCell(s.log, s.nextTick, s.now) && Enabled(s, step)
    ensures var s' := Apply(s, step); FirstInCell(s'.log, s'.nextTick, s'.now)
  {
    match step
    case Elapse(_) =>
    case Producer(p) =>
      ProducerLeavesLoop(s, p);
      NowStays(s, step);
    case Select(w) =>
      SelectKeepsCells(s, w);
      NowStays(s, step);
    case Draw(r) => DrawLeavesLog(s, r);
    case Send(t) =>
      SendKeepsCells(s, t);
      NowStays(s, step);
  }

  lemma {:induction false} RunKeepsCells(s: State, steps: seq<Step>)
    requires FirstInCell(s.log, s.nextTick, s.now) && Runs(s, steps)
    ensures var t := After(s, steps); FirstInCell(t.log, t.nextTick, t.now)
    decreases |steps|
  {
    if steps != [] {
      StepKeepsCells(s, steps[0]);
      RunKeepsCells(Apply(s, steps[0]), steps[1..]);
    }
  }

  /** No flood of input starves the world: in every interval of the tick grid in which the loop
      renders at all, it begins with a tick pass. */
  lemma TickComesFirst(steps: seq<Step>, j: nat)
    requires Runs(Start, steps) && j < |After(Start, steps).log| && IsBegin(After(Start, steps).log[j], true)
    ensures var log := After(Start, steps).log;
            exists i :: 0 <= i < j && IsBegin(log[i], false) && log[i].at / 66 == log[j].at / 66
  {
    RunKeepsCells(Start, steps);
    var log := After(Start, steps).log;
    assert TickBefore(log, j, log[j].at);
  }

  /** How often `dirty` was raised: each raise posts a permit, or is about to. */
  function Raises(s: State): nat { s.posted + s.stored + (if s.phase == Ringing then 1 else 0) }

  ghost predicate PaidInv(s: State) {
    && (s.inputPending ==> s.dirty && s.phase == Waiting)
    && |Begins(s.log, true)| + (if s.dirty && !s.phase.Chosen? && !s.phase.Locked? && s.phase != Stopped then 1 else 0) <= Raises(s)
  }

  lemma ProducerKeepsPaidInv(s: State, step: ProducerStep)
    requires PaidInv(s) && ProducerEnabled(s, step)
    ensures PaidInv(ApplyProducer(s, step))
  {
  }

  lemma SelectKeepsPaidInv(s: State, step: SelectStep)
    requires PaidInv(s) && SelectEnabled(s, step)
    ensures PaidInv(ApplySelect(s, step))
  {
    BeginsSnoc(s.log, Begin(false, s.now), true);
    BeginsSnoc(s.log, Begin(true, s.now), true);
    BeginsSnoc(s.log, End(s.now), true);
  }

  lemma DrawKeepsPaidInv(s: State, step: DrawStep)
    requires PaidInv(s) && DrawEnabled(s, step)
    ensures PaidInv(ApplyDraw(s, step))
  {
  }

  lemma SendKeepsPaidInv(s: State, step: SendStep)
    requires PaidInv(s) && SendEnabled(s, step)
    ensures PaidInv(ApplySend(s, step))
  {
    BeginsSnoc(s.log, Begin(false, s.now), true);
    BeginsSnoc(s.log, Begin(true, s.now), true);
    BeginsSnoc(s.log, End(s.now), true);
  }

  lemma StepKeepsPaidInv(s: State, step: Step)
    requires PaidInv(s) && Enabled(s, step)
    ensures PaidInv(Apply(s, step))
  {
    match step
    case Elapse(_) =>
    case Producer(p) => ProducerKeepsPaidInv(s, p);
    case Select(w) => SelectKeepsPaidInv(s, w);
    case Draw(r) => DrawKeepsPaidInv(s, r);
    case Send(t) => SendKeepsPaidInv(s, t);
  }

  lemma {:induction false} RunKeepsPaidInv(s: State, steps: seq<Step>)
    requires PaidInv(s) && Runs(s, steps)
    ensures PaidInv(After(s, steps))
    decreases |steps|
  {
    if steps != [] {
      StepKeepsPaidInv(s, steps[0]);
      RunKeepsPaidInv(Apply(s, steps[0]), steps[1..]);
    }
  }

  /** No render is spurious: a loop is armed only while `dirty` is up, and throttled passes never
      outnumber the times it was raised. */
  lemma RendersArePaidFor(steps: seq<Step>)
    requires Runs(Start, steps)
    ensures var t := After(Start, steps); |Begins(t.log, true)| <= Raises(t) && (t.inputPending ==> t.dirty)
  {
    RunKeepsPaidInv(Start, steps);
  }

  // --------------------------------------------------------------- input is served promptly

  ghost function Pops(n: nat): seq<Step> {
    seq(n, _ => Draw(HandleOne(true)))
  }

  lemma {:induction false} DrainAll(s: State)
    requires s.phase.Draining? && s.running
    ensures Runs(s, Pops(|s.queue|))
    ensures After(s, Pops(|s.queue|)) == s.(queue := [], handled := s.handled + s.queue)
    decreases |s.queue|
  {
    if s.queue != [] {
      var s' := Apply(s, Draw(HandleOne(true)));
      DrainAll(s');
      assert Pops(|s.queue|)[1..] == Pops(|s'.queue|);
      assert s.handled + s.queue == (s.handled + [s.queue[0]]) + s.queue[1..];
    } else {
      assert s == s.(queue := [], handled := s.handled + s.queue);
    }
  }

  /** A whole first lock section with `n` inputs queued, none of which quits. */
  ghost function PassSteps(n: nat): seq<Step> {
    [Draw(LockApp), Draw(ClearDirty)] + (Pops(n) + [Draw(QueueEmpty), Draw(Paint(true))])
  }

  ghost function Painted(s: State): State
    requires s.phase.Chosen?
  {
    s.(phase := Sending, dirty := false, repaint := false, queue := [], handled := s.handled + s.queue,
       ticks := s.ticks + (if s.phase.advance then 1 else 0))
  }

  lemma TwoSteps(s: State, a: Step, b: Step)
    requires Enabled(s, a) && Enabled(Apply(s, a), b)
    ensures Runs(s, [a, b]) && After(s, [a, b]) == Apply(Apply(s, a), b)
  {
    var s' := Apply(s, a);
    assert [a, b][1..] == [b] && [b][1..] == [];
    assert Runs(Apply(s', b), []) && Runs(s', [b]);
    assert After(s', [b]) == Apply(s', b);
  }

  lemma WholePass(s: State)
    requires s.phase.Chosen? && s.lock == Nobody && s.running
    ensures Runs(s, PassSteps(|s.queue|)) && After(s, PassSteps(|s.queue|)) == Painted(s)
  {
    TwoSteps(s, Draw(LockApp), Draw(ClearDirty));
    var s1 := After(s, [Draw(LockApp), Draw(ClearDirty)]);
    DrainAll(s1);
    var s2 := After(s1, Pops(|s.queue|));
    TwoSteps(s2, Draw(QueueEmpty), Draw(Paint(true)));
    RunsConcat(s1, Pops(|s.queue|), [Draw(QueueEmpty), Draw(Paint(true))]);
    RunsConcat(s, [Draw(LockApp), Draw(ClearDirty)], Pops(|s.queue|) + [Draw(QueueEmpty), Draw(Paint(true))]);
  }

  /** When the throttle lets the next render through. */
  function Deadline(s: State): nat {
    if s.previousRender.Some? && s.now < s.previousRender.value + MIN_RENDER_GAP
    then s.previousRender.value + MIN_RENDER_GAP else s.now
  }

  // --------------------------------------------------------------- on every schedule

  /** Steps of the loop alone, in which no call fails and no input quits. */
  predicate Calm(step: Step) {
    match step
    case Elapse(d) => d > 0
    case Producer(_) => false
    case Select(_) => true
    case Draw(HandleOne(stillRunning)) => stillRunning
    case Draw(Paint(ok)) => ok
    case Draw(_) => true
    case Send(CommandsDone(ok)) => ok
    case Send(FrameFailed) => false
    case Send(FrameTimedOut) => false
    case Send(_) => true
  }

  /** The loop can take a step now. */
  predicate LoopReady(s: State) {
    match s.phase
    case Waiting => TickDue(s) || (s.inputPending && GapElapsed(s)) || (!s.inputPending && s.permit)
    case Chosen(_) => s.lock == Nobody
    case Dropped => s.lock == Nobody
    case Stopped => false
    case _ => true
  }

  /** Time does not pass while the loop can take a step. */
  ghost predicate Prompt(s: State, step: Step) {
    Enabled(s, step) && Calm(step) && (step.Elapse? ==> Idles(s, step.d))
  }

  ghost predicate Idles(s: State, d: nat) {
    forall now: nat :: s.now <= now < s.now + d ==> !LoopReady(s.(now := now))
  }

  ghost predicate PromptRun(s: State, steps: seq<Step>)
    decreases |steps|
  {
    steps == [] || (Prompt(s, steps[0]) && PromptRun(Apply(s, steps[0]), steps[1..]))
  }

  /** The loop is ready exactly when it has such a step other than waiting. */
  lemma ReadyMeansStep(s: State)
    ensures LoopReady(s) <==> exists step :: Enabled(s, step) && Calm(step) && !step.Elapse?
  {
    if LoopReady(s) {
      var step :=
        match s.phase
        case Waiting => Select(if TickDue(s) then TickFires else if s.inputPending then ThrottleFires else PermitTaken)
        case Woken => Select(DirtyLoaded)
        case Chosen(_) => Draw(LockApp)
        case Locked(_) => Draw(ClearDirty)
        case Draining(_) => Draw(if s.queue == [] then QueueEmpty else HandleOne(true))
        case Painting(_) => Draw(Paint(true))
        case Sending => Send(FrameSent)
        case Dropped => Send(ForceRepaint)
        case Ringing => Send(Ring)
        case _ => Send(CommandsDone(true));
      assert Enabled(s, step) && Calm(step) && !step.Elapse?;
    }
  }

  /** A fresh frame that shows all accepted input is painted by the deadline. */
  predicate Served(s: State, accepted: seq<Input>, deadline: nat) {
    s.phase == Sending && s.handled == accepted && !s.repaint && s.now <= deadline
  }

  /** Nothing but the loop is left to act, and it is on its way to such a frame. */
  predicate OnItsWay(s: State, accepted: seq<Input>, deadline: nat) {
    && s.running && s.accepted == accepted == s.handled + s.queue && s.now <= deadline
    && (s.previousRender.Some? ==> s.previousRender.value + MIN_RENDER_GAP <= deadline)
    && (s.lock == Loop <==> s.phase.Locked? || s.phase.Draining? || s.phase.Painting?) && s.lock != Resizer
    && match s.phase
       case Waiting => s.inputPending || TickDue(s) || (s.dirty && s.permit)
       case Woken => s.dirty
       case Chosen(_) => true
       case Locked(_) => true
       case Draining(_) => true
       case Painting(_) => s.queue == []
       case _ => false
  }

  /** How many more steps it can take at most. */
  function StepsLeft(s: State, deadline: nat): nat
    requires s.now <= deadline
  {
    match s.phase
    case Waiting => |s.queue| + (if s.inputPending then 6 else 8) + (deadline - s.now)
    case Woken => |s.queue| + 7 + (deadline - s.now)
    case Chosen(_) => |s.queue| + 5
    case Locked(_) => |s.queue| + 4
    case Draining(_) => |s.queue| + 3
    case Painting(_) => 2
    case _ => 0
  }

  lemma PromptSelect(s: State, step: SelectStep, accepted: seq<Input>, deadline: nat)
    requires OnItsWay(s, accepted, deadline) && SelectEnabled(s, step)
    ensures var s' := ApplySelect(s, step); OnItsWay(s', accepted, deadline) && StepsLeft(s', deadline) < StepsLeft(s, deadline)
  {
  }

  lemma PromptDraw(s: State, step: DrawStep, accepted: seq<Input>, deadline: nat)
    requires OnItsWay(s, accepted, deadline) && DrawEnabled(s, step) && Calm(Draw(step))
    ensures var s' := ApplyDraw(s, step);
            Served(s', accepted, deadline) || (OnItsWay(s', accepted, deadline) && StepsLeft(s', deadline) < StepsLeft(s, deadline))
  {
    if step.HandleOne? {
      assert s.handled + s.queue == (s.handled + [s.queue[0]]) + s.queue[1..];
    }
    if s.phase.Painting? {
      assert s.handled + s.queue == s.handled;
    }
  }

  lemma PromptElapse(s: State, d: nat, accepted: seq<Input>, deadline: nat)
    requires OnItsWay(s, accepted, deadline) && d > 0 && Idles(s, d)
    ensures var s' := Apply(s, Elapse(d)); OnItsWay(s', accepted, deadline) && StepsLeft(s', deadline) < StepsLeft(s, deadline)
  {
    assert !LoopReady(s.(now := s.now)) && s.(now := s.now) == s;
    var last := s.now + d - 1;
    assert !LoopReady(s.(now := last));
    assert !GapElapsed(s.(now := last));
  }

  lemma PromptStep(s: State, step: Step, accepted: seq<Input>, deadline: nat)
    requires OnItsWay(s, accepted, deadline) && Prompt(s, step)
    ensures var s' := Apply(s, step);
            Served(s', accepted, deadline) || (OnItsWay(s', accepted, deadline) && StepsLeft(s', deadline) < StepsLeft(s, deadline))
  {
    match step
    case Elapse(d) => PromptElapse(s, d, accepted, deadline);
    case Select(w) => PromptSelect(s, w, accepted, deadline);
    case Draw(w) => PromptDraw(s, w, accepted, deadline);
    case _ =>
  }

  lemma NeverStuck(s: State, accepted: seq<Input>, deadline: nat) returns (step: Step)
    requires OnItsWay(s, accepted, deadline)
    ensures Prompt(s, step)
  {
    ReadyMeansStep(s);
    if LoopReady(s) {
      step :| Enabled(s, step) && Calm(step) && !step.Elapse?;
    } else {
      step := Elapse(1);
      assert forall now: nat :: s.now <= now < s.now + 1 ==> s.(now := now) == s;
    }
  }

  lemma {:induction false} PromptRunServes(s: State, steps: seq<Step>, accepted: seq<Input>, deadline: nat) returns (i: nat)
    requires OnItsWay(s, accepted, deadline) && PromptRun(s, steps)
    ensures i <= |steps| && Runs(s, steps[..i])
    ensures var t := After(s, steps[..i]);
            Served(t, accepted, deadline) || (i == |steps| < StepsLeft(s, deadline) && OnItsWay(t, accepted, deadline))
    decreases |steps|
  {
    if steps == [] {
      i := 0;
    } else {
      var s' := Apply(s, steps[0]);
      PromptStep(s, steps[0], accepted, deadline);
      if Served(s', accepted, deadline) {
        i := 1;
        OneStep(s, steps[0]);
        assert steps[..1] == [steps[0]];
      } else {
        var j := PromptRunServes(s', steps[1..], accepted, deadline);
        i := j + 1;
        assert steps[..i][1..] == steps[1..][..j];
        FirstStep(s, steps[..i]);
      }
    }
  }

  /** Whenever the loop is parked with work owed and no producer half way: however the loop is
      scheduled, as long as no call fails and time does not pass while it can take a step, it
      paints a frame with all accepted input by the throttle deadline, after a bounded number of
      steps and without ever being stuck before. */
  lemma EveryScheduleServes(s: State, steps: seq<Step>) returns (i: nat)
    requires Inv(s) && s.phase == Waiting && Quiet(s) && Owed(s) && s.running && PromptRun(s, steps)
    ensures i <= |steps| && Runs(s, steps[..i])
    ensures var t := After(s, steps[..i]);
            || Served(t, s.accepted, Deadline(s))
            || (i == |steps| < StepsLeft(s, Deadline(s)) && exists next :: Prompt(t, next))
  {
    i := PromptRunServes(s, steps, s.accepted, Deadline(s));
    var t := After(s, steps[..i]);
    if !Served(t, s.accepted, Deadline(s)) {
      var next := NeverStuck(t, s.accepted, Deadline(s));
    }
  }

  lemma {:induction false} PromptSchedule(s: State, accepted: seq<Input>, deadline: nat) returns (steps: seq<Step>)
    requires OnItsWay(s, accepted, deadline)
    ensures PromptRun(s, steps) && Runs(s, steps) && Served(After(s, steps), accepted, deadline)
    decreases StepsLeft(s, deadline)
  {
    var step := NeverStuck(s, accepted, deadline);
    PromptStep(s, step, accepted, deadline);
    var s' := Apply(s, step);
    var rest := [];
    if !Served(s', accepted, deadline) {
      rest := PromptSchedule(s', accepted, deadline);
    }
    steps := [step] + rest;
    assert steps[0] == step && steps[1..] == rest;
  }

  /** There is such a schedule from every such state, and it ends with that frame. */
  lemma ServedPromptly(s: State) returns (steps: seq<Step>)
    requires Inv(s) && s.phase == Waiting && Quiet(s) && Owed(s) && s.running
    ensures PromptRun(s, steps) && Runs(s, steps) && Served(After(s, steps), s.accepted, Deadline(s))
  {
    steps := PromptSchedule(s, s.accepted, Deadline(s));
  }

  // --------------------------------------------------------------- the code in place

  datatype RenderAction = AdvanceWorld | Render | Skip

  /** The steps one poll of the select takes; none when no arm is ready. */
  ghost function PollSteps(s: State): seq<Step> {
    if TickDue(s) then [Select(TickFires)]
    else if s.inputPending then (if GapElapsed(s) then [Select(ThrottleFires)] else [])
    else if s.permit then [Select(PermitTaken), Select(DirtyLoaded)]
    else []
  }

  /** The steps of `while let Ok(data) = input_rx.try_recv()`, stopping at the first
      input that makes the app quit. */
  ghost function DrainSteps(queue: seq<Input>, keepsRunning: Input -> bool): seq<Step> {
    if queue == [] then [Draw(QueueEmpty)]
    else if keepsRunning(queue[0]) then [Draw(HandleOne(true))] + DrainSteps(queue[1..], keepsRunning)
    else [Draw(HandleOne(false))]
  }

  /** How many inputs that loop handles: all of them, or up to the first that quits. */
  function TakenCount(queue: seq<Input>, keepsRunning: Input -> bool): (n: nat)
    ensures n <= |queue|
  {
    if queue == [] then 0
    else if keepsRunning(queue[0]) then 1 + TakenCount(queue[1..], keepsRunning)
    else 1
  }

  predicate AllKeepRunning(queue: seq<Input>, keepsRunning: Input -> bool) {
    forall i :: 0 <= i < |queue| ==> keepsRunning(queue[i])
  }

  /** The drain loop is the machine's drain: it handles that many inputs, leaves the
      rest queued, and ends with the queue seen empty or with the app stopped. */
  lemma {:induction false} DrainRuns(s: State, keepsRunning: Input -> bool)
    requires s.phase.Draining? && s.running
    ensures Runs(s, DrainSteps(s.queue, keepsRunning))
    ensures var s' := After(s, DrainSteps(s.queue, keepsRunning));
            var n := TakenCount(s.queue, keepsRunning);
            && s'.handled == s.handled + s.queue[..n] && s'.queue == s.queue[n..]
            && (s'.running <==> AllKeepRunning(s.queue, keepsRunning))
            && s'.phase == (if s'.running then Painting(s.phase.advance) else Stopped)
    decreases |s.queue|
  {
    var steps := DrainSteps(s.queue, keepsRunning);
    if s.queue == [] {
      OneStep(s, Draw(QueueEmpty));
    } else if keepsRunning(s.queue[0]) {
      var s1 := ApplyDraw(s, HandleOne(true));
      DrainRuns(s1, keepsRunning);
      assert steps[0] == Draw(HandleOne(true)) && steps[1..] == DrainSteps(s1.queue, keepsRunning);
      FirstStep(s, steps);
      PopOne(s.handled, s.queue, keepsRunning);
    } else {
      OneStep(s, Draw(HandleOne(false)));
    }
  }

  lemma PopOne(handled: seq<Input>, queue: seq<Input>, keepsRunning: Input -> bool)
    requires queue != [] && keepsRunning(queue[0])
    ensures var rest := queue[1..];
            var n := TakenCount(rest, keepsRunning);
            && (handled + [queue[0]]) + rest[..n] == handled + queue[..1 + n]
            && rest[n..] == queue[1 + n..]
            && (AllKeepRunning(rest, keepsRunning) <==> AllKeepRunning(queue, keepsRunning))
  {
    var rest := queue[1..];
    assert forall i :: 1 <= i < |queue| ==> queue[i] == rest[i - 1];
  }

  lemma FirstStep(s: State, steps: seq<Step>)
    requires steps != [] && Enabled(s, steps[0]) && Runs(Apply(s, steps[0]), steps[1..])
    ensures Runs(s, steps) && After(s, steps) == After(Apply(s, steps[0]), steps[1..])
  {
  }

  lemma OneStep(s: State, a: Step)
    requires Enabled(s, a)
    ensures Runs(s, [a]) && After(s, [a]) == Apply(s, a)
  {
    assert [a][1..] == [];
    assert Runs(Apply(s, a), []);
  }

  /** `dirty` and the stored permit, as shared by the loop and its producers. */
  class RenderSignal {
    var dirty: bool
    var permit: bool

    ghost predicate Shows(s: State)
      reads this
    {
      s.dirty == dirty && s.permit == permit
    }

    constructor ()
      ensures Shows(Start)
    {
      dirty, permit := false, false;
    }

    /** Called by a producer, with input queued or not: raise the flag, then ring. */
    method Wake(ghost s: State, ghost queued: bool)
      requires Shows(s) && (queued ==> s.enqueued > 0)
      modifies this
      ensures Runs(s, WakeSteps(queued)) && Shows(After(s, WakeSteps(queued)))
    {
      TwoSteps(s, WakeSteps(queued)[0], Producer(Notify));
      dirty := true;
      permit := true;
    }

    /** next_render_action, polled once: what the loop does next (`None` while no arm
        is ready) and the new value of `input_pending`. */
    method NextRenderAction(tickDue: bool, gapElapsed: bool, inputPending: bool, ghost s: State)
      returns (action: Option<RenderAction>, pending: bool)
      requires Shows(s) && s.phase == Waiting
      requires tickDue == TickDue(s) && gapElapsed == GapElapsed(s) && inputPending == s.inputPending
      modifies this
      ensures Runs(s, PollSteps(s)) && Shows(After(s, PollSteps(s)))
      ensures pending == After(s, PollSteps(s)).inputPending
      ensures match action
              case None => PollSteps(s) == []
              case Some(AdvanceWorld) => After(s, PollSteps(s)).phase == Chosen(true)
              case Some(Render) => After(s, PollSteps(s)).phase == Chosen(false)
              case Some(Skip) => PollSteps(s) != [] && After(s, PollSteps(s)).phase == Waiting
    {
      pending := inputPending;
      if tickDue {
        OneStep(s, Select(TickFires));
        return Some(AdvanceWorld), false;
      } else if inputPending && gapElapsed {
        OneStep(s, Select(ThrottleFires));
        return Some(Render), false;
      } else if !inputPending && permit {
        TwoSteps(s, Select(PermitTaken), Select(DirtyLoaded));
        permit := false;
        if dirty {
          pending := true;
        }
        return Some(Skip), pending;
      }
      return None, pending;
    }
  }

  ghost function WakeSteps(queued: bool): seq<Step> {
    [Producer(if queued then StoreDirty else SpontaneousStore), Producer(Notify)]
  }

  /** The drain loop of render_once, on the queue the app lock finds. */
  method Drain(queued: seq<Input>, keepsRunning: Input -> bool)
    returns (queue: seq<Input>, running: bool, handled: seq<Input>)
    ensures var n := TakenCount(queued, keepsRunning); handled == queued[..n] && queue == queued[n..]
    ensures running <==> AllKeepRunning(queued, keepsRunning)
  {
    queue, running, handled := queued, true, [];
    while queue != []
      invariant |handled| <= |queued| && handled == queued[..|handled|] && queue == queued[|handled|..]
      invariant TakenCount(queued, keepsRunning) == |handled| + TakenCount(queue, keepsRunning)
      invariant AllKeepRunning(handled, keepsRunning)
      decreases |queue|
    {
      var data := queue[0];
      handled := handled + [data];
      queue := queue[1..];
      if !keepsRunning(data) {
        assert queued[|handled| - 1] == data;
        running := false;
        return;
      }
    }
  }
}
