/** The crash back-off of the embedded webview helper, `late-cli/src/ws.rs`.

    A controller starts a helper process when the playback source asks for it, notices
    lazily that the helper has died, and stops trying for five minutes after three
    failures.  The failures are counted in a window anchored at its first failure, so
    the bound over an arbitrary minute is weaker than the limit suggests.  Times are
    readings, in nanoseconds, of one monotone clock. */
module HelperBackoff {
  import opened Wrappers
  import opened Timelines

  const SECOND: nat := 1_000_000_000
  const CRASH_WINDOW: nat := 60 * SECOND
  const CRASH_LIMIT: nat := 3
  const CRASH_BACKOFF: nat := 300 * SECOND

  // --------------------------------------------------------------- the controller on values

  datatype Controller = Controller(
    child: bool,
    wantsYoutube: bool,
    crashWindowStarted: Option<nat>,
    crashCount: nat,
    disabledUntil: Option<nat>)

  /** What happened: a failure, with whether it switched the helper off, or an attempt to
      start the helper made right after reading the clock. */
  datatype Event = Failed(at: nat, disables: bool) | SpawnTried(at: nat)

  /** What asking the operating system about the tracked child answers. */
  datatype Probe = StillRunning | HasExited | InspectFailed

  /** How starting the helper goes. */
  datatype Launch = NoExecutable | NoLogFile | SpawnFailed | TokenNotPassed | Started

  datatype World = World(controller: Controller, clock: nat, log: seq<Event>)

  const START := World(Controller(false, false, None, 0, None), 0, [])

  function SaturatingU8(n: nat): nat { if n < 255 then n + 1 else 255 }

  /** record_helper_failure(). */
  function FailureRecorded(c: Controller, now: nat): Controller {
    var counted :=
      if c.crashWindowStarted.Some? && now - c.crashWindowStarted.value <= CRASH_WINDOW then
        c.(crashCount := SaturatingU8(c.crashCount))
      else
        c.(crashWindowStarted := Some(now), crashCount := 1);
    if counted.crashCount >= CRASH_LIMIT then
      counted.(disabledUntil := Some(now + CRASH_BACKOFF))
    else
      counted
  }

  function Disables(c: Controller, now: nat): bool {
    FailureRecorded(c, now).crashCount >= CRASH_LIMIT
  }

  function WithFailure(w: World, now: nat): World {
    World(FailureRecorded(w.controller, now), now, w.log + [Failed(now, Disables(w.controller, now))])
  }

  predicate BackoffActiveAt(c: Controller, now: nat) {
    c.disabledUntil.Some? && now < c.disabledUntil.value
  }

  /** helper_backoff_active(): an expired back-off is forgotten together with the count. */
  function BackoffChecked(c: Controller, now: nat): Controller {
    if c.disabledUntil.None? || now < c.disabledUntil.value then c
    else c.(disabledUntil := None, crashWindowStarted := None, crashCount := 0)
  }

  /** helper_is_running(), when a child is tracked and it is not running: it is let go, and
      that is a failure. */
  function Probed(w: World, probe: Probe, now: nat): World {
    if w.controller.child && probe != StillRunning then
      WithFailure(w.(controller := w.controller.(child := false)), now)
    else
      w
  }

  /** The part of enter_youtube() after the guards. */
  function Launched(w: World, launch: Launch, check: nat, end: nat): World {
    match launch
    case NoExecutable => WithFailure(w, end)
    case NoLogFile => WithFailure(w, end)
    case SpawnFailed => WithFailure(w.(log := w.log + [SpawnTried(check)]), end)
    case TokenNotPassed => WithFailure(w.(log := w.log + [SpawnTried(check)]), end)
    case Started => w.(controller := w.controller.(child := true), log := w.log + [SpawnTried(check)])
  }

  datatype Step =
    | EnterYoutube(probe: Probe, launch: Launch, begin: nat, check: nat, end: nat)
    | LeaveYoutube(at: nat)

  predicate Legal(w: World, step: Step) {
    match step
    case EnterYoutube(_, _, begin, check, end) => w.clock <= begin <= check <= end
    case LeaveYoutube(at) => w.clock <= at
  }

  predicate StaysUp(w: World, probe: Probe) { w.controller.child && probe == StillRunning }

  function Apply(w: World, step: Step): World {
    match step
    case EnterYoutube(probe, launch, begin, check, end) =>
      var asked := w.(controller := w.controller.(wantsYoutube := true));
      if StaysUp(asked, probe) then asked.(clock := end)
      else
        var probed := Probed(asked, probe, begin);
        if BackoffActiveAt(probed.controller, check) then probed.(clock := end)
        else
          Launched(probed.(controller := BackoffChecked(probed.controller, check)), launch, check, end).(clock := end)
    case LeaveYoutube(at) =>
      w.(controller := w.controller.(wantsYoutube := false, child := false), clock := at)
  }

  predicate LegalRun(w: World, steps: seq<Step>)
    decreases |steps|
  {
    steps == [] || (Legal(w, steps[0]) && LegalRun(Apply(w, steps[0]), steps[1..]))
  }

  function Run(w: World, steps: seq<Step>): World
    decreases |steps|
  {
    if steps == [] then w else Run(Apply(w, steps[0]), steps[1..])
  }

  // --------------------------------------------------------------- invariant

  function FailureTimes(log: seq<Event>): seq<nat> {
    if log == [] then []
    else
      var last := log[|log| - 1];
      FailureTimes(log[..|log| - 1]) + (if last.Failed? then [last.at] else [])
  }

  /** Five failures in a row span more than the crash window. */
  predicate Spaced(times: seq<nat>) {
    forall i :: 0 <= i && i + 4 < |times| ==> times[i] + CRASH_WINDOW < times[i + 4]
  }

  /** The count covers the newest failures, the window starts at the oldest of them, and of
      the failures before at most one lies within a crash window of its start. */
  predicate WindowMatches(c: Controller, times: seq<nat>, clock: nat) {
    && c.crashCount <= CRASH_LIMIT && c.crashCount <= |times|
    && (c.crashWindowStarted.Some? <==> c.crashCount > 0)
    && (c.crashCount == 0 ==> forall i :: 0 <= i < |times| ==> times[i] + CRASH_WINDOW < clock)
    && (c.crashCount > 0 ==> WindowStarts(c.crashWindowStarted, times, |times| - c.crashCount))
  }

  predicate WindowStarts(start: Option<nat>, times: seq<nat>, first: nat)
    requires first < |times|
  {
    && start == Some(times[first])
    && forall i :: 0 <= i && i + 2 <= first ==> times[i] + CRASH_WINDOW < times[first]
  }

  predicate DisabledMatches(c: Controller, times: seq<nat>) {
    && (c.crashCount == CRASH_LIMIT <==> c.disabledUntil.Some?)
    && (c.disabledUntil.Some? ==> times != [] && c.disabledUntil == Some(times[|times| - 1] + CRASH_BACKOFF))
    && (c.child ==> c.disabledUntil.None?)
  }

  predicate CountInv(c: Controller, times: seq<nat>, clock: nat) {
    && Sorted(times) && (forall i :: 0 <= i < |times| ==> times[i] <= clock)
    && Spaced(times)
    && WindowMatches(c, times, clock)
    && DisabledMatches(c, times)
  }

  /** After a failure that disables the helper nothing happens for the whole back-off. */
  predicate Respected(log: seq<Event>) {
    forall i, j :: 0 <= i < j < |log| && log[i].Failed? && log[i].disables ==> log[i].at + CRASH_BACKOFF <= log[j].at
  }

  predicate Expiring(c: Controller, log: seq<Event>, clock: nat) {
    forall i :: 0 <= i < |log| ==> ExpiringAt(c, log, clock, i)
  }

  /** A disabling failure is the one the controller still waits out, or long past. */
  predicate ExpiringAt(c: Controller, log: seq<Event>, clock: nat, i: nat)
    requires i < |log|
  {
    log[i].Failed? && log[i].disables ==>
      log[i].at + CRASH_BACKOFF <= clock || (c.disabledUntil == Some(log[i].at + CRASH_BACKOFF))
  }

  predicate Inv(w: World) {
    && CountInv(w.controller, FailureTimes(w.log), w.clock)
    && Respected(w.log) && Expiring(w.controller, w.log, w.clock)
  }

  /** One more failure keeps the count invariant, as long as the helper is not switched off. */
  lemma FailureKeepsCount(c: Controller, times: seq<nat>, clock: nat, now: nat)
    requires CountInv(c, times, clock) && clock <= now && c.disabledUntil.None? && !c.child
    ensures CountInv(FailureRecorded(c, now), times + [now], now)
    ensures Disables(c, now) <==> FailureRecorded(c, now).disabledUntil == Some(now + CRASH_BACKOFF)
  {
  }

  /** A failure while the helper is not switched off. */
  lemma FailureKeepsInv(w: World, now: nat)
    requires Inv(w) && w.clock <= now && w.controller.disabledUntil.None? && !w.controller.child
    ensures Inv(WithFailure(w, now))
  {
    var after := WithFailure(w, now);
    FailureKeepsCount(w.controller, FailureTimes(w.log), w.clock, now);
    forall i | 0 <= i < |after.log| ensures ExpiringAt(after.controller, after.log, now, i) {
      if i < |w.log| {
        assert ExpiringAt(w.controller, w.log, w.clock, i);
      }
    }
    assert Respected(after.log) by {
      forall i, j | 0 <= i < j < |after.log| && after.log[i].Failed? && after.log[i].disables
        ensures after.log[i].at + CRASH_BACKOFF <= after.log[j].at
      {
        assert ExpiringAt(w.controller, w.log, w.clock, i);
      }
    }
  }

  /** Time passing, the wish changing and the child being let go keep the invariant. */
  lemma LetGoKeepsInv(w: World, wants: bool, child: bool, now: nat)
    requires Inv(w) && w.clock <= now && (child ==> w.controller.child)
    ensures Inv(w.(controller := w.controller.(wantsYoutube := wants, child := child), clock := now))
  {
    var after := w.(controller := w.controller.(wantsYoutube := wants, child := child), clock := now);
    forall i | 0 <= i < |after.log| ensures ExpiringAt(after.controller, after.log, now, i) {
      assert ExpiringAt(w.controller, w.log, w.clock, i);
    }
  }

  /** Looking at the back-off after it has run out resets the count. */
  lemma CheckKeepsInv(w: World, now: nat)
    requires Inv(w) && w.clock <= now && !BackoffActiveAt(w.controller, now)
    ensures Inv(World(BackoffChecked(w.controller, now), now, w.log))
    ensures BackoffChecked(w.controller, now).disabledUntil.None?
    ensures BackoffChecked(w.controller, now).child == w.controller.child
  {
    var after := BackoffChecked(w.controller, now);
    var times := FailureTimes(w.log);
    if w.controller.disabledUntil.Some? {
      assert forall i :: 0 <= i < |times| ==> times[i] <= times[|times| - 1];
    }
    forall i | 0 <= i < |w.log| ensures ExpiringAt(after, w.log, now, i) {
      assert ExpiringAt(w.controller, w.log, w.clock, i);
    }
  }

  lemma SpawnKeepsInv(w: World, check: nat)
    requires Inv(w) && w.clock <= check && w.controller.disabledUntil.None?
    ensures Inv(w.(log := w.log + [SpawnTried(check)], clock := check))
  {
    var after := w.(log := w.log + [SpawnTried(check)], clock := check);
    forall i | 0 <= i < |after.log| ensures ExpiringAt(after.controller, after.log, check, i) {
      if i < |w.log| {
        assert ExpiringAt(w.controller, w.log, w.clock, i);
      }
    }
    forall i, j | 0 <= i < j < |after.log| && after.log[i].Failed? && after.log[i].disables
      ensures after.log[i].at + CRASH_BACKOFF <= after.log[j].at
    {
      assert ExpiringAt(w.controller, w.log, w.clock, i);
    }
  }

  lemma LaunchKeepsInv(w: World, launch: Launch, end: nat)
    requires Inv(w) && w.clock <= end && w.controller.disabledUntil.None? && !w.controller.child
    ensures Inv(Launched(w, launch, w.clock, end).(clock := end))
  {
    if launch.NoExecutable? || launch.NoLogFile? {
      FailureKeepsInv(w, end);
    } else {
      SpawnKeepsInv(w, w.clock);
      var tried := w.(log := w.log + [SpawnTried(w.clock)]);
      assert tried == w.(log := w.log + [SpawnTried(w.clock)], clock := w.clock);
      if launch.Started? {
        LetGoKeepsInv(tried, tried.controller.wantsYoutube, false, end);
        var after := Launched(w, launch, w.clock, end).(clock := end);
        forall i | 0 <= i < |after.log| ensures ExpiringAt(after.controller, after.log, end, i) {
          assert ExpiringAt(tried.controller, tried.log, tried.clock, i);
        }
      } else {
        FailureKeepsInv(tried, end);
      }
    }
  }

  lemma StepKeepsInv(w: World, step: Step)
    requires Inv(w) && Legal(w, step)
    ensures Inv(Apply(w, step))
  {
    match step
    case LeaveYoutube(at) => LetGoKeepsInv(w, false, false, at);
    case EnterYoutube(probe, launch, begin, check, end) =>
      var asked := w.(controller := w.controller.(wantsYoutube := true));
      if StaysUp(asked, probe) {
        LetGoKeepsInv(w, true, true, end);
      } else {
        var free := w.(controller := w.controller.(wantsYoutube := true, child := false), clock := begin);
        LetGoKeepsInv(w, true, false, begin);
        var probed := Probed(asked, probe, begin);
        if w.controller.child {
          FailureKeepsInv(free, begin);
          assert probed == WithFailure(free, begin);
        } else {
          assert free == probed.(clock := begin);
        }
        var now := probed.(clock := begin);
        if BackoffActiveAt(probed.controller, check) {
          LetGoKeepsInv(now, true, false, end);
          assert now.(controller := now.controller.(wantsYoutube := true, child := false), clock := end) == probed.(clock := end);
        } else {
          CheckKeepsInv(now, check);
          var ready := World(BackoffChecked(now.controller, check), check, now.log);
          LaunchKeepsInv(ready, launch, end);
          SameLaunch(ready, probed.(controller := BackoffChecked(probed.controller, check)), launch, check, end);
        }
      }
  }

  /** What a launch leaves does not depend on the clock it starts with. */
  lemma SameLaunch(a: World, b: World, launch: Launch, check: nat, end: nat)
    requires a.controller == b.controller && a.log == b.log
    ensures Launched(a, launch, check, end).(clock := end) == Launched(b, launch, check, end).(clock := end)
  {
    assert a.(log := a.log + [SpawnTried(check)]).log == b.(log := b.log + [SpawnTried(check)]).log;
  }

  lemma {:induction false} RunKeepsInv(w: World, steps: seq<Step>)
    requires Inv(w) && LegalRun(w, steps)
    ensures Inv(Run(w, steps))
    decreases |steps|
  {
    if steps != [] {
      StepKeepsInv(w, steps[0]);
      RunKeepsInv(Apply(w, steps[0]), steps[1..]);
    }
  }

  // --------------------------------------------------------------- main results

  /** Five failures never fit into a crash window, so an interval holds at most four. */
  lemma {:induction false} SpacedBoundsIntervals(times: seq<nat>, lo: int)
    requires Sorted(times) && Spaced(times)
    ensures CountBetween(times, lo, lo + CRASH_WINDOW) <= 2 * CRASH_LIMIT - 2
    decreases |times|
  {
    if times != [] {
      var rest := times[..|times| - 1];
      assert forall i :: 0 <= i && i + 4 < |rest| ==> rest[i] + CRASH_WINDOW < rest[i + 4] by {
        forall i | 0 <= i && i + 4 < |rest| ensures rest[i] + CRASH_WINDOW < rest[i + 4] {
          assert times[i] + CRASH_WINDOW < times[i + 4];
        }
      }
      SpacedBoundsIntervals(rest, lo);
      var last := times[|times| - 1];
      if lo <= last <= lo + CRASH_WINDOW && |times| > 4 {
        assert times[|times| - 5] + CRASH_WINDOW < times[|times| - 5 + 4];
        CountLast(rest, |rest| - 4, lo, lo + CRASH_WINDOW);
      } else if |times| <= 4 {
        CountAtMost(times, lo, lo + CRASH_WINDOW);
      }
    }
  }

  /** Below the interval nothing counts, so the count is at most what lies after position `k`;
      with everything up to index `k` below, that excludes one more. */
  lemma {:induction false} CountLast(times: seq<nat>, k: nat, lo: int, hi: int)
    requires k < |times| && Sorted(times) && times[k] < lo
    ensures CountBetween(times, lo, hi) <= |times| - k - 1
    decreases |times|
  {
    if |times| == k + 1 {
      NoneBelow(times, lo, hi);
    } else {
      CountLast(times[..|times| - 1], k, lo, hi);
    }
  }

  lemma {:induction false} NoneBelow(times: seq<nat>, lo: int, hi: int)
    requires forall i :: 0 <= i < |times| ==> times[i] < lo
    ensures CountBetween(times, lo, hi) == 0
    decreases |times|
  {
    if times != [] {
      NoneBelow(times[..|times| - 1], lo, hi);
    }
  }

  lemma {:induction false} CountAtMost(times: seq<nat>, lo: int, hi: int)
    ensures CountBetween(times, lo, hi) <= |times|
    decreases |times|
  {
    if times != [] {
      CountAtMost(times[..|times| - 1], lo, hi);
    }
  }

  /** Whatever the environment does, every closed minute of every run holds at most four
      recorded failures. */
  lemma MinutesAreBounded(steps: seq<Step>, lo: int)
    requires LegalRun(START, steps)
    ensures CountBetween(FailureTimes(Run(START, steps).log), lo, lo + 60 * SECOND) <= 4
  {
    RunKeepsInv(START, steps);
    SpacedBoundsIntervals(FailureTimes(Run(START, steps).log), lo);
  }

  function FailingEnter(at: nat): Step { EnterYoutube(HasExited, NoExecutable, at, at, at) }

  lemma {:induction false} RunAppend(w: World, steps: seq<Step>, last: Step)
    requires LegalRun(w, steps) && Legal(Run(w, steps), last)
    ensures LegalRun(w, steps + [last]) && Run(w, steps + [last]) == Apply(Run(w, steps), last)
    decreases |steps|
  {
    if steps == [] {
      assert (steps + [last])[1..] == [];
    } else {
      assert (steps + [last])[1..] == steps[1..] + [last];
      RunAppend(Apply(w, steps[0]), steps[1..], last);
    }
  }

  /** Extends a run in which the helper is not switched off by one failed start. */
  lemma FailOnce(steps: seq<Step>, at: nat) returns (more: seq<Step>)
    requires LegalRun(START, steps) && Run(START, steps).clock <= at
    requires !Run(START, steps).controller.child && Run(START, steps).controller.disabledUntil.None?
    ensures LegalRun(START, more)
    ensures var w := Run(START, steps); Run(START, more) == WithFailure(w.(controller := w.controller.(wantsYoutube := true)), at)
    ensures FailureTimes(Run(START, more).log) == FailureTimes(Run(START, steps).log) + [at]
  {
    var w := Run(START, steps);
    RunAppend(START, steps, FailingEnter(at));
    more := steps + [FailingEnter(at)];
  }

  lemma CountAppend(times: seq<nat>, at: nat, lo: int, hi: int)
    ensures CountBetween(times + [at], lo, hi) == CountBetween(times, lo, hi) + (if lo <= at <= hi then 1 else 0)
  {
    assert (times + [at])[..|times|] == times;
  }

  /** Four is attained: the window is anchored at its first failure, and the failure at 59 s
      and those at 61, 62 and 63 s are counted in different windows. */
  lemma FourFailuresInAMinute() returns (steps: seq<Step>)
    ensures LegalRun(START, steps)
    ensures CountBetween(FailureTimes(Run(START, steps).log), 59 * SECOND, 119 * SECOND) == 4
  {
    var lo, hi := 59 * SECOND, 59 * SECOND + CRASH_WINDOW;
    var a := FailOnce([], 0);
    CountAppend([], 0, lo, hi);
    var b := FailOnce(a, 59 * SECOND);
    CountAppend(FailureTimes(Run(START, a).log), 59 * SECOND, lo, hi);
    var c := FailOnce(b, 61 * SECOND);
    CountAppend(FailureTimes(Run(START, b).log), 61 * SECOND, lo, hi);
    var d := FailOnce(c, 62 * SECOND);
    CountAppend(FailureTimes(Run(START, c).log), 62 * SECOND, lo, hi);
    steps := FailOnce(d, 63 * SECOND);
    CountAppend(FailureTimes(Run(START, d).log), 63 * SECOND, lo, hi);
  }

  /** A tracked child and a running back-off exclude each other. */
  lemma TrackedMeansEnabled(steps: seq<Step>)
    requires LegalRun(START, steps)
    ensures var c := Run(START, steps).controller; c.child ==> c.disabledUntil.None? && c.crashCount < CRASH_LIMIT
  {
    RunKeepsInv(START, steps);
  }

  /** Once the helper is switched off, for five minutes no start is attempted and no failure
      is recorded. */
  lemma BackoffIsRespected(steps: seq<Step>, i: nat, j: nat)
    requires LegalRun(START, steps)
    requires i < j < |Run(START, steps).log|
    requires Run(START, steps).log[i].Failed? && Run(START, steps).log[i].disables
    ensures Run(START, steps).log[i].at + 300 * SECOND <= Run(START, steps).log[j].at
  {
    RunKeepsInv(START, steps);
  }

  /** Outside the back-off, asking for the helper leaves a tracked child or a recorded failure. */
  lemma EnteringIsNeverSilent(w: World, step: Step)
    requires Inv(w) && step.EnterYoutube? && Legal(w, step)
    ensures var after := Apply(w, step); after.controller.wantsYoutube
    ensures var after := Apply(w, step); || after.controller.child
                                         || |after.log| > |w.log|
                                         || (BackoffActiveAt(w.controller, step.check) && after.log == w.log)
  {
  }

  /** A failure switches the helper off exactly when it is the third of its window: the third
      newest failure is at most a minute old and began the window. */
  lemma ThirdFailureDisables(w: World, now: nat)
    requires Inv(w) && w.clock <= now && w.controller.disabledUntil.None?
    ensures Disables(w.controller, now) <==>
      var times := FailureTimes(w.log);
      w.controller.crashCount == 2 && now <= times[|times| - 2] + CRASH_WINDOW
  {
    var times := FailureTimes(w.log);
    if w.controller.crashCount > 0 {
      assert WindowStarts(w.controller.crashWindowStarted, times, |times| - w.controller.crashCount);
    }
  }

  // --------------------------------------------------------------- what asking for the helper does

  /** A back-off that is set began with a failure in the log that disabled the helper. */
  predicate Logged(c: Controller, log: seq<Event>) {
    c.disabledUntil.Some? ==>
      exists i :: 0 <= i < |log| && log[i].Failed? && log[i].disables && log[i].at + CRASH_BACKOFF == c.disabledUntil.value
  }

  lemma FailureIsLogged(w: World, now: nat)
    requires Logged(w.controller, w.log)
    ensures Logged(WithFailure(w, now).controller, WithFailure(w, now).log)
  {
    var after := WithFailure(w, now);
    if Disables(w.controller, now) {
      assert after.log[|w.log|] == Failed(now, true);
    } else {
      MoreLogged(w.controller, w.log, Failed(now, false));
    }
  }

  lemma MoreLogged(c: Controller, log: seq<Event>, e: Event)
    requires Logged(c, log)
    ensures Logged(c, log + [e])
  {
    if c.disabledUntil.Some? {
      var i :| 0 <= i < |log| && log[i].Failed? && log[i].disables && log[i].at + CRASH_BACKOFF == c.disabledUntil.value;
      assert (log + [e])[i] == log[i];
    }
  }

  lemma LaunchIsLogged(w: World, launch: Launch, check: nat, end: nat)
    requires Logged(w.controller, w.log)
    ensures Logged(Launched(w, launch, check, end).controller, Launched(w, launch, check, end).log)
  {
    var tried := w.(log := w.log + [SpawnTried(check)]);
    MoreLogged(w.controller, w.log, SpawnTried(check));
    FailureIsLogged(w, end);
    FailureIsLogged(tried, end);
  }

  lemma StepIsLogged(w: World, step: Step)
    requires Logged(w.controller, w.log)
    ensures Logged(Apply(w, step).controller, Apply(w, step).log)
  {
    if step.EnterYoutube? {
      var asked := w.(controller := w.controller.(wantsYoutube := true));
      FailureIsLogged(asked.(controller := asked.controller.(child := false)), step.begin);
      var probed := Probed(asked, step.probe, step.begin);
      LaunchIsLogged(probed.(controller := BackoffChecked(probed.controller, step.check)), step.launch, step.check, step.end);
    }
  }

  lemma {:induction false} RunIsLogged(w: World, steps: seq<Step>)
    requires Logged(w.controller, w.log)
    ensures Logged(Run(w, steps).controller, Run(w, steps).log)
    decreases |steps|
  {
    if steps != [] {
      StepIsLogged(w, steps[0]);
      RunIsLogged(Apply(w, steps[0]), steps[1..]);
    }
  }

  /** A failure that disabled the helper is less than the back-off ago. */
  predicate Held(log: seq<Event>, now: nat) {
    exists i :: 0 <= i < |log| && log[i].Failed? && log[i].disables && now < log[i].at + CRASH_BACKOFF
  }

  lemma HeldIff(w: World, now: nat)
    requires Expiring(w.controller, w.log, w.clock) && Logged(w.controller, w.log) && w.clock <= now
    ensures BackoffActiveAt(w.controller, now) <==> Held(w.log, now)
  {
    if i :| 0 <= i < |w.log| && w.log[i].Failed? && w.log[i].disables && now < w.log[i].at + CRASH_BACKOFF {
      assert ExpiringAt(w.controller, w.log, w.clock, i);
    }
  }

  /** What is recorded of a start: the attempt, if there is something to start and to log to, and
      a failure unless it succeeds. */
  predicate StartRecorded(events: seq<Event>, launch: Launch, check: nat, end: nat) {
    match launch
    case NoExecutable => |events| == 1 && events[0].Failed? && events[0].at == end
    case NoLogFile => |events| == 1 && events[0].Failed? && events[0].at == end
    case SpawnFailed => |events| == 2 && events[0] == SpawnTried(check) && events[1].Failed? && events[1].at == end
    case TokenNotPassed => |events| == 2 && events[0] == SpawnTried(check) && events[1].Failed? && events[1].at == end
    case Started => events == [SpawnTried(check)]
  }

  /** A tracked helper found dead or not inspectable is one failure. */
  predicate DeathRecorded(events: seq<Event>, child: bool, probe: Probe, begin: nat) {
    if child && probe != StillRunning then |events| == 1 && events[0].Failed? && events[0].at == begin else events == []
  }

  lemma LaunchRecords(w: World, launch: Launch, check: nat, end: nat)
    ensures w.log <= Launched(w, launch, check, end).log
    ensures StartRecorded(Launched(w, launch, check, end).log[|w.log|..], launch, check, end)
    ensures Launched(w, launch, check, end).controller.child <==> w.controller.child || launch.Started?
  {
  }

  /** A death before the start is recorded, in every reachable state. */
  lemma Probing(w: World, probe: Probe, begin: nat, probed: World)
    requires Inv(w) && Logged(w.controller, w.log) && w.clock <= begin && !StaysUp(w, probe) && probed == Probed(w, probe, begin)
    ensures w.log <= probed.log && DeathRecorded(probed.log[|w.log|..], w.controller.child, probe, begin)
    ensures !probed.controller.child && Logged(probed.controller, probed.log)
    ensures Expiring(probed.controller, probed.log, begin)
  {
    var free := w.(controller := w.controller.(child := false), clock := begin);
    LetGoKeepsInv(w, w.controller.wantsYoutube, false, begin);
    if w.controller.child {
      FailureKeepsInv(free, begin);
      FailureIsLogged(free, begin);
      assert probed.controller == WithFailure(free, begin).controller && probed.log == WithFailure(free, begin).log;
    } else {
      assert free.controller == probed.controller;
    }
  }

  lemma Attempting(probed: World, launch: Launch, begin: nat, check: nat, end: nat, after: World)
    requires Expiring(probed.controller, probed.log, begin) && Logged(probed.controller, probed.log)
    requires begin <= check && !probed.controller.child
    requires after == if BackoffActiveAt(probed.controller, check) then probed
                      else Launched(probed.(controller := BackoffChecked(probed.controller, check)), launch, check, end)
    ensures probed.log <= after.log
    ensures var start := after.log[|probed.log|..];
            if Held(probed.log, check) then start == [] && !after.controller.child
            else StartRecorded(start, launch, check, end) && (after.controller.child <==> launch.Started?)
  {
    HeldIff(probed.(clock := begin), check);
    LaunchRecords(probed.(controller := BackoffChecked(probed.controller, check)), launch, check, end);
  }

  /** What asking for the helper comes to, by what was recorded before. */
  predicate Entered(child: bool, log: seq<Event>, death: seq<Event>, after: World, probe: Probe, launch: Launch,
                    begin: nat, check: nat, end: nat)
  {
    if child && probe == StillRunning then after.controller.child && after.log == log
    else
      && DeathRecorded(death, child, probe, begin)
      && log + death <= after.log
      && var start := after.log[|log + death|..];
         if Held(log + death, check) then start == [] && !after.controller.child
         else StartRecorded(start, launch, check, end) && (after.controller.child <==> launch.Started?)
  }

  lemma Entering(w: World, probe: Probe, launch: Launch, begin: nat, check: nat, end: nat) returns (death: seq<Event>)
    requires Inv(w) && Logged(w.controller, w.log) && Legal(w, EnterYoutube(probe, launch, begin, check, end))
    ensures Entered(w.controller.child, w.log, death, Apply(w, EnterYoutube(probe, launch, begin, check, end)), probe, launch, begin, check, end)
  {
    death := [];
    var asked := w.(controller := w.controller.(wantsYoutube := true));
    if !StaysUp(asked, probe) {
      LetGoKeepsInv(w, true, w.controller.child, w.clock);
      assert asked == w.(controller := w.controller.(wantsYoutube := true, child := w.controller.child), clock := w.clock);
      var probed := Probed(asked, probe, begin);
      Probing(asked, probe, begin, probed);
      death := probed.log[|w.log|..];
      assert w.log + death == probed.log;
      var after := if BackoffActiveAt(probed.controller, check) then probed
                   else Launched(probed.(controller := BackoffChecked(probed.controller, check)), launch, check, end);
      Attempting(probed, launch, begin, check, end, after);
      assert Apply(w, EnterYoutube(probe, launch, begin, check, end)) == after.(clock := end);
    }
  }

  /** Asking for the helper, in every reachable state: one that still runs is left alone.  Otherwise
      a death is recorded, and unless a failure disabled the helper less than five minutes ago it
      is started, which leaves it tracked exactly when the start succeeds and is recorded as a
      failure exactly when it does not. */
  lemma EnterOutcome(steps: seq<Step>, probe: Probe, launch: Launch, begin: nat, check: nat, end: nat) returns (death: seq<Event>)
    requires LegalRun(START, steps) && Legal(Run(START, steps), EnterYoutube(probe, launch, begin, check, end))
    ensures var w := Run(START, steps);
            Entered(w.controller.child, w.log, death, Apply(w, EnterYoutube(probe, launch, begin, check, end)), probe, launch, begin, check, end)
  {
    RunKeepsInv(START, steps);
    RunIsLogged(START, steps);
    death := Entering(Run(START, steps), probe, launch, begin, check, end);
  }

  /** The helper runs only while YouTube is wanted, and that is since the last request. */
  lemma {:induction false} HelperOnlyWhileWanted(w: World, steps: seq<Step>)
    requires w.controller.child ==> w.controller.wantsYoutube
    ensures var c := Run(w, steps).controller;
            && (c.child ==> c.wantsYoutube)
            && (steps != [] ==> (c.wantsYoutube <==> steps[|steps| - 1].EnterYoutube?))
    decreases |steps|
  {
    if steps != [] {
      WantsOnly(w, steps[0]);
      HelperOnlyWhileWanted(Apply(w, steps[0]), steps[1..]);
    }
  }

  lemma WantsOnly(w: World, step: Step)
    requires w.controller.child ==> w.controller.wantsYoutube
    ensures var c := Apply(w, step).controller; (c.child ==> c.wantsYoutube) && (c.wantsYoutube <==> step.EnterYoutube?)
  {
  }

  /** Leaving stops it and records nothing. */
  lemma LeaveOutcome(steps: seq<Step>, at: nat)
    ensures var w := Run(START, steps);
            var after := Run(START, steps + [LeaveYoutube(at)]);
            !after.controller.child && after.log == w.log
  {
    RunThen(START, steps, LeaveYoutube(at));
  }

  lemma {:induction false} RunThen(w: World, steps: seq<Step>, last: Step)
    ensures Run(w, steps + [last]) == Apply(Run(w, steps), last)
    decreases |steps|
  {
    if steps == [] {
      assert (steps + [last])[1..] == [];
    } else {
      assert (steps + [last])[1..] == steps[1..] + [last];
      RunThen(Apply(w, steps[0]), steps[1..], last);
    }
  }

  // --------------------------------------------------------------- the controller in place

  class WebviewPlaybackController {
    var child: bool
    var wantsYoutube: bool
    var crashWindowStarted: Option<nat>
    var crashCount: nat
    var disabledUntil: Option<nat>
    ghost var log: seq<Event>

    ghost function State(clock: nat): World
      reads this
    {
      World(Controller(child, wantsYoutube, crashWindowStarted, crashCount, disabledUntil), clock, log)
    }

    constructor ()
      ensures State(0) == START
    {
      child, wantsYoutube, crashWindowStarted, crashCount, disabledUntil := false, false, None, 0, None;
      log := [];
    }

    method RecordHelperFailure(now: nat)
      modifies this
      ensures State(now) == WithFailure(old(State(now)), now)
    {
      if crashWindowStarted.Some? && now - crashWindowStarted.value <= CRASH_WINDOW {
        crashCount := if crashCount < 255 then crashCount + 1 else 255;
      } else {
        crashWindowStarted := Some(now);
        crashCount := 1;
      }
      log := log + [Failed(now, crashCount >= CRASH_LIMIT)];
      if crashCount >= CRASH_LIMIT {
        disabledUntil := Some(now + CRASH_BACKOFF);
      }
    }

    method HelperIsRunning(probe: Probe, now: nat) returns (running: bool)
      modifies this
      ensures running == StaysUp(old(State(now)), probe)
      ensures State(now) == Probed(old(State(now)), probe, now).(clock := now)
    {
      if !child {
        return false;
      }
      if probe == StillRunning {
        return true;
      }
      child := false;
      RecordHelperFailure(now);
      return false;
    }

    method HelperBackoffActive(now: nat) returns (active: bool)
      modifies this
      ensures active == BackoffActiveAt(old(State(now)).controller, now)
      ensures State(now) == old(State(now)).(controller := BackoffChecked(old(State(now)).controller, now))
    {
      if disabledUntil.None? {
        return false;
      }
      if now < disabledUntil.value {
        return true;
      }
      disabledUntil, crashWindowStarted, crashCount := None, None, 0;
      return false;
    }

    /** The readings are those of the clock when the child is probed, when the back-off is
        looked at, and when a failed start is recorded. */
    method EnterYoutube(ghost clock: nat, probe: Probe, launch: Launch, begin: nat, check: nat, end: nat)
      requires clock <= begin <= check <= end
      modifies this
      ensures State(end) == Apply(old(State(clock)), Step.EnterYoutube(probe, launch, begin, check, end))
    {
      wantsYoutube := true;
      var running := HelperIsRunning(probe, begin);
      if running {
        return;
      }
      var active := HelperBackoffActive(check);
      if active {
        return;
      }
      match launch
      case NoExecutable => RecordHelperFailure(end);
      case NoLogFile => RecordHelperFailure(end);
      case SpawnFailed =>
        log := log + [SpawnTried(check)];
        RecordHelperFailure(end);
      case TokenNotPassed =>
        log := log + [SpawnTried(check)];
        RecordHelperFailure(end);
      case Started =>
        log := log + [SpawnTried(check)];
        child := true;
    }

    /** Any other source, or YouTube through a paired browser: the helper is stopped, if one
        is tracked.  It is let go even when killing it fails. */
    method LeaveYoutube(ghost clock: nat, at: nat)
      modifies this
      ensures State(at) == Apply(old(State(clock)), Step.LeaveYoutube(at))
    {
      if !wantsYoutube && !child {
        return;
      }
      wantsYoutube := false;
      StopHelper();
    }

    method StopHelper()
      modifies this`child
      ensures !child
    {
      if !child {
        return;
      }
      child := false;
    }
  }
}
