/** The bridge between an SSH channel and a NetHack child, `late-nethack/src/host.rs`: what it
    does to the channel and to the child, on every path out of it. */
module Bridge {
  import opened Wrappers

  /** How far setting up the pty, the child and the reader gets. */
  datatype Setup = NoPty | NoSlaveClone | NoChild | NoReader | Ready

  /** What the arms of the select deliver.  A write to the pty or to the channel may fail; the
      shutdown watch reports a value, or that its sender is gone. */
  datatype Event =
    | Input(written: bool)
    | Resize
    | HostDropped
    | Output(sent: bool)
    | PtyEof
    | ChildExit
    | WatchChanged(value: bool)
    | WatchDropped

  datatype StopReason = ChildExited | Teardown

  /** What the bridge does, in order: taking an event, closing the channel, ending the child. */
  datatype Action = Took(event: Event) | SendEof | SendClose | Sighup | BoundedWait(exited: bool) | Kill

  type Log = seq<Action>

  /** What one taken event leads to: the reason to stop, if it is one. */
  function StopOn(e: Event): Option<StopReason> {
    match e
    case Input(written) => if written then None else Some(ChildExited)
    case Resize => None
    case HostDropped => Some(Teardown)
    case Output(sent) => if sent then None else Some(Teardown)
    case PtyEof => Some(ChildExited)
    case ChildExit => Some(ChildExited)
    case WatchChanged(value) => if value then Some(Teardown) else None
    case WatchDropped => None
  }

  predicate IsWatch(e: Event) { e.WatchChanged? || e.WatchDropped? }

  // --------------------------------------------------------------- the loop

  /** What the loop takes of the events from number `i` on.  Watch events are not polled any
      more once the sender is known to be gone. */
  function Taken(events: seq<Event>, i: nat, watchLive: bool): Log
    requires i <= |events|
    decreases |events| - i
  {
    if i == |events| then []
    else if IsWatch(events[i]) && !watchLive then Taken(events, i + 1, watchLive)
    else if StopOn(events[i]).Some? then [Took(events[i])]
    else [Took(events[i])] + Taken(events, i + 1, watchLive && !events[i].WatchDropped?)
  }

  /** Why the loop stops, if it does. */
  function Stop(events: seq<Event>, i: nat, watchLive: bool): Option<StopReason>
    requires i <= |events|
    decreases |events| - i
  {
    if i == |events| then None
    else if IsWatch(events[i]) && !watchLive then Stop(events, i + 1, watchLive)
    else if StopOn(events[i]).Some? then StopOn(events[i])
    else Stop(events, i + 1, watchLive && !events[i].WatchDropped?)
  }

  /** The reason is None when the events run out with the bridge still up.  Waiting for the
      child reaps it, and then it has no process id any more. */
  method BridgeLoop(shuttingDown: bool, events: seq<Event>) returns (log: Log, stop: Option<StopReason>, hasId: bool)
    ensures hasId <==> Took(ChildExit) !in log
    ensures log == if shuttingDown then [] else Taken(events, 0, true)
    ensures stop == if shuttingDown then Some(Teardown) else Stop(events, 0, true)
  {
    log, hasId := [], true;
    if shuttingDown {
      return log, Some(Teardown), hasId;
    }
    var watchLive := true;
    for i := 0 to |events|
      invariant hasId && Took(ChildExit) !in log
      invariant Taken(events, 0, true) == log + Taken(events, i, watchLive)
      invariant Stop(events, 0, true) == Stop(events, i, watchLive)
    {
      var e := events[i];
      if IsWatch(e) && !watchLive {
        continue;
      }
      log := log + [Took(e)];
      match e
      case Input(written) =>
        if !written {
          return log, Some(ChildExited), hasId;
        }
      case Resize =>
      case HostDropped => return log, Some(Teardown), hasId;
      case Output(sent) =>
        if !sent {
          return log, Some(Teardown), hasId;
        }
      case PtyEof => return log, Some(ChildExited), hasId;
      case ChildExit => return log, Some(ChildExited), false;
      case WatchChanged(value) =>
        if value {
          return log, Some(Teardown), hasId;
        }
      case WatchDropped => watchLive := false;
    }
    stop := None;
  }

  // --------------------------------------------------------------- the whole bridge

  /** The environment of one bridge: how setup goes, what the loop sees, and whether the child
      exits within the grace period. */
  datatype Environment = Environment(setup: Setup, shuttingDown: bool, events: seq<Event>, exitsInGrace: bool)

  function Closing(): Log { [SendEof, SendClose] }

  /** A child that was reaped has no process id to hang up. */
  function Hangup(env: Environment): Log {
    if Took(ChildExit) in TakenBy(env) then [] else [Sighup, BoundedWait(env.exitsInGrace)]
  }

  function StopOf(env: Environment): Option<StopReason> {
    if env.shuttingDown then Some(Teardown) else Stop(env.events, 0, true)
  }

  function TakenBy(env: Environment): Log { if env.shuttingDown then [] else Taken(env.events, 0, true) }

  /** Everything one bridge does.  A child that was spawned is killed when its handle goes, also
      when cloning the pty for the reader fails. */
  function TaskLog(env: Environment): Log {
    if !env.setup.Ready? then (if env.setup.NoReader? then [Kill] else []) + Closing()
    else
      match StopOf(env)
      case None => TakenBy(env)
      case Some(reason) => TakenBy(env) + Closing() + (if reason.Teardown? then Hangup(env) else []) + [Kill]
  }

  predicate Finished(env: Environment) { !env.setup.Ready? || StopOf(env).Some? }

  datatype BridgeResult = Done | SetupError | StillUp

  method RunBridge(env: Environment) returns (log: Log, result: BridgeResult)
    ensures result.SetupError? <==> !env.setup.Ready?
    ensures result.StillUp? <==> !Finished(env)
    ensures result.SetupError? ==> log + Closing() == TaskLog(env)
    ensures !result.SetupError? ==> log == TaskLog(env)
  {
    log := [];
    if !env.setup.Ready? {
      if env.setup.NoReader? {
        log := log + [Kill];
      }
      return log, SetupError;
    }
    var taken, stop, hasId := BridgeLoop(env.shuttingDown, env.events);
    log := taken;
    if stop.None? {
      return log, StillUp;
    }
    log := log + [SendEof];
    log := log + [SendClose];
    assert log == taken + Closing();
    if stop.value.Teardown? {
      if hasId {
        log := log + [Sighup];
        log := log + [BoundedWait(env.exitsInGrace)];
      }
    }
    assert log == taken + Closing() + (if stop.value.Teardown? then Hangup(env) else []);
    log := log + [Kill];
    result := Done;
  }

  /** The spawned future: an error from the bridge closes the channel here. */
  method Task(env: Environment) returns (log: Log)
    ensures log == TaskLog(env)
  {
    var result;
    log, result := RunBridge(env);
    if result.SetupError? {
      log := log + [SendEof, SendClose];
    }
  }

  // --------------------------------------------------------------- properties of every path

  predicate OnlyTakes(log: Log) { forall i :: 0 <= i < |log| ==> log[i].Took? }

  lemma {:induction false} TakenOnlyTakes(events: seq<Event>, i: nat, watchLive: bool)
    requires i <= |events|
    ensures OnlyTakes(Taken(events, i, watchLive))
    decreases |events| - i
  {
    if i < |events| {
      TakenOnlyTakes(events, i + 1, watchLive);
      TakenOnlyTakes(events, i + 1, watchLive && !events[i].WatchDropped?);
    }
  }

  function Count(log: Log, a: Action): nat { multiset(log)[a] }

  /** What follows the taken events. */
  function Ending(env: Environment): Log {
    if !env.setup.Ready? then TaskLog(env)
    else if StopOf(env).None? then []
    else Closing() + (if StopOf(env).value.Teardown? then Hangup(env) else []) + [Kill]
  }

  lemma LogSplits(env: Environment) returns (taken: Log)
    ensures OnlyTakes(taken) && TaskLog(env) == taken + Ending(env)
  {
    TakenOnlyTakes(env.events, 0, true);
    taken := if env.setup.Ready? then TakenBy(env) else [];
    assert [] + TaskLog(env) == TaskLog(env);
    if env.setup.Ready? && StopOf(env).Some? {
      var hangup := if StopOf(env).value.Teardown? then Hangup(env) else [];
      assert TakenBy(env) + (Closing() + hangup + [Kill]) == TakenBy(env) + Closing() + hangup + [Kill];
    }
  }

  lemma CountInEnding(env: Environment, x: Action)
    requires !x.Took?
    ensures Count(TaskLog(env), x) == Count(Ending(env), x)
  {
    var taken := LogSplits(env);
    assert x !in taken;
    assert multiset(taken + Ending(env)) == multiset(taken) + multiset(Ending(env));
  }

  /** The loop never stops for a teardown after it has reaped the child. */
  lemma TeardownHasId(env: Environment)
    requires StopOf(env) == Some(Teardown)
    ensures Took(ChildExit) !in TakenBy(env)
  {
    if !env.shuttingDown {
      var log := Taken(env.events, 0, true);
      StopsAtFirstReason(env.events, 0, true, log);
      forall k | 0 <= k < |log| ensures log[k] != Took(ChildExit) {
        assert StopOn(log[k].event) != Some(ChildExited);
      }
    }
  }

  lemma EndingIs(env: Environment)
    ensures env.setup.Ready? && StopOf(env).None? ==> Ending(env) == []
    ensures HangsUp(env) ==> Ending(env) == [SendEof, SendClose, Sighup, BoundedWait(env.exitsInGrace), Kill]
    ensures env.setup.Ready? && StopOf(env).Some? && !HangsUp(env) ==> Ending(env) == [SendEof, SendClose, Kill]
    ensures env.setup.NoReader? ==> Ending(env) == [Kill, SendEof, SendClose]
    ensures !env.setup.Ready? && !env.setup.NoReader? ==> Ending(env) == [SendEof, SendClose]
  {
    if StopOf(env) == Some(Teardown) {
      TeardownHasId(env);
    }
  }

  lemma CountFull(exited: bool, x: Action)
    ensures Count([SendEof, SendClose, Sighup, BoundedWait(exited), Kill], x)
         == if x.SendEof? || x.SendClose? || x.Sighup? || x == BoundedWait(exited) || x.Kill? then 1 else 0
  {
    var w := BoundedWait(exited);
    assert multiset([SendEof, SendClose, Sighup, w, Kill]) == multiset{SendEof, SendClose, Sighup, w, Kill};
  }

  lemma CountShort(x: Action)
    ensures Count([SendEof, SendClose, Kill], x) == if x.SendEof? || x.SendClose? || x.Kill? then 1 else 0
    ensures Count([Kill, SendEof, SendClose], x) == if x.SendEof? || x.SendClose? || x.Kill? then 1 else 0
    ensures Count([SendEof, SendClose], x) == if x.SendEof? || x.SendClose? then 1 else 0
    ensures Count([], x) == 0
  {
    assert multiset([SendEof, SendClose, Kill]) == multiset{SendEof, SendClose, Kill};
    assert multiset([Kill, SendEof, SendClose]) == multiset{Kill, SendEof, SendClose};
    assert multiset([SendEof, SendClose]) == multiset{SendEof, SendClose};
  }

  predicate HangsUp(env: Environment) { env.setup.Ready? && StopOf(env) == Some(Teardown) }

  lemma CountOf(env: Environment, x: Action)
    requires x.SendEof? || x.SendClose? || x.Kill? || x.Sighup?
    ensures Count(TaskLog(env), x) ==
      if x.Sighup? then (if HangsUp(env) then 1 else 0)
      else if x.Kill? then (if Finished(env) && (env.setup.Ready? || env.setup.NoReader?) then 1 else 0)
      else (if Finished(env) then 1 else 0)
  {
    CountInEnding(env, x);
    EndingIs(env);
    CountShort(x);
    CountFull(env.exitsInGrace, x);
  }

  /** End of file and close stand at `i`, and nothing is taken from there on. */
  predicate ClosedAt(log: Log, i: nat) {
    && i + 1 < |log| && log[i] == SendEof && log[i + 1] == SendClose
    && forall k :: i <= k < |log| ==> !log[k].Took?
  }

  lemma ClosedAfterOutput(env: Environment) returns (i: nat)
    requires Finished(env)
    ensures ClosedAt(TaskLog(env), i)
  {
    var taken := LogSplits(env);
    EndingIs(env);
    i := |taken| + (if env.setup.NoReader? then 1 else 0);
    var ending := Ending(env);
    assert forall k :: 0 <= k < |ending| ==> TaskLog(env)[|taken| + k] == ending[k] && !ending[k].Took?;
    assert forall k :: i <= k < |TaskLog(env)| ==> TaskLog(env)[k] == ending[k - |taken|];
  }

  /** On every path the channel gets one end of file and one close, in this order and after all
      output; while the bridge is up it gets neither. */
  lemma ChannelIsClosedOnce(env: Environment)
    ensures Count(TaskLog(env), SendEof) == Count(TaskLog(env), SendClose) == if Finished(env) then 1 else 0
    ensures Finished(env) ==> exists i: nat :: ClosedAt(TaskLog(env), i)
  {
    CountOf(env, SendEof);
    CountOf(env, SendClose);
    if Finished(env) {
      var i := ClosedAfterOutput(env);
    }
  }

  /** The last thing done is to hang up, wait for a bounded time, and kill. */
  predicate EndsWithHangup(log: Log, exited: bool) {
    |log| >= 3 && log[|log| - 3] == Sighup && log[|log| - 2] == BoundedWait(exited) && log[|log| - 1] == Kill
  }

  lemma HangupIsLast(env: Environment)
    requires Finished(env)
    ensures EndsWithHangup(TaskLog(env), env.exitsInGrace) <==> HangsUp(env)
  {
    var taken := LogSplits(env);
    EndingIs(env);
    var log, n, ending, m := TaskLog(env), |TaskLog(env)|, Ending(env), |Ending(env)|;
    assert log[n - 1] == ending[m - 1] && log[n - 2] == ending[m - 2];
    assert m >= 3 ==> log[n - 3] == ending[m - 3];
  }

  /** Whenever a child is spawned and its bridge ends, it is killed once; every teardown, and
      nothing else, hangs it up first and waits a bounded time.  So without a hangup a child is
      killed only after it exited, its terminal ended or refused a write, or setup failed. */
  lemma HangupBeforeKill(env: Environment)
    requires Finished(env)
    ensures Count(TaskLog(env), Kill) == if env.setup.Ready? || env.setup.NoReader? then 1 else 0
    ensures EndsWithHangup(TaskLog(env), env.exitsInGrace) <==> HangsUp(env)
    ensures Count(TaskLog(env), Sighup) == if HangsUp(env) then 1 else 0
  {
    CountOf(env, Kill);
    CountOf(env, Sighup);
    HangupIsLast(env);
  }

  predicate NoneStops(log: Log, n: nat)
    requires n <= |log| && OnlyTakes(log)
  {
    forall k :: 0 <= k < n ==> StopOn(log[k].event).None?
  }

  /** The reason to stop is that of the last event taken, and no earlier event was one. */
  lemma {:induction false} StopsAtFirstReason(events: seq<Event>, i: nat, watchLive: bool, log: Log)
    requires i <= |events| && log == Taken(events, i, watchLive)
    ensures OnlyTakes(log)
    ensures Stop(events, i, watchLive).None? ==> NoneStops(log, |log|)
    ensures Stop(events, i, watchLive).Some? ==> log != [] && NoneStops(log, |log| - 1)
    ensures Stop(events, i, watchLive).Some? ==> Stop(events, i, watchLive) == StopOn(log[|log| - 1].event)
    decreases |events| - i
  {
    TakenOnlyTakes(events, i, watchLive);
    if i < |events| {
      var live := watchLive && !events[i].WatchDropped?;
      var later := Taken(events, i + 1, live);
      StopsAtFirstReason(events, i + 1, live, later);
      if !(IsWatch(events[i]) && !watchLive) && StopOn(events[i]).None? {
        assert log == [Took(events[i])] + later;
      }
    }
  }

  // --------------------------------------------------------------- which events end it, and how

  /** The client is gone or the host shuts down, with the game live. */
  predicate LeavesGameLive(e: Event) { e in {HostDropped, Output(false), WatchChanged(true)} }

  /** The game, or its terminal, is gone. */
  predicate GameIsOver(e: Event) { e in {Input(false), PtyEof, ChildExit} }

  predicate GoesOn(e: Event) { e in {Input(true), Resize, Output(true), WatchChanged(false), WatchDropped} }

  lemma EveryEvent(e: Event)
    ensures LeavesGameLive(e) <==> StopOn(e) == Some(Teardown)
    ensures GameIsOver(e) <==> StopOn(e) == Some(ChildExited)
    ensures GoesOn(e) <==> StopOn(e) == None
  {
    match e
    case Input(_) =>
    case Output(_) =>
    case WatchChanged(_) =>
    case _ =>
  }

  /** The last event the loop takes. */
  predicate LastTaken(env: Environment, p: Event -> bool) {
    var log := TakenBy(env);
    log != [] && log[|log| - 1].Took? && p(log[|log| - 1].event)
  }

  /** Input, output, a new window size and a quiet or dropped watch never end the loop; whatever
      else it takes ends it. */
  lemma LoopEndsOn(env: Environment)
    requires env.setup.Ready?
    ensures OnlyTakes(TakenBy(env))
    ensures forall k :: 0 <= k && k + 1 < |TakenBy(env)| ==> GoesOn(TakenBy(env)[k].event)
    ensures Finished(env) <==> env.shuttingDown || LastTaken(env, LeavesGameLive) || LastTaken(env, GameIsOver)
  {
    if !env.shuttingDown {
      var log := TakenBy(env);
      StopsAtFirstReason(env.events, 0, true, log);
      forall k | 0 <= k < |log| ensures GoesOn(log[k].event) <==> StopOn(log[k].event).None? {
        EveryEvent(log[k].event);
      }
      if log != [] {
        EveryEvent(log[|log| - 1].event);
      }
    }
  }

  /** The game is hung up, so that it can save, exactly when the host was shutting down at launch,
      or the loop ended because the client left, its channel refused output, or the host shuts
      down. */
  lemma HangupIff(env: Environment)
    requires env.setup.Ready?
    ensures Count(TaskLog(env), Sighup) == if env.shuttingDown || LastTaken(env, LeavesGameLive) then 1 else 0
  {
    CountOf(env, Sighup);
    LoopEndsOn(env);
    if !env.shuttingDown {
      var log := TakenBy(env);
      StopsAtFirstReason(env.events, 0, true, log);
      if log != [] {
        EveryEvent(log[|log| - 1].event);
      }
    }
  }

  function Tooks(events: seq<Event>): Log { seq(|events|, i requires 0 <= i < |events| => Took(events[i])) }

  /** As long as the loop goes on and its watch lives, it takes every event, in order. */
  lemma {:induction false} TakesEveryEvent(events: seq<Event>, k: nat)
    requires k <= |events| && forall i :: 0 <= i < k ==> GoesOn(events[i]) && !events[i].WatchDropped?
    ensures Taken(events, 0, true) == Tooks(events[..k]) + Taken(events, k, true)
    ensures Stop(events, 0, true) == Stop(events, k, true)
    decreases k
  {
    if k == 0 {
      assert Tooks(events[..0]) == [];
    } else {
      TakesEveryEvent(events, k - 1);
      EveryEvent(events[k - 1]);
      assert Tooks(events[..k]) == Tooks(events[..k - 1]) + [Took(events[k - 1])];
      assert Taken(events, k - 1, true) == [Took(events[k - 1])] + Taken(events, k, true);
    }
  }

  predicate IsWatchAction(a: Action) { a.Took? && IsWatch(a.event) }

  predicate NoWatch(log: Log) { forall k :: 0 <= k < |log| ==> !IsWatchAction(log[k]) }

  /** After the sender is found gone no watch event is taken. */
  predicate QuietAfterDrop(log: Log) {
    forall j, k :: 0 <= j < k < |log| && log[j] == Took(WatchDropped) ==> !IsWatchAction(log[k])
  }

  /** A dropped watch sender is noticed at most once and no watch event is taken after it, so
      it cannot keep the loop busy. */
  lemma {:induction false} DroppedWatchIsQuiet(events: seq<Event>, i: nat, watchLive: bool, log: Log)
    requires i <= |events| && log == Taken(events, i, watchLive)
    ensures QuietAfterDrop(log) && (!watchLive ==> NoWatch(log))
    ensures Count(log, Took(WatchDropped)) <= 1
    decreases |events| - i
  {
    if i < |events| {
      var live := watchLive && !events[i].WatchDropped?;
      var later := Taken(events, i + 1, live);
      DroppedWatchIsQuiet(events, i + 1, live, later);
      if !(IsWatch(events[i]) && !watchLive) && StopOn(events[i]).None? {
        assert log == [Took(events[i])] + later && log[1..] == later;
        assert forall k :: 0 < k < |log| ==> log[k] == later[k - 1];
        assert multiset(log) == multiset{Took(events[i])} + multiset(later);
        assert events[i].WatchDropped? ==> Took(WatchDropped) !in later;
      }
    }
  }

  predicate NoWatchIn(events: seq<Event>, i: nat)
    requires i <= |events|
  {
    forall k :: i <= k < |events| ==> !IsWatch(events[k])
  }

  /** Ignoring the dead watch changes nothing else: what the loop takes and why it stops is as if
      the sender's further events were not there. */
  lemma {:induction false} DeadWatchIsTransparent(events: seq<Event>, i: nat, rest: seq<Event>, j: nat)
    requires i <= |events| && j <= |rest| && NoWatchIn(rest, j) && rest[j..] == Unwatched(events[i..])
    ensures Taken(events, i, false) == Taken(rest, j, true)
    ensures Stop(events, i, false) == Stop(rest, j, true)
    decreases |events| - i
  {
    if i < |events| {
      assert events[i..][1..] == events[i + 1..];
      if IsWatch(events[i]) {
        DeadWatchIsTransparent(events, i + 1, rest, j);
      } else {
        assert rest[j] == events[i];
        assert rest[j + 1..] == rest[j..][1..] == Unwatched(events[i + 1..]);
        DeadWatchIsTransparent(events, i + 1, rest, j + 1);
      }
    }
  }

  function Unwatched(events: seq<Event>): seq<Event> {
    if events == [] then [] else (if IsWatch(events[0]) then [] else [events[0]]) + Unwatched(events[1..])
  }
}
