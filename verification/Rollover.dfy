/** The daily and monthly rollover of the shared artboard.

    `late-ssh/src/dartboard.rs` archives yesterday's board under a daily key and, on
    the first of a month, also under a monthly key after blanking the live board.
    Any database call may fail, and a failed attempt is repeated until one succeeds.
    Every step below is one database call or one access to the live board, with edits
    and the other writers of the main row (persist thread, restores, flushes) interleaved
    anywhere.  Days are ordinals, so that newest-first is descending. */
module Rollover {
  import opened Wrappers
  import opened FiniteSets

  const MAX_DAILY_SNAPSHOTS: nat := 7

  datatype Board = Board(canvas: int, provenance: int)
  const Blank: Board := Board(0, 0)

  datatype Phase =
    | BetweenAttempts
    | Capturing                     // no daily copy found; about to read the live canvas
    | HasCanvas(canvas: int)        // about to read the live provenance
    | SavingDaily(board: Board)
    | ListingOld(board: Board)
    | Pruning(board: Board, doomed: seq<int>)
    | Archived(board: Board)
    | Blanking(board: Board)        // the monthly copy is missing
    | WritingMain(board: Board)     // live board blanked, main row not yet
    | WritingMonthly(board: Board)
    | Done

  datatype State = State(
    day: int,                 // the archived day
    firstOfMonth: bool,
    live: Board,
    daily: map<int, Board>,
    monthly: Option<Board>,   // under the key of the archived month
    main: Option<Board>,
    phase: Phase,
    // history
    original: Option<Board>,  // what the daily key held when it was first filled
    dailyWrites: nat,
    monthlyWrites: nat,
    blankings: nat,
    mainWrites: nat,          // blank main rows written by the rollover
    lateFailures: nat)        // failed writes after a blanking

  datatype Upsert = Acknowledged | Lost | LandedUnacknowledged

  datatype Step =
    | Edit(board: Board)             // anything the players draw
    | OtherWrite(board: Board)       // another writer's main row
    | FindDaily(ok: bool)
    | CaptureCanvas
    | CaptureProvenance
    | SaveDaily(result: Upsert)
    | ListDaily(ok: bool, order: seq<int>)
    | DeleteOld(result: Upsert)
    | PruneDone
    | FindMonthly(ok: bool)
    | BlankLive
    | WriteMain(result: Upsert)
    | WriteMonthly(result: Upsert)

  /** Snapshot::list_by_board_key_prefix: all daily keys, newest first. */
  ghost predicate NewestFirst(order: seq<int>, daily: map<int, Board>) {
    && (forall i, j :: 0 <= i < j < |order| ==> order[i] > order[j])
    && (forall k :: k in order <==> k in daily)
  }

  ghost predicate Enabled(s: State, step: Step) {
    match step
    case Edit(_) => true
    case OtherWrite(_) => true
    case FindDaily(_) => s.phase == BetweenAttempts
    case CaptureCanvas => s.phase == Capturing
    case CaptureProvenance => s.phase.HasCanvas?
    case SaveDaily(_) => s.phase.SavingDaily?
    case ListDaily(_, order) => s.phase.ListingOld? && NewestFirst(order, s.daily)
    case DeleteOld(_) => s.phase.Pruning? && s.phase.doomed != []
    case PruneDone => s.phase.Pruning? && s.phase.doomed == []
    case FindMonthly(_) => s.phase.Archived? && s.firstOfMonth
    case BlankLive => s.phase.Blanking?
    case WriteMain(_) => s.phase.WritingMain?
    case WriteMonthly(_) => s.phase.WritingMonthly?
  }

  /** The daily copy is in hand; only the first of a month has more to do. */
  function Archive(s: State, board: Board): Phase {
    if s.firstOfMonth then Archived(board) else Done
  }

  ghost function Apply(s: State, step: Step): State
    requires Enabled(s, step)
  {
    match step
    case Edit(board) => s.(live := board)
    case OtherWrite(board) => s.(main := Some(board))
    case FindDaily(ok) =>
      if !ok then s
      else if s.day in s.daily then s.(phase := Archive(s, s.daily[s.day]))
      else s.(phase := Capturing)
    case CaptureCanvas => s.(phase := HasCanvas(s.live.canvas))
    case CaptureProvenance => s.(phase := SavingDaily(Board(s.phase.canvas, s.live.provenance)))
    case SaveDaily(result) =>
      var stored := if result == Lost then s else
        s.(daily := s.daily[s.day := s.phase.board], original := Some(s.phase.board), dailyWrites := s.dailyWrites + 1);
      stored.(phase := if result == Acknowledged then ListingOld(s.phase.board) else BetweenAttempts)
    case ListDaily(ok, order) =>
      if !ok then s.(phase := BetweenAttempts)
      else s.(phase := Pruning(s.phase.board,
                               if |order| <= MAX_DAILY_SNAPSHOTS then [] else order[MAX_DAILY_SNAPSHOTS..]))
    case DeleteOld(result) =>
      var gone := if result == Lost then s else s.(daily := s.daily - {s.phase.doomed[0]});
      if result == Acknowledged then gone.(phase := Pruning(s.phase.board, s.phase.doomed[1..]))
      else gone.(phase := BetweenAttempts)
    case PruneDone => s.(phase := Archive(s, s.phase.board))
    case FindMonthly(ok) =>
      if !ok then s.(phase := BetweenAttempts)
      else if s.monthly.Some? then s.(phase := Done)
      else s.(phase := Blanking(s.phase.board))
    case BlankLive => s.(live := Blank, blankings := s.blankings + 1, phase := WritingMain(s.phase.board))
    case WriteMain(result) =>
      var stored := if result == Lost then s else s.(main := Some(Blank), mainWrites := s.mainWrites + 1);
      if result == Acknowledged then stored.(phase := WritingMonthly(s.phase.board))
      else stored.(phase := BetweenAttempts, lateFailures := s.lateFailures + 1)
    case WriteMonthly(result) =>
      var stored := if result == Lost then s else
        s.(monthly := Some(s.phase.board), monthlyWrites := s.monthlyWrites + 1);
      if result == Acknowledged then stored.(phase := Done)
      else stored.(phase := BetweenAttempts, lateFailures := s.lateFailures + 1)
  }

  ghost predicate Runs(s: State, steps: seq<Step>)
    decreases |steps|
  {
    steps == [] || (Enabled(s, steps[0]) && Runs(Apply(s, steps[0]), steps[1..]))
  }

  ghost function After(s: State, steps: seq<Step>): State
    requires Runs(s, steps)
    decreases |steps|
  {
    if steps == [] then s else After(Apply(s, steps[0]), steps[1..])
  }

  /** The daily keys of days after `day`. */
  function Newer(daily: map<int, Board>, day: int): set<int> {
    set k | k in daily && k > day
  }

  /** The state in which the rollover task starts on a day; an earlier process may have
      left copies under any key.  Fewer than seven later days are archived already. */
  ghost predicate Start(s: State) {
    && s.phase == BetweenAttempts
    && s.original == (if s.day in s.daily then Some(s.daily[s.day]) else None)
    && s.dailyWrites == 0 && s.monthlyWrites == 0 && s.blankings == 0 && s.mainWrites == 0 && s.lateFailures == 0
    && |Newer(s.daily, s.day)| < MAX_DAILY_SNAPSHOTS
  }

  /** The board the attempt works with once the daily copy is stored. */
  predicate HoldsArchive(p: Phase) {
    p.ListingOld? || p.Pruning? || p.Archived? || p.Blanking? || p.WritingMain? || p.WritingMonthly?
  }

  ghost predicate Inv(s: State) {
    && |Newer(s.daily, s.day)| < MAX_DAILY_SNAPSHOTS
    && (s.day in s.daily <==> s.original.Some?)
    && (s.day in s.daily ==> s.original == Some(s.daily[s.day]))
    && (s.phase.Capturing? || s.phase.HasCanvas? || s.phase.SavingDaily? ==> s.day !in s.daily)
    && (HoldsArchive(s.phase) ==> s.original == Some(s.phase.board))
    && (s.phase.Pruning? ==> s.day !in s.phase.doomed)
    && (s.phase == Done ==> s.day in s.daily && (s.firstOfMonth ==> s.monthly.Some?))
    && s.dailyWrites <= 1 && (s.dailyWrites == 1 ==> s.day in s.daily)
    && (s.phase.Blanking? || s.phase.WritingMain? || s.phase.WritingMonthly? ==> s.monthly.None?)
    && s.monthlyWrites <= 1 && (s.monthlyWrites == 1 ==> s.monthly.Some? && s.monthly == s.original)
    && (s.blankings > 0 ==> s.day in s.daily)
    && (s.monthlyWrites > 0 || s.phase.WritingMain? || s.phase.WritingMonthly? ==> s.blankings > 0)
    && s.blankings <= s.lateFailures +
         (if s.phase.WritingMain? || s.phase.WritingMonthly? || s.monthly.Some? then 1 else 0)
  }

  /** A key with fewer than seven newer ones is among the first seven listed. */
  lemma NewestAreKept(order: seq<int>, daily: map<int, Board>, day: int)
    requires NewestFirst(order, daily) && |Newer(daily, day)| < MAX_DAILY_SNAPSHOTS
    ensures |order| > MAX_DAILY_SNAPSHOTS ==> day !in order[MAX_DAILY_SNAPSHOTS..]
  {
    if |order| > MAX_DAILY_SNAPSHOTS && day in order[MAX_DAILY_SNAPSHOTS..] {
      var i :| MAX_DAILY_SNAPSHOTS <= i < |order| && order[i] == day;
      PrefixSize(order, i);
      var ahead := Elements(order[..i]);
      assert ahead <= Newer(daily, day) by {
        forall k | k in ahead ensures k in Newer(daily, day) {
          var j :| 0 <= j < i && order[j] == k;
          assert k in order;
        }
      }
      SubsetSize(ahead, Newer(daily, day));
    }
  }

  function Elements(s: seq<int>): set<int> { set k | k in s }

  lemma {:induction false} PrefixSize(order: seq<int>, n: nat)
    requires n <= |order| && forall i, j :: 0 <= i < j < |order| ==> order[i] > order[j]
    ensures |Elements(order[..n])| == n
  {
    if n > 0 {
      PrefixSize(order, n - 1);
      assert order[..n] == order[..n - 1] + [order[n - 1]];
      assert Elements(order[..n]) == Elements(order[..n - 1]) + {order[n - 1]};
    } else {
      assert Elements(order[..0]) == {};
    }
  }

  lemma SaveKeepsInv(s: State, result: Upsert)
    requires Inv(s) && s.phase.SavingDaily?
    ensures Inv(Apply(s, SaveDaily(result)))
  {
    assert Newer(Apply(s, SaveDaily(result)).daily, s.day) == Newer(s.daily, s.day);
  }

  lemma DeleteKeepsInv(s: State, result: Upsert)
    requires Inv(s) && s.phase.Pruning? && s.phase.doomed != []
    ensures Inv(Apply(s, DeleteOld(result)))
  {
    SubsetSize(Newer(Apply(s, DeleteOld(result)).daily, s.day), Newer(s.daily, s.day));
  }

  lemma ListKeepsInv(s: State, ok: bool, order: seq<int>)
    requires Inv(s) && s.phase.ListingOld? && NewestFirst(order, s.daily)
    ensures Inv(Apply(s, ListDaily(ok, order)))
  {
    NewestAreKept(order, s.daily, s.day);
  }

  lemma MonthlyKeepsInv(s: State, step: Step)
    requires Inv(s) && Enabled(s, step)
    requires step.FindMonthly? || step.BlankLive? || step.WriteMain? || step.WriteMonthly?
    ensures Inv(Apply(s, step))
  {
  }

  lemma StepKeepsInv(s: State, step: Step)
    requires Inv(s) && Enabled(s, step)
    ensures Inv(Apply(s, step))
  {
    match step {
      case SaveDaily(result) => SaveKeepsInv(s, result);
      case DeleteOld(result) => DeleteKeepsInv(s, result);
      case ListDaily(ok, order) => ListKeepsInv(s, ok, order);
      case FindMonthly(_) => MonthlyKeepsInv(s, step);
      case BlankLive => MonthlyKeepsInv(s, step);
      case WriteMain(_) => MonthlyKeepsInv(s, step);
      case WriteMonthly(_) => MonthlyKeepsInv(s, step);
      case _ =>
    }
  }

  lemma {:induction false} RunKeepsInv(s: State, steps: seq<Step>)
    requires Inv(s) && Runs(s, steps)
    ensures Inv(After(s, steps))
    decreases |steps|
  {
    if steps != [] {
      StepKeepsInv(s, steps[0]);
      RunKeepsInv(Apply(s, steps[0]), steps[1..]);
    }
  }

  // --------------------------------------------------------------- crash consistency

  /** Over any failures, retries and edits: the daily key is filled at most once and then
      holds that first copy at every moment, pruning included; the live board is blanked
      only after that; and the monthly key is written at most once, with the daily copy. */
  lemma CrashConsistent(s: State, steps: seq<Step>)
    requires Start(s) && Runs(s, steps)
    ensures var t := After(s, steps);
            && t.dailyWrites <= 1 && t.monthlyWrites <= 1
            && (t.original.Some? ==> t.day in t.daily && t.daily[t.day] == t.original.value)
            && (t.blankings > 0 ==> t.original.Some?)
            && (t.monthlyWrites == 1 ==> t.monthly == t.original && t.blankings > 0)
            && (t.phase == Done ==> t.original.Some? && (t.firstOfMonth ==> t.monthly.Some?))
  {
    RunKeepsInv(s, steps);
  }

  lemma OriginalIsKept(s: State, step: Step)
    requires Inv(s) && Enabled(s, step) && s.original.Some?
    ensures Apply(s, step).original == s.original && Apply(s, step).day == s.day
  {
  }

  /** The stored copy never changes again. */
  lemma {:induction false} ArchiveIsFinal(s: State, steps: seq<Step>)
    requires Inv(s) && Runs(s, steps) && s.day in s.daily
    ensures var t := After(s, steps); t.day == s.day && s.day in t.daily && t.daily[s.day] == s.daily[s.day]
    decreases |steps|
  {
    if steps != [] {
      OriginalIsKept(s, steps[0]);
      StepKeepsInv(s, steps[0]);
      ArchiveIsFinal(Apply(s, steps[0]), steps[1..]);
    }
  }

  /** The bound behind all this: were seven later days archived already, the copy
      would be pruned as soon as it is stored. */
  lemma OldDayIsPruned(order: seq<int>, daily: map<int, Board>, day: int)
    requires NewestFirst(order, daily) && day in daily && |Newer(daily, day)| >= MAX_DAILY_SNAPSHOTS
    ensures |order| > MAX_DAILY_SNAPSHOTS && day in order[MAX_DAILY_SNAPSHOTS..]
  {
    var i :| 0 <= i < |order| && order[i] == day;
    PrefixSize(order, i);
    assert Newer(daily, day) <= Elements(order[..i]) by {
      forall k | k in Newer(daily, day) ensures k in Elements(order[..i]) {
        var j :| 0 <= j < |order| && order[j] == k;
        assert j < i;
        assert order[..i][j] == k;
      }
    }
    SubsetSize(Newer(daily, day), Elements(order[..i]));
    assert order[MAX_DAILY_SNAPSHOTS..][i - MAX_DAILY_SNAPSHOTS] == day;
  }

  /** The live board is blanked once, plus at most once more for every failed write
      after a blanking. */
  lemma BlankedOncePerLateFailure(s: State, steps: seq<Step>)
    requires Start(s) && Runs(s, steps)
    ensures After(s, steps).blankings <= After(s, steps).lateFailures + 1
  {
    RunKeepsInv(s, steps);
  }

  // --------------------------------------------------------------- what a retry does

  /** No archiving is left to do for the day. */
  predicate PastArchiving(s: State) {
    s.day in s.daily && !s.phase.ListingOld? && !s.phase.Pruning?
  }

  lemma StaysArchived(s: State, step: Step)
    requires Inv(s) && PastArchiving(s) && Enabled(s, step)
    ensures var t := Apply(s, step);
            t.daily == s.daily && PastArchiving(t) && t.firstOfMonth == s.firstOfMonth && t.original == s.original
  {
  }

  /** Once an attempt has failed with the daily copy stored, nothing is archived or pruned any
      more that day: a prune that failed is never resumed. */
  lemma {:induction false} RetryNeverPrunes(s: State, steps: seq<Step>)
    requires Inv(s) && PastArchiving(s) && Runs(s, steps)
    ensures After(s, steps).daily == s.daily && PastArchiving(After(s, steps))
    decreases |steps|
  {
    if steps != [] {
      StepKeepsInv(s, steps[0]);
      StaysArchived(s, steps[0]);
      RetryNeverPrunes(Apply(s, steps[0]), steps[1..]);
    }
  }

  ghost predicate Blanks(steps: seq<Step>) { exists i :: 0 <= i < |steps| && steps[i].BlankLive? }

  /** Before the live board has been blanked. */
  predicate Unblanked(p: Phase) { p == BetweenAttempts || p.Archived? || p.Blanking? || p == Done }

  /** What an attempt that has blanked has left so far. */
  predicate BlankedSince(s: State, before: State) {
    && before.monthly.None?
    && (s.phase.WritingMonthly? || s.monthly.Some? ==> s.mainWrites > before.mainWrites)
    && (s.monthly.Some? ==> s.monthly == before.original)
    && (s.phase == Done ==> s.monthly.Some?)
    && 0 <= s.mainWrites - before.mainWrites <=
         s.lateFailures - before.lateFailures + (if s.phase.WritingMonthly? || s.monthly.Some? then 1 else 0)
  }

  predicate UnblankedSince(s: State, before: State) {
    && Unblanked(s.phase) && s.monthly == before.monthly
    && s.mainWrites == before.mainWrites && s.lateFailures == before.lateFailures
    && (s.phase.Blanking? ==> s.monthly.None?) && (s.phase == Done ==> s.monthly.Some?)
  }

  lemma UnblankedStep(s: State, before: State, step: Step)
    requires Inv(s) && PastArchiving(s) && s.firstOfMonth && Enabled(s, step) && UnblankedSince(s, before)
    ensures if step.BlankLive? then BlankedSince(Apply(s, step), before) else UnblankedSince(Apply(s, step), before)
  {
  }

  lemma BlankedStep(s: State, before: State, step: Step)
    requires Inv(s) && PastArchiving(s) && s.firstOfMonth && Enabled(s, step) && BlankedSince(s, before)
    requires s.original == before.original
    ensures BlankedSince(Apply(s, step), before)
  {
  }

  lemma {:induction false} SinceBlanking(s: State, before: State, steps: seq<Step>)
    requires Inv(s) && PastArchiving(s) && s.firstOfMonth && s.original == before.original && Runs(s, steps)
    requires BlankedSince(s, before)
    ensures BlankedSince(After(s, steps), before)
    decreases |steps|
  {
    if steps != [] {
      StepKeepsInv(s, steps[0]);
      StaysArchived(s, steps[0]);
      BlankedStep(s, before, steps[0]);
      SinceBlanking(Apply(s, steps[0]), before, steps[1..]);
    }
  }

  lemma {:induction false} SinceFailure(s: State, before: State, steps: seq<Step>)
    requires Inv(s) && PastArchiving(s) && s.firstOfMonth && s.original == before.original && Runs(s, steps)
    requires UnblankedSince(s, before)
    ensures if Blanks(steps) then BlankedSince(After(s, steps), before) else UnblankedSince(After(s, steps), before)
    decreases |steps|
  {
    if steps != [] {
      StepKeepsInv(s, steps[0]);
      StaysArchived(s, steps[0]);
      UnblankedStep(s, before, steps[0]);
      BlanksLater(steps);
      if steps[0].BlankLive? {
        SinceBlanking(Apply(s, steps[0]), before, steps[1..]);
      } else {
        SinceFailure(Apply(s, steps[0]), before, steps[1..]);
      }
    }
  }

  lemma BlanksLater(steps: seq<Step>)
    requires steps != []
    ensures Blanks(steps) <==> steps[0].BlankLive? || Blanks(steps[1..])
  {
    if i :| 0 <= i < |steps| && steps[i].BlankLive? {
      assert i > 0 ==> steps[1..][i - 1].BlankLive?;
    }
    if i :| 0 <= i < |steps[1..]| && steps[1..][i].BlankLive? {
      assert steps[i + 1].BlankLive?;
    }
  }

  predicate Alone(steps: seq<Step>) { forall i :: 0 <= i < |steps| ==> !steps[i].OtherWrite? }

  lemma {:induction false} MainAlone(s: State, steps: seq<Step>)
    requires Runs(s, steps) && Alone(steps)
    ensures var t := After(s, steps);
            s.mainWrites <= t.mainWrites && t.main == (if s.mainWrites < t.mainWrites then Some(Blank) else s.main)
    decreases |steps|
  {
    if steps != [] {
      assert !steps[0].OtherWrite?;
      MainAlone(Apply(s, steps[0]), steps[1..]);
    }
  }

  /** What the rest of a month's rollover does after a failed attempt, over every continuation
      that completes it: the live board is blanked again, and the rollover writes the blank board
      over the main row, exactly when the failed attempt left the monthly key unwritten.  That is
      one write, plus at most one for every further failure, and the monthly key ends with the
      daily copy.  Otherwise board, row and key are left alone.  Nothing drawn since the failure is
      ever archived.  What the row ends with is up to its other writers; without any it is blank
      or what it was. */
  lemma RetryBlanksIff(s: State, steps: seq<Step>)
    requires Inv(s) && s.phase == BetweenAttempts && s.day in s.daily && s.firstOfMonth
    requires Runs(s, steps) && After(s, steps).phase == Done
    ensures Blanks(steps) <==> s.monthly.None?
    ensures var t := After(s, steps);
            && t.daily == s.daily
            && t.monthly == (if s.monthly.None? then s.original else s.monthly)
            && (t.mainWrites > s.mainWrites <==> s.monthly.None?)
            && (s.monthly.Some? ==> t.mainWrites == s.mainWrites)
            && t.mainWrites - s.mainWrites <= t.lateFailures - s.lateFailures + 1
            && (Alone(steps) ==> t.main == (if s.monthly.None? then Some(Blank) else s.main))
  {
    RetryNeverPrunes(s, steps);
    SinceFailure(s, s, steps);
    if Alone(steps) {
      MainAlone(s, steps);
    }
  }

  /** The last change of the live board along a run, if there is one. */
  function LastChange(steps: seq<Step>): Option<Board> {
    if steps == [] then None
    else
      var last := steps[|steps| - 1];
      if last.Edit? then Some(last.board)
      else if last.BlankLive? then Some(Blank)
      else LastChange(steps[..|steps| - 1])
  }

  lemma {:induction false} LastChangeLater(steps: seq<Step>)
    requires steps != []
    ensures var first := if steps[0].Edit? then Some(steps[0].board) else if steps[0].BlankLive? then Some(Blank) else None;
            LastChange(steps) == if LastChange(steps[1..]).Some? then LastChange(steps[1..]) else first
    decreases |steps|
  {
    var n := |steps| - 1;
    if n > 0 {
      assert steps[1..][|steps[1..]| - 1] == steps[n] && steps[1..][..n - 1] == steps[..n][1..];
      LastChangeLater(steps[..n]);
    } else {
      assert steps[..0] == [] && steps[1..] == [];
    }
  }

  /** The live board is that of the last edit or blanking: a drawing made after the last blanking
      stays until it is drawn over, one made before is gone. */
  lemma {:induction false} LiveIsLastChange(s: State, steps: seq<Step>)
    requires Runs(s, steps)
    ensures After(s, steps).live == if LastChange(steps).Some? then LastChange(steps).value else s.live
    decreases |steps|
  {
    if steps != [] {
      LiveIsLastChange(Apply(s, steps[0]), steps[1..]);
      LastChangeLater(steps);
    }
  }

  /** A drawing survives to the end of a run exactly when the board is neither blanked nor drawn
      over with another picture after it. */
  lemma {:induction false} DrawingSurvivesIff(s: State, steps: seq<Step>, i: nat)
    requires Runs(s, steps) && i < |steps| && steps[i].Edit?
    ensures After(s, steps).live == steps[i].board <==>
              LastChange(steps[i + 1..]).None? || LastChange(steps[i + 1..]) == Some(steps[i].board)
    decreases i
  {
    LiveIsLastChange(s, steps);
    LastChangeAfter(steps, i);
  }

  lemma {:induction false} LastChangeAfter(steps: seq<Step>, i: nat)
    requires i < |steps| && steps[i].Edit?
    ensures LastChange(steps) == if LastChange(steps[i + 1..]).Some? then LastChange(steps[i + 1..]) else Some(steps[i].board)
    decreases i
  {
    LastChangeLater(steps);
    if i > 0 {
      assert steps[1..][i..] == steps[i + 1..];
      LastChangeAfter(steps[1..], i - 1);
    }
  }

  // --------------------------------------------------------------- ordinary days

  /** A phase of the month's rollover. */
  predicate MonthPhase(p: Phase) { p.Archived? || p.Blanking? || p.WritingMain? || p.WritingMonthly? }

  predicate SameMonth(s: State, t: State) {
    t.blankings == s.blankings && t.mainWrites == s.mainWrites && t.monthly == s.monthly && t.monthlyWrites == s.monthlyWrites
  }

  lemma OrdinaryStep(s: State, step: Step)
    requires !s.firstOfMonth && !MonthPhase(s.phase) && Enabled(s, step)
    ensures var t := Apply(s, step); !t.firstOfMonth && !MonthPhase(t.phase) && SameMonth(s, t) && !step.BlankLive?
  {
    match step
    case FindDaily(_) =>
    case SaveDaily(_) =>
    case DeleteOld(_) =>
    case PruneDone =>
    case _ =>
  }

  lemma {:induction false} OrdinaryRun(s: State, steps: seq<Step>)
    requires !s.firstOfMonth && !MonthPhase(s.phase) && Runs(s, steps)
    ensures var t := After(s, steps); !MonthPhase(t.phase) && SameMonth(s, t)
    ensures !Blanks(steps)
    decreases |steps|
  {
    if steps != [] {
      OrdinaryStep(s, steps[0]);
      OrdinaryRun(Apply(s, steps[0]), steps[1..]);
      BlanksLater(steps);
    }
  }

  /** On every day but the first of a month the rollover only archives and prunes: over all
      failures and retries it neither blanks the board nor writes the main row or the monthly
      key, and the live board is what the players drew last. */
  lemma OrdinaryDayOnlyArchives(s: State, steps: seq<Step>)
    requires Start(s) && !s.firstOfMonth && Runs(s, steps)
    ensures !Blanks(steps)
    ensures var t := After(s, steps);
            && SameMonth(s, t) && !MonthPhase(t.phase)
            && t.live == (if LastChange(steps).Some? then LastChange(steps).value else s.live)
  {
    OrdinaryRun(s, steps);
    LiveIsLastChange(s, steps);
  }

  // --------------------------------------------------------------- how an attempt ends

  /** A step of the rollover itself. */
  predicate Own(step: Step) { !step.Edit? && !step.OtherWrite? }

  /** A database call of the rollover fails. */
  predicate Fails(step: Step) {
    match step
    case FindDaily(ok) => !ok
    case SaveDaily(result) => result != Acknowledged
    case ListDaily(ok, _) => !ok
    case DeleteOld(result) => result != Acknowledged
    case FindMonthly(ok) => !ok
    case WriteMain(result) => result != Acknowledged
    case WriteMonthly(result) => result != Acknowledged
    case _ => false
  }

  lemma FailureEndsAttempt(s: State, step: Step)
    requires Enabled(s, step)
    ensures Own(step) ==> (Apply(s, step).phase == BetweenAttempts <==> Fails(step))
    ensures !Own(step) ==> Apply(s, step).phase == s.phase
  {
    match step
    case FindDaily(_) =>
    case SaveDaily(_) =>
    case ListDaily(_, _) =>
    case DeleteOld(_) =>
    case FindMonthly(_) =>
    case WriteMain(_) =>
    case WriteMonthly(_) =>
    case _ =>
  }

  /** The last step of the rollover itself, if there is one. */
  function LastOwn(steps: seq<Step>): Option<Step> {
    if steps == [] then None
    else if LastOwn(steps[1..]).Some? then LastOwn(steps[1..])
    else if Own(steps[0]) then Some(steps[0])
    else None
  }

  /** An attempt is given up exactly when one of its calls failed: no failure is passed over, and
      none is made up. */
  lemma {:induction false} AttemptEndsIff(s: State, steps: seq<Step>)
    requires Runs(s, steps)
    ensures After(s, steps).phase == BetweenAttempts <==>
            if LastOwn(steps).Some? then Fails(LastOwn(steps).value) else s.phase == BetweenAttempts
    decreases |steps|
  {
    if steps != [] {
      FailureEndsAttempt(s, steps[0]);
      AttemptEndsIff(Apply(s, steps[0]), steps[1..]);
    }
  }

  /** How many steps an attempt without failures has left at most. */
  function StepsLeft(s: State): nat {
    match s.phase
    case BetweenAttempts => |s.daily| + 12
    case Capturing => |s.daily| + 10
    case HasCanvas(_) => |s.daily| + 9
    case SavingDaily(_) => |s.daily| + 8
    case ListingOld(_) => |s.daily| + 6
    case Pruning(_, doomed) => |doomed| + 5
    case Archived(_) => 4
    case Blanking(_) => 3
    case WritingMain(_) => 2
    case WritingMonthly(_) => 1
    case Done => 0
  }

  function OwnSteps(steps: seq<Step>): nat {
    if steps == [] then 0 else (if Own(steps[0]) then 1 else 0) + OwnSteps(steps[1..])
  }

  lemma ListingSize(order: seq<int>, daily: map<int, Board>)
    requires NewestFirst(order, daily)
    ensures |order| == |daily|
  {
    PrefixSize(order, |order|);
    assert order[..|order|] == order;
    forall k ensures k in Elements(order) <==> k in daily.Keys {
      assert k in order <==> k in daily;
    }
    assert Elements(order) == daily.Keys;
    assert |daily.Keys| == |daily|;
  }

  lemma SaveGrows(daily: map<int, Board>, day: int, board: Board)
    ensures |daily[day := board]| <= |daily| + 1
  {
    assert daily[day := board].Keys == daily.Keys + {day};
    assert |daily[day := board].Keys| == |daily[day := board]| && |daily.Keys| == |daily|;
  }

  lemma SuccessAdvances(s: State, step: Step)
    requires Enabled(s, step) && !Fails(step)
    ensures StepsLeft(Apply(s, step)) + (if Own(step) then 1 else 0) <= StepsLeft(s)
  {
    match step
    case SaveDaily(_) => SaveGrows(s.daily, s.day, s.phase.board);
    case ListDaily(_, order) => ListingSize(order, s.daily);
    case FindDaily(_) =>
    case DeleteOld(_) =>
    case FindMonthly(_) =>
    case _ =>
  }

  /** The elements of a set of days, newest first. */
  lemma {:induction false} Listed(days: set<int>) returns (order: seq<int>)
    ensures forall i, j :: 0 <= i < j < |order| ==> order[i] > order[j]
    ensures forall k :: k in order <==> k in days
    decreases |days|
  {
    if days == {} {
      order := [];
    } else {
      var newest := Newest(days);
      var rest := Listed(days - {newest});
      order := [newest] + rest;
      forall i, j | 0 <= i < j < |order| ensures order[i] > order[j] {
        assert order[j] in rest;
      }
      forall k ensures k in order <==> k in days {
        assert k in order <==> k == newest || k in rest;
      }
    }
  }

  lemma {:induction false} Newest(days: set<int>) returns (newest: int)
    requires days != {}
    ensures newest in days && forall k :: k in days ==> k <= newest
    decreases |days|
  {
    var some := Member(days);
    var rest := days - {some};
    newest := some;
    if rest != {} {
      var other := Newest(rest);
      newest := if some < other then other else some;
    }
    forall k | k in days ensures k <= newest {
      assert k == some || k in rest;
    }
  }

  lemma AttemptIsNeverStuck(s: State) returns (step: Step)
    requires s.phase != Done && (s.phase.Archived? ==> s.firstOfMonth)
    ensures Enabled(s, step) && Own(step) && !Fails(step)
  {
    var order := [];
    if s.phase.ListingOld? {
      order := Listed(s.daily.Keys);
    }
    step := match s.phase
      case BetweenAttempts => FindDaily(true)
      case Capturing => CaptureCanvas
      case HasCanvas(_) => CaptureProvenance
      case SavingDaily(_) => SaveDaily(Acknowledged)
      case ListingOld(_) => ListDaily(true, order)
      case Pruning(_, doomed) => if doomed == [] then PruneDone else DeleteOld(Acknowledged)
      case Archived(_) => FindMonthly(true)
      case Blanking(_) => BlankLive
      case WritingMain(_) => WriteMain(Acknowledged)
      case _ => WriteMonthly(Acknowledged);
  }

  lemma ArchivedIsMonthly(s: State, step: Step)
    requires Enabled(s, step) && (s.phase.Archived? ==> s.firstOfMonth)
    ensures Apply(s, step).phase.Archived? ==> Apply(s, step).firstOfMonth
  {
    match step
    case FindDaily(_) =>
    case PruneDone =>
    case SaveDaily(_) =>
    case DeleteOld(_) =>
    case _ =>
  }

  /** An attempt whose calls succeed ends with the rollover done, whatever is drawn and written
      beside it: it has a bounded number of steps, and until then always a next one. */
  lemma {:induction false} AttemptSucceeds(s: State, steps: seq<Step>)
    requires (s.phase.Archived? ==> s.firstOfMonth) && Runs(s, steps) && forall i :: 0 <= i < |steps| ==> !Fails(steps[i])
    ensures var t := After(s, steps);
            && StepsLeft(t) + OwnSteps(steps) <= StepsLeft(s)
            && (t.phase == Done || exists step :: Enabled(t, step) && Own(step) && !Fails(step))
    decreases |steps|
  {
    if steps != [] {
      SuccessAdvances(s, steps[0]);
      ArchivedIsMonthly(s, steps[0]);
      AttemptSucceeds(Apply(s, steps[0]), steps[1..]);
    } else if s.phase != Done {
      var step := AttemptIsNeverStuck(s);
    }
  }

  // --------------------------------------------------------------- a drawing is lost

  lemma FirstAttempt(s: State) returns (steps: seq<Step>)
    requires Start(s) && s.firstOfMonth && s.daily == map[] && s.monthly.None?
    ensures Runs(s, steps)
    ensures var t := After(s, steps);
            && t.phase == Archived(s.live) && t.daily == map[s.day := s.live] && t.main == s.main && t.monthly.None?
            && t.live == s.live && t.day == s.day && t.firstOfMonth
  {
    var capture := [FindDaily(true), CaptureCanvas, CaptureProvenance];
    var s1 := Apply(s, FindDaily(true));
    var s2 := Apply(s1, CaptureCanvas);
    var s3 := Apply(s2, CaptureProvenance);
    FollowTrace(capture, [s, s1, s2, s3]);
    var prune := [SaveDaily(Acknowledged), ListDaily(true, [s.day]), PruneDone];
    var s4 := Apply(s3, SaveDaily(Acknowledged));
    assert NewestFirst([s.day], s4.daily);
    var s5 := Apply(s4, ListDaily(true, [s.day]));
    FollowTrace(prune, [s3, s4, s5, Apply(s5, PruneDone)]);
    RunsConcat(s, capture, prune);
    steps := capture + prune;
  }

  lemma FailToBlank(s: State, drawing: Board) returns (steps: seq<Step>)
    requires s.phase.Archived? && s.firstOfMonth && s.day in s.daily && s.monthly.None?
    ensures Runs(s, steps) && drawing in Drawn(steps)
    ensures var t := After(s, steps);
            && t.phase == BetweenAttempts && t.live == drawing && t.main == s.main && t.monthly.None? && t.daily == s.daily
            && t.day == s.day && t.firstOfMonth
  {
    steps := [FindMonthly(true), BlankLive, WriteMain(Lost), Edit(drawing)];
    var s1 := Apply(s, FindMonthly(true));
    var s2 := Apply(s1, BlankLive);
    var s3 := Apply(s2, WriteMain(Lost));
    FollowTrace(steps, [s, s1, s2, s3, Apply(s3, Edit(drawing))]);
    assert steps[3] == Edit(drawing);
  }

  lemma Retry(s: State) returns (steps: seq<Step>)
    requires s.phase == BetweenAttempts && s.firstOfMonth && s.day in s.daily && s.monthly.None?
    ensures Runs(s, steps)
    ensures var t := After(s, steps);
            t.phase == Done && t.live == Blank && t.monthly == Some(s.daily[s.day]) && t.main == Some(Blank) && t.daily == s.daily
  {
    var find := [FindDaily(true), FindMonthly(true), BlankLive];
    var s1 := Apply(s, FindDaily(true));
    var s2 := Apply(s1, FindMonthly(true));
    var s3 := Apply(s2, BlankLive);
    FollowTrace(find, [s, s1, s2, s3]);
    var write := [WriteMain(Acknowledged), WriteMonthly(Acknowledged)];
    var s4 := Apply(s3, WriteMain(Acknowledged));
    FollowTrace(write, [s3, s4, Apply(s4, WriteMonthly(Acknowledged))]);
    RunsConcat(s, find, write);
    steps := find + write;
  }

  /** On a fresh server: a main-row write fails, somebody draws, and the retry blanks again.  The
      drawing is neither live nor stored under any key. */
  lemma RetryErasesNewEdits(s: State, drawing: Board) returns (steps: seq<Step>)
    requires Start(s) && s.firstOfMonth && s.daily == map[] && s.monthly.None?
    requires drawing != Blank && drawing != s.live
    ensures Runs(s, steps) && drawing in Drawn(steps)
    ensures var t := After(s, steps);
            && t.phase == Done && t.live == Blank && t.main == Some(Blank) && t.monthly == Some(s.live)
            && forall k :: k in t.daily ==> t.daily[k] != drawing
  {
    var first := FirstAttempt(s);
    var s1 := After(s, first);
    var failed := FailToBlank(s1, drawing);
    var s2 := After(s1, failed);
    var again := Retry(s2);
    RunsConcat(s1, failed, again);
    RunsConcat(s, first, failed + again);
    steps := first + (failed + again);
    var i :| 0 <= i < |failed| && failed[i] == Edit(drawing);
    assert steps[|first| + i] == Edit(drawing);
  }

  /** The boards drawn along a run. */
  ghost function Drawn(steps: seq<Step>): set<Board> {
    set i | 0 <= i < |steps| && steps[i].Edit? :: steps[i].board
  }

  // --------------------------------------------------------------- what pruning leaves

  /** Acknowledged deletes, and what others do to the board and the main row. */
  predicate Undisturbed(steps: seq<Step>) {
    forall i :: 0 <= i < |steps| ==>
      steps[i].Edit? || steps[i].OtherWrite? || steps[i] == DeleteOld(Acknowledged) || steps[i].PruneDone?
  }

  lemma {:induction false} OnlyOthersLeft(s: State, steps: seq<Step>)
    requires !s.phase.Pruning? && Runs(s, steps) && Undisturbed(steps)
    ensures After(s, steps).daily == s.daily && After(s, steps).phase == s.phase
    decreases |steps|
  {
    if steps != [] {
      OnlyOthersLeft(Apply(s, steps[0]), steps[1..]);
    }
  }

  lemma {:induction false} PruneRemoves(s: State, steps: seq<Step>)
    requires s.phase.Pruning? && Runs(s, steps) && Undisturbed(steps) && !After(s, steps).phase.Pruning?
    ensures var t := After(s, steps);
            && (forall k :: k in t.daily <==> k in s.daily && k !in s.phase.doomed)
            && forall k :: k in t.daily ==> t.daily[k] == s.daily[k]
    decreases |steps|
  {
    var s' := Apply(s, steps[0]);
    assert Undisturbed(steps[1..]);
    if steps[0].PruneDone? {
      OnlyOthersLeft(s', steps[1..]);
    } else {
      PruneRemoves(s', steps[1..]);
      if steps[0].DeleteOld? {
        assert s.phase.doomed == [s.phase.doomed[0]] + s.phase.doomed[1..];
      }
    }
  }

  /** A prune that nothing disturbs leaves exactly the seven newest daily copies, as they were. */
  lemma PruneLeavesNewest(s: State, order: seq<int>, listed: State, steps: seq<Step>)
    requires Inv(s) && s.phase.ListingOld? && NewestFirst(order, s.daily) && listed == Apply(s, ListDaily(true, order))
    requires Runs(listed, steps) && Undisturbed(steps) && !After(listed, steps).phase.Pruning?
    ensures forall k :: k in After(listed, steps).daily <==> k in s.daily && |Newer(s.daily, k)| < 7
    ensures forall k :: k in After(listed, steps).daily ==> After(listed, steps).daily[k] == s.daily[k]
  {
    PruneRemoves(listed, steps);
    forall k | k in s.daily ensures k in listed.phase.doomed <==> |Newer(s.daily, k)| >= MAX_DAILY_SNAPSHOTS {
      if |Newer(s.daily, k)| < MAX_DAILY_SNAPSHOTS {
        NewestAreKept(order, s.daily, k);
      } else {
        OldDayIsPruned(order, s.daily, k);
      }
    }
  }

  lemma {:induction false} FollowTrace(steps: seq<Step>, trace: seq<State>)
    requires |trace| == |steps| + 1
    requires forall i :: 0 <= i < |steps| ==> Enabled(trace[i], steps[i]) && trace[i + 1] == Apply(trace[i], steps[i])
    ensures Runs(trace[0], steps) && After(trace[0], steps) == trace[|steps|]
    decreases |steps|
  {
    if steps != [] {
      FollowTrace(steps[1..], trace[1..]);
    }
  }

  lemma {:induction false} RunsConcat(s: State, first: seq<Step>, second: seq<Step>)
    requires Runs(s, first) && Runs(After(s, first), second)
    ensures Runs(s, first + second) && After(s, first + second) == After(After(s, first), second)
    decreases |first|
  {
    if first == [] {
      assert first + second == second;
    } else {
      assert (first + second)[1..] == first[1..] + second;
      RunsConcat(Apply(s, first[0]), first[1..], second);
    }
  }

  // --------------------------------------------------------------- the capture

  function Edits(boards: seq<Board>): seq<Step> { seq(|boards|, i requires 0 <= i < |boards| => Edit(boards[i])) }

  /** The board an attempt archives when these were drawn between its two reads. */
  lemma Captures(s: State, between: seq<Board>) returns (live: seq<Board>)
    requires s.phase.Capturing?
    ensures live == [s.live] + between
    ensures var steps := [CaptureCanvas] + Edits(between) + [CaptureProvenance];
            Runs(s, steps) && After(s, steps).phase == SavingDaily(Board(live[0].canvas, live[|between|].provenance))
  {
    live := [s.live] + between;
    var s1 := Apply(s, CaptureCanvas);
    FollowTrace([CaptureCanvas], [s, s1]);
    EditsOnly(s1, between);
    var s2 := After(s1, Edits(between));
    FollowTrace([CaptureProvenance], [s2, Apply(s2, CaptureProvenance)]);
    RunsConcat(s, [CaptureCanvas], Edits(between));
    RunsConcat(s, [CaptureCanvas] + Edits(between), [CaptureProvenance]);
  }

  /** The picture and its provenance are read one after the other without the persistence lock.
      The archived pair was live at some moment between the reads exactly when at that moment the
      picture was that of the first read and the provenance that of the second.  So unless an
      edit brings the first picture back, the pair was never live once the provenance changed. */
  lemma CaptureIsTornByEdits(s: State, between: seq<Board>, live: seq<Board>, steps: seq<Step>)
    requires s.phase.Capturing? && live == [s.live] + between
    requires steps == [CaptureCanvas] + Edits(between) + [CaptureProvenance]
    ensures Runs(s, steps) && After(s, steps).phase.SavingDaily?
    ensures After(s, steps).phase.board in live <==>
      exists k :: 0 <= k < |live| && StandsAt(live, k)
    ensures (forall k :: 0 <= k < |between| ==> between[k].canvas != s.live.canvas) ==>
      (After(s, steps).phase.board in live <==> s.live.provenance == live[|between|].provenance)
  {
    var boards := Captures(s, between);
    assert forall k :: 0 < k < |live| ==> live[k] == between[k - 1];
    assert live[0] == s.live;
    var pair := Board(s.live.canvas, live[|between|].provenance);
    if k :| 0 <= k < |live| && StandsAt(live, k) {
      assert live[k] == pair;
    }
    if pair in live {
      var k :| 0 <= k < |live| && live[k] == pair;
      assert StandsAt(live, k);
    }
    assert s.live.provenance == live[|between|].provenance ==> StandsAt(live, 0);
  }

  /** The picture read first and the provenance read last stand together. */
  predicate StandsAt(live: seq<Board>, k: nat)
    requires k < |live|
  {
    live[k].canvas == live[0].canvas && live[k].provenance == live[|live| - 1].provenance
  }

  lemma {:induction false} EditsOnly(s: State, boards: seq<Board>)
    ensures var edits := Edits(boards);
            Runs(s, edits) && After(s, edits) == s.(live := if boards == [] then s.live else boards[|boards| - 1])
    decreases |boards|
  {
    if boards != [] {
      EditsOnly(s.(live := boards[0]), boards[1..]);
      assert Edits(boards)[1..] == Edits(boards[1..]);
    }
  }
}
