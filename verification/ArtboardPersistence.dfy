/** Persistence of the shared artboard.

    `late-ssh/src/dartboard.rs` keeps the live board in memory and writes it to the
    `main` row of the database from three places: a debounced persist thread, the
    tail of a restore, and a shutdown flush.  Every step below is one atomic action
    of that code and any database call may fail, so a run is an arbitrary
    interleaving of board edits, restores, flushes and the persist thread. */
module ArtboardPersistence {
  import opened Wrappers

  /** A picture and its provenance carry the number of whole-board replacements
      (restores) they descend from. */
  datatype Canvas = Canvas(epoch: nat, paint: int)
  datatype Provenance = Provenance(epoch: nat, authors: int)
  datatype Board = Board(canvas: Canvas, provenance: Provenance)

  /** A board together with the number of saves made when it was taken. */
  datatype Copy = Copy(board: Board, version: nat)

  predicate Paired(b: Board) { b.canvas.epoch == b.provenance.epoch }

  /** Where the persist thread stands; `last` marks the flush after disconnection. */
  datatype Phase =
    | Parked                          // recv()
    | Debouncing                      // recv_timeout() until the deadline
    | Flushing(last: bool)            // wants the persistence lock
    | Prepared(last: bool, copy: Copy)  // copy taken, lock released; serializing, getting a client
    | Ready(last: bool, copy: Copy)     // has a client, wants the lock again
    | Checked(last: bool, copy: Copy)   // holds the lock, version unchanged; upserting
    | Failed(last: bool, copy: Copy)    // a database call failed; about to raise `dirty`
    | Written(last: bool)             // upsert acknowledged; about to look at `dirty`
    | Exited(clean: bool)

  /** The persistence lock. */
  datatype Holder =
    | Nobody
    | Persister
    | Replacing(paint: int, provenance: Provenance)  // restore: provenance replaced, canvas not yet
    | Replaced(copy: Copy)   // restore: canvas replaced and saved, lock not yet released

  /** A write of the persist thread that reached the database. */
  datatype Write = Write(copy: Copy, acknowledged: bool, epoch: nat)

  datatype State = State(
    live: Canvas,
    provenance: Provenance,
    lock: Holder,
    // PersistState
    latest: Option<Canvas>,
    dirty: bool,
    version: nat,
    // notify channel
    tokens: nat,
    connected: bool,
    unsent: nat,              // savers that raised `dirty` and have not sent yet
    phase: Phase,
    direct: seq<Copy>,        // restores and flushes that left the lock and have not written yet
    // database
    row: Option<Board>,
    rowVersion: nat,          // the save the row shows
    highest: nat,             // the newest save any write ever showed
    writes: seq<Write>)

  predicate Start(s: State) {
    && s.live.epoch == 0 && s.provenance.epoch == 0 && s.lock == Nobody
    && s.latest == None && !s.dirty && s.version == 0
    && s.tokens == 0 && s.connected && s.unsent == 0
    && s.phase == Parked && s.direct == []
    && (s.row.Some? ==> s.row.value == Board(s.live, s.provenance))
    && s.rowVersion == 0 && s.highest == 0 && s.writes == []
  }

  datatype BoardStep =
    | Edit(paint: int)         // an ordinary op: the server applies it and calls save()
    | Attribute(authors: int)  // apply_shared_op updates the shared provenance
    | Send                     // second half of save(): notify the persist thread
    | Disconnect               // the server and with it the sender is dropped

  datatype RestoreStep =
    | BeginRestore(paint: int, authors: int)  // lock, replace the provenance
    | ReplaceCanvas                           // submit_op_for(Replace), which calls save()
    | EndRestore                              // unlock; the row is still to be written
    | FlushSnapshot                           // flush_server_snapshot's locked section
    | DirectWrite(i: nat, landed: bool)       // either one's database write

  datatype Upsert = Acknowledged | Lost | LandedUnacknowledged

  // run_persist_loop
  datatype WaitStep =
    | Recv
    | RecvDisconnected
    | DebounceRecv
    | DebounceTimeout
    | DebounceDisconnected

  // flush_dirty_canvas and persist_canvas
  datatype FlushStep =
    | TakeCopy
    | GetClient(ok: bool)
    | CheckVersion
    | UpsertRow(result: Upsert)
    | MarkDirty
    | LookAtDirty

  datatype Step = OnBoard(b: BoardStep) | OnRestore(r: RestoreStep) | OnWait(w: WaitStep) | OnFlush(f: FlushStep)

  // --------------------------------------------------------------- steps

  /** First half of save(). */
  function Saved(s: State, canvas: Canvas): State {
    s.(live := canvas, latest := Some(canvas), version := s.version + 1,
       dirty := true, unsent := if s.dirty then s.unsent else s.unsent + 1)
  }

  predicate BoardEnabled(s: State, step: BoardStep) {
    match step
    case Edit(_) => s.connected
    case Attribute(_) => true
    case Send => s.unsent > 0
    case Disconnect => s.connected && s.unsent == 0 && !s.lock.Replacing?
  }

  function ApplyBoard(s: State, step: BoardStep): State
    requires BoardEnabled(s, step)
  {
    match step
    case Edit(paint) => Saved(s, Canvas(s.live.epoch, paint))
    case Attribute(authors) => s.(provenance := Provenance(s.provenance.epoch, authors))
    case Send => s.(unsent := s.unsent - 1, tokens := s.tokens + 1)
    case Disconnect => s.(connected := false)
  }

  predicate RestoreEnabled(s: State, step: RestoreStep) {
    match step
    case BeginRestore(_, _) => s.lock == Nobody && s.connected
    case ReplaceCanvas => s.lock.Replacing?
    case EndRestore => s.lock.Replaced?
    case FlushSnapshot => s.lock == Nobody
    case DirectWrite(i, _) => i < |s.direct|
  }

  function ApplyRestore(s: State, step: RestoreStep): State
    requires RestoreEnabled(s, step)
  {
    match step
    case BeginRestore(paint, authors) =>
      var given := Provenance(s.provenance.epoch + 1, authors);
      s.(lock := Replacing(paint, given), provenance := given)
    case ReplaceCanvas =>
      // the restore goes on to write what it was given, whatever is drawn meanwhile
      var given := Canvas(s.live.epoch + 1, s.lock.paint);
      Saved(s, given).(lock := Replaced(Copy(Board(given, s.lock.provenance), s.version + 1)))
    case EndRestore => s.(lock := Nobody, direct := s.direct + [s.lock.copy])
    case FlushSnapshot => s.(direct := s.direct + [Copy(Board(s.live, s.provenance), s.version)])
    case DirectWrite(i, landed) =>
      var rest := s.(direct := s.direct[..i] + s.direct[i + 1..]);
      if landed then Stored(rest, s.direct[i]) else rest
  }

  /** The main row after `copy` reached the database. */
  function Stored(s: State, copy: Copy): State {
    s.(row := Some(copy.board), rowVersion := copy.version,
       highest := if s.highest < copy.version then copy.version else s.highest)
  }

  predicate WaitEnabled(s: State, step: WaitStep) {
    match step
    case Recv => s.phase == Parked && s.tokens > 0
    case RecvDisconnected => s.phase == Parked && s.tokens == 0 && !s.connected
    case DebounceRecv => s.phase == Debouncing && s.tokens > 0
    case DebounceTimeout => s.phase == Debouncing
    case DebounceDisconnected => s.phase == Debouncing && s.tokens == 0 && !s.connected
  }

  function ApplyWait(s: State, step: WaitStep): State
    requires WaitEnabled(s, step)
  {
    match step
    case Recv => s.(phase := Debouncing, tokens := s.tokens - 1)
    case RecvDisconnected => s.(phase := Flushing(true))
    case DebounceRecv => s.(tokens := s.tokens - 1)
    case DebounceTimeout => s.(phase := Flushing(false))
    case DebounceDisconnected => s.(phase := Flushing(true))
  }

  predicate FlushEnabled(s: State, step: FlushStep) {
    match step
    case TakeCopy => s.phase.Flushing? && s.lock == Nobody
    case GetClient(_) => s.phase.Prepared?
    case CheckVersion => s.phase.Ready? && s.lock == Nobody
    case UpsertRow(_) => s.phase.Checked?
    case MarkDirty => s.phase.Failed?
    case LookAtDirty => s.phase.Written?
  }

  /** flush_dirty_canvas returned `again`: the loop debounces once more or parks,
      except that the flush after disconnection ends the thread. */
  function Returned(last: bool, again: bool, clean: bool): Phase {
    if last then Exited(clean) else if again then Debouncing else Parked
  }

  function ApplyFlush(s: State, step: FlushStep): State
    requires FlushEnabled(s, step)
  {
    match step
    case TakeCopy =>
      var last := s.phase.last;
      if !s.dirty then s.(phase := Returned(last, false, true))
      else if s.latest.None? then s.(phase := Returned(last, false, true), dirty := false)
      else s.(phase := Prepared(last, Copy(Board(s.latest.value, s.provenance), s.version)), dirty := false)
    case GetClient(ok) =>
      if ok then s.(phase := Ready(s.phase.last, s.phase.copy))
      else s.(phase := Failed(s.phase.last, s.phase.copy))
    case CheckVersion =>
      if s.version != s.phase.copy.version then s.(phase := Returned(s.phase.last, true, true))
      else s.(phase := Checked(s.phase.last, s.phase.copy), lock := Persister)
    case UpsertRow(result) =>
      var landed := if result == Lost then s else
        Stored(s, s.phase.copy).(
          writes := s.writes + [Write(s.phase.copy, result == Acknowledged, s.provenance.epoch)]);
      landed.(lock := Nobody,
              phase := if result == Acknowledged then Written(s.phase.last)
                       else Failed(s.phase.last, s.phase.copy))
    case MarkDirty =>
      s.(latest := if s.version == s.phase.copy.version then Some(s.phase.copy.board.canvas) else s.latest,
         dirty := true, phase := Returned(s.phase.last, true, false))
    case LookAtDirty => s.(phase := Returned(s.phase.last, s.dirty, true))
  }

  predicate Enabled(s: State, step: Step) {
    match step
    case OnBoard(b) => BoardEnabled(s, b)
    case OnRestore(r) => RestoreEnabled(s, r)
    case OnWait(w) => WaitEnabled(s, w)
    case OnFlush(f) => FlushEnabled(s, f)
  }

  function Apply(s: State, step: Step): State
    requires Enabled(s, step)
  {
    match step
    case OnBoard(b) => ApplyBoard(s, b)
    case OnRestore(r) => ApplyRestore(s, r)
    case OnWait(w) => ApplyWait(s, w)
    case OnFlush(f) => ApplyFlush(s, f)
  }

  ghost predicate Runs(s: State, steps: seq<Step>)
    decreases |steps|
  {
    steps == [] || (Enabled(s, steps[0]) && Runs(Apply(s, steps[0]), steps[1..]))
  }

  ghost function After(s: State, steps: seq<Step>): State
    requires Runs(s, steps)
    decreases |steps|
  {
    if steps == [] then s else After(Apply(s, steps[0]), steps[1..])
  }

  // --------------------------------------------------------------- the invariant

  predicate HoldsCopy(p: Phase) { p.Prepared? || p.Ready? || p.Checked? || p.Failed? }

  /** The flush after disconnection is under way or over. */
  predicate LastFlush(p: Phase) {
    match p
    case Parked => false
    case Debouncing => false
    case Exited(_) => true
    case _ => p.last
  }

  /** A copy never runs ahead of the saves, shows the live board while no save has
      come since, and pairs a picture with provenance of the same epoch. */
  predicate Faithful(s: State, copy: Copy) {
    && copy.version <= s.version
    && (copy.version == s.version ==> copy.board.canvas == s.live)
    && copy.board.canvas.epoch <= s.live.epoch
    && Paired(copy.board)
  }

  predicate BoardInv(s: State) {
    && s.provenance.epoch == s.live.epoch + (if s.lock.Replacing? then 1 else 0)
    && (s.version > 0 ==> s.latest == Some(s.live))
    && (s.version == 0 ==> s.latest == None && !s.dirty)
    && (!s.connected ==> s.unsent == 0 && !s.lock.Replacing?)
    && (s.lock == Persister <==> s.phase.Checked?)
    && (s.lock.Replacing? ==> s.lock.provenance.epoch == s.provenance.epoch)
    && (s.lock.Replaced? ==> Faithful(s, s.lock.copy))
  }

  predicate PhaseInv(s: State) {
    && (s.phase == Parked && s.dirty ==> s.tokens > 0 || s.unsent > 0)
    && (LastFlush(s.phase) ==> !s.connected)
    && (HoldsCopy(s.phase) ==>
          && Faithful(s, s.phase.copy) && s.phase.copy.version > 0
          && (s.dirty <==> s.phase.copy.version < s.version)
          && (s.phase.last ==> !s.dirty))
    && (s.phase.Checked? ==> s.phase.copy.board.provenance.epoch == s.provenance.epoch)
    && (!s.dirty && !HoldsCopy(s.phase) ==> s.highest == s.version)
    && (s.phase.Exited? && s.phase.clean ==> !s.dirty)
    && (s.phase.Written? && s.phase.last ==> !s.dirty)
  }

  predicate RowShown(s: State) {
    && s.rowVersion <= s.highest <= s.version
    && (s.row.None? ==> s.rowVersion == 0)
    && (s.row.Some? ==> Faithful(s, Copy(s.row.value, s.rowVersion)))
  }

  predicate DirectFaithful(s: State) {
    forall i :: 0 <= i < |s.direct| ==> Faithful(s, s.direct[i])
  }

  /** While the persist thread holds the lock for its write, nothing newer is on its way. */
  predicate NothingNewer(s: State) {
    s.phase.Checked? ==>
      s.highest <= s.phase.copy.version && forall i :: 0 <= i < |s.direct| ==> s.direct[i].version <= s.phase.copy.version
  }

  predicate RowInv(s: State) { RowShown(s) && DirectFaithful(s) && NothingNewer(s) }

  ghost predicate Inv(s: State) {
    BoardInv(s) && PhaseInv(s) && RowInv(s) && WriteInv(s)
  }

  ghost predicate WriteInv(s: State) {
    && (forall i :: 0 <= i < |s.writes| ==>
          && 0 < s.writes[i].copy.version <= s.version
          && Paired(s.writes[i].copy.board) && s.writes[i].copy.board.canvas.epoch == s.writes[i].epoch
          && s.writes[i].epoch <= s.provenance.epoch)
    && (forall i, j :: 0 <= i < j < |s.writes| ==> Ordered(s.writes[i], s.writes[j]))
    && (forall i :: 0 <= i < |s.writes| && HoldsCopy(s.phase) ==>
          s.writes[i].copy.version <= s.phase.copy.version &&
          (s.writes[i].acknowledged ==> s.writes[i].copy.version < s.phase.copy.version))
    && (forall i :: 0 <= i < |s.writes| && s.dirty && s.writes[i].acknowledged ==>
          s.writes[i].copy.version < s.version)
  }

  /** Later writes show later saves; a save is shown again only when the earlier
      write of it was not acknowledged. */
  predicate Ordered(earlier: Write, later: Write) {
    && earlier.copy.version <= later.copy.version
    && (earlier.acknowledged ==> earlier.copy.version < later.copy.version)
    && earlier.epoch <= later.epoch
  }

  lemma BoardKeepsInv(s: State, step: BoardStep)
    requires Inv(s) && BoardEnabled(s, step)
    ensures Inv(ApplyBoard(s, step))
  {
  }

  lemma RestoreKeepsBoard(s: State, step: RestoreStep)
    requires BoardInv(s) && DirectFaithful(s) && RestoreEnabled(s, step)
    ensures BoardInv(ApplyRestore(s, step))
  {
  }

  lemma RestoreKeepsPhase(s: State, step: RestoreStep)
    requires BoardInv(s) && PhaseInv(s) && RowInv(s) && RestoreEnabled(s, step)
    ensures PhaseInv(ApplyRestore(s, step))
  {
    match step
    case ReplaceCanvas =>
    case DirectWrite(i, _) => assert Faithful(s, s.direct[i]);
    case _ =>
  }

  /** What is about the row carries over to a state with the same row, saves and copies, unless
      the persist thread has just checked its version. */
  lemma SameRow(s: State, s': State)
    requires RowInv(s) && (s'.phase.Checked? ==> s'.phase == s.phase)
    requires s'.row == s.row && s'.rowVersion == s.rowVersion && s'.highest == s.highest
    requires s'.version == s.version && s'.live == s.live && s'.direct == s.direct
    ensures RowInv(s')
  {
  }

  lemma ReplaceKeepsRow(s: State)
    requires RowInv(s) && s.lock.Replacing? && !s.phase.Checked?
    ensures RowInv(ApplyRestore(s, ReplaceCanvas))
  {
  }

  /** Another write is on its way. */
  lemma OnItsWay(s: State, s': State, copy: Copy)
    requires RowInv(s) && Faithful(s, copy) && !s.phase.Checked? && !s'.phase.Checked?
    requires s'.row == s.row && s'.rowVersion == s.rowVersion && s'.highest == s.highest
    requires s'.version == s.version && s'.live == s.live && s'.direct == s.direct + [copy]
    ensures RowInv(s')
  {
  }

  lemma DirectWriteKeepsRow(s: State, i: nat, landed: bool)
    requires RowInv(s) && i < |s.direct|
    ensures RowInv(ApplyRestore(s, DirectWrite(i, landed)))
  {
    var s' := ApplyRestore(s, DirectWrite(i, landed));
    assert Faithful(s, s.direct[i]);
    assert forall j :: 0 <= j < |s'.direct| ==> s'.direct[j] == s.direct[if j < i then j else j + 1];
  }

  lemma RestoreKeepsRow(s: State, step: RestoreStep)
    requires BoardInv(s) && RowInv(s) && RestoreEnabled(s, step)
    ensures RowInv(ApplyRestore(s, step))
  {
    var s' := ApplyRestore(s, step);
    match step
    case BeginRestore(_, _) => SameRow(s, s');
    case ReplaceCanvas => ReplaceKeepsRow(s);
    case EndRestore => OnItsWay(s, s', s.lock.copy);
    case FlushSnapshot => OnItsWay(s, s', Copy(Board(s.live, s.provenance), s.version));
    case DirectWrite(i, landed) => DirectWriteKeepsRow(s, i, landed);
  }

  lemma RestoreKeepsWrites(s: State, step: RestoreStep)
    requires Inv(s) && RestoreEnabled(s, step)
    ensures WriteInv(ApplyRestore(s, step))
  {
    assert ApplyRestore(s, step).writes == s.writes;
  }

  lemma WaitKeepsInv(s: State, step: WaitStep)
    requires Inv(s) && WaitEnabled(s, step)
    ensures Inv(ApplyWait(s, step))
  {
    WaitKeepsPhase(s, step);
    WaitLeaves(s, step);
    SameRow(s, ApplyWait(s, step));
    SameWrites(s, ApplyWait(s, step));
  }

  lemma WaitKeepsPhase(s: State, step: WaitStep)
    requires BoardInv(s) && PhaseInv(s) && WaitEnabled(s, step)
    ensures BoardInv(ApplyWait(s, step)) && PhaseInv(ApplyWait(s, step))
  {
  }

  lemma WaitLeaves(s: State, step: WaitStep)
    requires WaitEnabled(s, step)
    ensures var s' := ApplyWait(s, step); s' == s.(phase := s'.phase, tokens := s'.tokens) && !HoldsCopy(s'.phase)
  {
  }

  lemma SameWrites(s: State, s': State)
    requires WriteInv(s) && s'.writes == s.writes && s'.version == s.version && s'.provenance == s.provenance && s'.dirty == s.dirty
    requires !HoldsCopy(s'.phase)
    ensures WriteInv(s')
  {
  }

  lemma FlushKeepsPhase(s: State, step: FlushStep)
    requires BoardInv(s) && PhaseInv(s) && s.highest <= s.version && FlushEnabled(s, step)
    ensures PhaseInv(ApplyFlush(s, step))
  {
  }

  lemma FlushKeepsBoard(s: State, step: FlushStep)
    requires BoardInv(s) && PhaseInv(s) && FlushEnabled(s, step)
    ensures BoardInv(ApplyFlush(s, step))
  {
  }

  lemma CheckKeepsRow(s: State)
    requires RowInv(s) && s.phase.Ready? && s.lock == Nobody
    ensures RowInv(ApplyFlush(s, CheckVersion))
  {
  }

  lemma UpsertKeepsRow(s: State, result: Upsert)
    requires RowInv(s) && s.phase.Checked? && Faithful(s, s.phase.copy) && s.phase.copy.version > 0
    ensures RowInv(ApplyFlush(s, UpsertRow(result)))
  {
  }

  lemma FlushKeepsRow(s: State, step: FlushStep)
    requires PhaseInv(s) && RowInv(s) && FlushEnabled(s, step)
    ensures RowInv(ApplyFlush(s, step))
  {
    match step
    case CheckVersion => CheckKeepsRow(s);
    case UpsertRow(result) => UpsertKeepsRow(s, result);
    case _ => SameRow(s, ApplyFlush(s, step));
  }

  lemma FlushKeepsWrites(s: State, step: FlushStep)
    requires Inv(s) && FlushEnabled(s, step)
    ensures WriteInv(ApplyFlush(s, step))
  {
    if step.UpsertRow? {
      UpsertKeepsWrites(s, step.result);
    } else if step == TakeCopy {
      TakeCopyKeepsWrites(s);
    } else {
      assert ApplyFlush(s, step).writes == s.writes;
    }
  }

  lemma UpsertKeepsWrites(s: State, result: Upsert)
    requires Inv(s) && s.phase.Checked?
    ensures WriteInv(ApplyFlush(s, UpsertRow(result)))
  {
    WritesGrow(s, Write(s.phase.copy, result == Acknowledged, s.provenance.epoch));
  }

  lemma TakeCopyKeepsWrites(s: State)
    requires Inv(s) && s.phase.Flushing? && s.lock == Nobody
    ensures WriteInv(ApplyFlush(s, TakeCopy))
  {
  }

  /** Appending the write of the copy the thread holds keeps the order of writes. */
  lemma WritesGrow(s: State, w: Write)
    requires Inv(s) && s.phase.Checked? && w.copy == s.phase.copy && w.epoch == s.provenance.epoch
    ensures var writes := s.writes + [w];
            && (forall i :: 0 <= i < |writes| ==>
                  && 0 < writes[i].copy.version <= s.version
                  && Paired(writes[i].copy.board) && writes[i].copy.board.canvas.epoch == writes[i].epoch
                  && writes[i].epoch <= s.provenance.epoch)
            && (forall i, j :: 0 <= i < j < |writes| ==> Ordered(writes[i], writes[j]))
  {
  }

  lemma StepKeepsInv(s: State, step: Step)
    requires Inv(s) && Enabled(s, step)
    ensures Inv(Apply(s, step))
  {
    match step
    case OnBoard(b) => BoardKeepsInv(s, b);
    case OnRestore(r) =>
      RestoreKeepsBoard(s, r);
      RestoreKeepsPhase(s, r);
      RestoreKeepsRow(s, r);
      RestoreKeepsWrites(s, r);
    case OnWait(w) => WaitKeepsInv(s, w);
    case OnFlush(f) =>
      FlushKeepsPhase(s, f);
      FlushKeepsBoard(s, f);
      FlushKeepsRow(s, f);
      FlushKeepsWrites(s, f);
  }

  lemma {:induction false} RunKeepsInv(s: State, steps: seq<Step>)
    requires Inv(s) && Runs(s, steps)
    ensures Inv(After(s, steps))
    decreases |steps|
  {
    if steps != [] {
      StepKeepsInv(s, steps[0]);
      RunKeepsInv(Apply(s, steps[0]), steps[1..]);
    }
  }

  lemma StartIsGood(s: State)
    requires Start(s)
    ensures Inv(s)
  {
  }

  // --------------------------------------------------------------- durability

  /** The persist thread waits on an empty channel and no saver has yet to notify it. */
  predicate Quiescent(s: State) { s.phase == Parked && s.tokens == 0 && s.unsent == 0 }

  /** The row shows an older save than some earlier write did. */
  predicate Overtaken(s: State) { s.rowVersion < s.highest }

  /** The newest save has been made and the row shows exactly its picture. */
  predicate Durable(s: State) {
    && !s.dirty
    && (s.version > 0 ==>
          s.row.Some? && s.latest == Some(s.row.value.canvas) && s.rowVersion == s.version)
  }

  /** Quiescence means durable, whatever failed on the way, exactly when the row was
      not overtaken; no save is ever forgotten in any case. */
  lemma QuiescentMeansDurable(s: State, steps: seq<Step>)
    requires Start(s) && Runs(s, steps)
    ensures var t := After(s, steps);
            Quiescent(t) ==> !t.dirty && t.highest == t.version && (Durable(t) <==> !Overtaken(t))
  {
    StartIsGood(s);
    RunKeepsInv(s, steps);
  }

  /** The same holds when the thread exits after disconnection, unless a database
      call of its last flush failed. */
  lemma CleanExitMeansDurable(s: State, steps: seq<Step>)
    requires Start(s) && Runs(s, steps)
    ensures var t := After(s, steps);
            t.phase == Exited(true) ==> !t.dirty && t.highest == t.version && (Durable(t) <==> !Overtaken(t))
  {
    StartIsGood(s);
    RunKeepsInv(s, steps);
  }

  /** The late write of a restore or shutdown flush that lands over a newer row. */
  predicate Overtakes(s: State, step: Step) {
    && step.OnRestore? && step.r.DirectWrite? && step.r.i < |s.direct|
    && step.r.landed && s.direct[step.r.i].version < s.rowVersion
  }

  /** Only such a write can put the row behind; the persist thread never does. */
  lemma OnlyLateWritesOvertake(s: State, step: Step)
    requires Inv(s) && Enabled(s, step) && !Overtaken(s)
    ensures Overtaken(Apply(s, step)) <==> Overtakes(s, step)
  {
    match step
    case OnBoard(_) =>
    case OnRestore(_) =>
    case OnWait(_) =>
    case OnFlush(_) =>
  }

  ghost predicate NoLateWrite(s: State, steps: seq<Step>)
    requires Runs(s, steps)
    decreases |steps|
  {
    steps == [] || (!Overtakes(s, steps[0]) && NoLateWrite(Apply(s, steps[0]), steps[1..]))
  }

  lemma {:induction false} NeverOvertaken(s: State, steps: seq<Step>)
    requires Inv(s) && !Overtaken(s) && Runs(s, steps) && NoLateWrite(s, steps)
    ensures !Overtaken(After(s, steps))
    decreases |steps|
  {
    if steps != [] {
      OnlyLateWritesOvertake(s, steps[0]);
      StepKeepsInv(s, steps[0]);
      NeverOvertaken(Apply(s, steps[0]), steps[1..]);
    }
  }

  /** Without late writes, in particular for saves and the persist thread alone,
      quiescence always means durable. */
  lemma QuiescentMeansDurableWithoutLateWrites(s: State, steps: seq<Step>)
    requires Start(s) && Runs(s, steps) && NoLateWrite(s, steps)
    ensures Quiescent(After(s, steps)) ==> Durable(After(s, steps))
  {
    StartIsGood(s);
    NeverOvertaken(s, steps);
    QuiescentMeansDurable(s, steps);
  }

  /** A list of states, each the result of the next step on the one before, is a run. */
  lemma {:induction false} FollowTrace(steps: seq<Step>, trace: seq<State>)
    requires |trace| == |steps| + 1
    requires forall i :: 0 <= i < |steps| ==> Enabled(trace[i], steps[i]) && trace[i + 1] == Apply(trace[i], steps[i])
    ensures Runs(trace[0], steps) && After(trace[0], steps) == trace[|steps|]
    decreases |steps|
  {
    if steps != [] {
      FollowTrace(steps[1..], trace[1..]);
    }
  }

  const TakeSteps: seq<Step> :=
    [OnWait(Recv), OnWait(DebounceTimeout), OnFlush(TakeCopy), OnFlush(GetClient(true))]

  const WriteSteps: seq<Step> :=
    [OnFlush(CheckVersion), OnFlush(UpsertRow(Acknowledged)), OnFlush(LookAtDirty)]

  lemma PassTakes(s: State)
    requires s.phase == Parked && s.dirty && s.tokens > 0 && s.lock == Nobody && s.latest == Some(s.live)
    ensures Runs(s, TakeSteps)
    ensures After(s, TakeSteps) ==
            s.(tokens := s.tokens - 1, dirty := false,
               phase := Ready(false, Copy(Board(s.live, s.provenance), s.version)))
  {
    var s1 := ApplyWait(s, Recv);
    var s2 := ApplyWait(s1, DebounceTimeout);
    var s3 := ApplyFlush(s2, TakeCopy);
    FollowTrace(TakeSteps, [s, s1, s2, s3, ApplyFlush(s3, GetClient(true))]);
  }

  lemma PassWrites(s: State)
    requires s.phase.Ready? && !s.phase.last && !s.dirty && s.lock == Nobody && s.phase.copy.version == s.version
    ensures Runs(s, WriteSteps)
    ensures var t := After(s, WriteSteps);
            t.writes == s.writes + [Write(s.phase.copy, true, s.provenance.epoch)] &&
            t == Stored(s, s.phase.copy).(phase := Parked, writes := t.writes)
  {
    var s1 := ApplyFlush(s, CheckVersion);
    var s2 := ApplyFlush(s1, UpsertRow(Acknowledged));
    FollowTrace(WriteSteps, [s, s1, s2, ApplyFlush(s2, LookAtDirty)]);
  }

  /** Saves are not only remembered but written: from any reachable parked state with
      something dirty and a notification waiting, one pass without failures or
      interference makes the board durable. */
  lemma OnePassPersists(s: State)
    requires Inv(s) && s.phase == Parked && s.dirty && s.tokens > 0 && s.lock == Nobody
    ensures Runs(s, TakeSteps + WriteSteps)
    ensures var t := After(s, TakeSteps + WriteSteps);
            && Durable(t) && t.phase == Parked && t.tokens == s.tokens - 1 && t.live == s.live
            && t.unsent == s.unsent && t.direct == s.direct && t.version == s.version
            && t.row == Some(Board(s.live, s.provenance))
  {
    PassTakes(s);
    PassWrites(After(s, TakeSteps));
    RunsConcat(s, TakeSteps, WriteSteps);
  }

  lemma {:induction false} RunsConcat(s: State, first: seq<Step>, second: seq<Step>)
    requires Runs(s, first) && Runs(After(s, first), second)
    ensures Runs(s, first + second) && After(s, first + second) == After(After(s, first), second)
    decreases |first|
  {
    if first == [] {
      assert first + second == second;
    } else {
      assert (first + second)[1..] == first[1..] + second;
      RunsConcat(Apply(s, first[0]), first[1..], second);
    }
  }

  const RestoreSteps: seq<Step> := [OnRestore(BeginRestore(1, 1)), OnRestore(ReplaceCanvas)]
  const EditSteps: seq<Step> := [OnBoard(Send), OnRestore(EndRestore), OnBoard(Edit(2))]

  lemma RestoreLocked(s: State)
    requires s.lock == Nobody && s.connected && !s.dirty && s.unsent == 0
    ensures Runs(s, RestoreSteps)
    ensures After(s, RestoreSteps) ==
            var given := Board(Canvas(s.live.epoch + 1, 1), Provenance(s.provenance.epoch + 1, 1));
            Saved(s.(provenance := given.provenance), given.canvas).(lock := Replaced(Copy(given, s.version + 1)))
  {
    var s1 := ApplyRestore(s, BeginRestore(1, 1));
    FollowTrace(RestoreSteps, [s, s1, ApplyRestore(s1, ReplaceCanvas)]);
  }

  lemma EditAfterRestore(s: State)
    requires s.lock.Replaced? && s.lock.copy.version <= s.version && s.connected && s.dirty && s.unsent == 1 && s.tokens == 0 && s.direct == []
    ensures Runs(s, EditSteps)
    ensures var t := After(s, EditSteps);
            && t.phase == s.phase && t.dirty && t.tokens == 1 && t.unsent == 0 && t.lock == Nobody
            && |t.direct| == 1 && t.direct[0].version < t.version
  {
    var s1 := ApplyBoard(s, Send);
    var s2 := ApplyRestore(s1, EndRestore);
    FollowTrace(EditSteps, [s, s1, s2, ApplyBoard(s2, Edit(2))]);
  }

  lemma RestoreThenEdit(s: State) returns (steps: seq<Step>)
    requires Inv(s) && s.phase == Parked && s.lock == Nobody && s.connected
    requires !s.dirty && s.unsent == 0 && s.tokens == 0 && s.direct == []
    ensures Runs(s, steps)
    ensures var t := After(s, steps);
            && Inv(t) && t.phase == Parked && t.dirty && t.tokens == 1 && t.unsent == 0 && t.lock == Nobody
            && |t.direct| == 1 && t.direct[0].version < t.version
  {
    RestoreLocked(s);
    EditAfterRestore(After(s, RestoreSteps));
    RunsConcat(s, RestoreSteps, EditSteps);
    steps := RestoreSteps + EditSteps;
    RunKeepsInv(s, steps);
  }

  /** A pass of the persist thread followed by a write that was taken before the last save. */
  lemma LateWrite(s: State) returns (steps: seq<Step>)
    requires Inv(s) && s.phase == Parked && s.dirty && s.tokens == 1 && s.unsent == 0 && s.lock == Nobody
    requires s.direct != [] && s.direct[0].version < s.version
    ensures Runs(s, steps) && var t := After(s, steps); Quiescent(t) && !t.dirty && !Durable(t)
  {
    OnePassPersists(s);
    var t := After(s, TakeSteps + WriteSteps);
    var late := [OnRestore(DirectWrite(0, true))];
    FollowTrace(late, [t, ApplyRestore(t, DirectWrite(0, true))]);
    RunsConcat(s, TakeSteps + WriteSteps, late);
    steps := TakeSteps + WriteSteps + late;
  }

  /** A late write can happen in every server: an edit made after a restore is persisted while
      the restore still waits for the database, and the restore's write then puts the row
      back.  The thread is parked, nothing is dirty, and the row shows an older board. */
  lemma RestoreCanOvertake(s: State)
    requires Start(s)
    ensures exists steps :: Runs(s, steps) && var t := After(s, steps); Quiescent(t) && !t.dirty && !Durable(t)
  {
    StartIsGood(s);
    var first := RestoreThenEdit(s);
    var second := LateWrite(After(s, first));
    RunsConcat(s, first, second);
  }

  // --------------------------------------------------------------- writes of the persist thread

  function AcknowledgedCount(writes: seq<Write>): nat {
    if writes == [] then 0
    else AcknowledgedCount(writes[..|writes| - 1]) + (if writes[|writes| - 1].acknowledged then 1 else 0)
  }

  lemma {:induction false} AcknowledgedAtMost(writes: seq<Write>, bound: nat)
    requires forall i, j :: 0 <= i < j < |writes| ==> Ordered(writes[i], writes[j])
    requires forall i :: 0 <= i < |writes| && writes[i].acknowledged ==> 0 < writes[i].copy.version <= bound
    ensures AcknowledgedCount(writes) <= bound
    decreases |writes|
  {
    if writes != [] {
      var last := writes[|writes| - 1];
      AcknowledgedAtMost(writes[..|writes| - 1], if last.acknowledged then last.copy.version - 1 else bound);
    }
  }

  /** Acknowledged writes show strictly increasing saves, so there are never more of them
      than saves; a save is written twice only when the first attempt went unacknowledged. */
  lemma WritesFollowSaves(s: State, steps: seq<Step>)
    requires Start(s) && Runs(s, steps)
    ensures var w := After(s, steps).writes;
            forall i, j :: 0 <= i < j < |w| ==>
              w[i].copy.version <= w[j].copy.version && (w[i].acknowledged ==> w[i].copy.version < w[j].copy.version)
    ensures AcknowledgedCount(After(s, steps).writes) <= After(s, steps).version
  {
    StartIsGood(s);
    RunKeepsInv(s, steps);
    AcknowledgedAtMost(After(s, steps).writes, After(s, steps).version);
  }

  // --------------------------------------------------------------- when a save is written twice

  const FailSteps: seq<Step> :=
    [OnFlush(CheckVersion), OnFlush(UpsertRow(LandedUnacknowledged)), OnFlush(MarkDirty)]

  const AgainSteps: seq<Step> := [OnWait(DebounceTimeout), OnFlush(TakeCopy), OnFlush(GetClient(true))]

  lemma OneEdit(s: State) returns (steps: seq<Step>)
    requires Start(s)
    ensures Runs(s, steps)
    ensures After(s, steps) == s.(live := Canvas(0, 1), latest := Some(Canvas(0, 1)), version := 1, dirty := true, tokens := 1)
  {
    steps := [OnBoard(Edit(1)), OnBoard(Send)];
    var s1 := ApplyBoard(s, Edit(1));
    FollowTrace(steps, [s, s1, ApplyBoard(s1, Send)]);
  }

  lemma PassFails(s: State)
    requires s.phase.Ready? && !s.phase.last && s.lock == Nobody && s.phase.copy.version == s.version
    requires s.latest == Some(s.phase.copy.board.canvas)
    ensures Runs(s, FailSteps)
    ensures var t := After(s, FailSteps);
            t.writes == s.writes + [Write(s.phase.copy, false, s.provenance.epoch)] &&
            t == Stored(s, s.phase.copy).(phase := Debouncing, dirty := true, writes := t.writes)
  {
    var s1 := ApplyFlush(s, CheckVersion);
    var s2 := ApplyFlush(s1, UpsertRow(LandedUnacknowledged));
    FollowTrace(FailSteps, [s, s1, s2, ApplyFlush(s2, MarkDirty)]);
  }

  lemma PassTakesAgain(s: State)
    requires s.phase == Debouncing && s.dirty && s.lock == Nobody && s.latest.Some?
    ensures Runs(s, AgainSteps)
    ensures After(s, AgainSteps) ==
            s.(dirty := false, phase := Ready(false, Copy(Board(s.latest.value, s.provenance), s.version)))
  {
    var s1 := ApplyWait(s, DebounceTimeout);
    var s2 := ApplyFlush(s1, TakeCopy);
    FollowTrace(AgainSteps, [s, s1, s2, ApplyFlush(s2, GetClient(true))]);
  }

  /** From every start: one edit, whose write lands without being acknowledged, is written again.
      That is two writes for one save. */
  lemma UnacknowledgedWriteRepeats(s: State) returns (steps: seq<Step>)
    requires Start(s)
    ensures Runs(s, steps)
    ensures var t := After(s, steps);
            t.version == 1 && |t.writes| == 2 && t.writes[0].copy == t.writes[1].copy && t.writes[0].copy.version == 1
  {
    var edit := OneEdit(s);
    var s1 := After(s, edit);
    PassTakes(s1);
    var s2 := After(s1, TakeSteps);
    PassFails(s2);
    var s3 := After(s2, FailSteps);
    PassTakesAgain(s3);
    var s4 := After(s3, AgainSteps);
    PassWrites(s4);
    RunsConcat(s3, AgainSteps, WriteSteps);
    RunsConcat(s2, FailSteps, AgainSteps + WriteSteps);
    RunsConcat(s1, TakeSteps, FailSteps + (AgainSteps + WriteSteps));
    RunsConcat(s, edit, TakeSteps + (FailSteps + (AgainSteps + WriteSteps)));
    steps := edit + (TakeSteps + (FailSteps + (AgainSteps + WriteSteps)));
  }

  /** The steps that call save(). */
  predicate IsSave(step: Step) { (step.OnBoard? && step.b.Edit?) || step == OnRestore(ReplaceCanvas) }

  predicate Saves(steps: seq<Step>) { exists i :: 0 <= i < |steps| && IsSave(steps[i]) }

  predicate Without(steps: seq<Step>, step: Step) { forall i :: 0 <= i < |steps| ==> steps[i] != step }

  predicate WithoutFlushSteps(steps: seq<Step>) { forall i :: 0 <= i < |steps| ==> !steps[i].OnFlush? }

  lemma {:induction false} RunsSplit(s: State, first: seq<Step>, second: seq<Step>)
    requires Runs(s, first + second)
    ensures Runs(s, first) && Runs(After(s, first), second) && After(s, first + second) == After(After(s, first), second)
    decreases |first|
  {
    if first == [] {
      assert first + second == second;
    } else {
      assert (first + second)[0] == first[0] && (first + second)[1..] == first[1..] + second;
      RunsSplit(Apply(s, first[0]), first[1..], second);
    }
  }

  lemma OneStep(s: State, step: Step)
    requires Runs(s, [step])
    ensures Enabled(s, step) && After(s, [step]) == Apply(s, step)
  {
    var steps := [step];
    assert steps[0] == step && steps[1..] == [];
    assert After(Apply(s, step), steps[1..]) == Apply(s, step);
  }

  lemma SaveCounts(s: State, step: Step)
    requires Enabled(s, step)
    ensures Apply(s, step).version == s.version + (if IsSave(step) then 1 else 0)
  {
    match step
    case OnBoard(_) =>
    case OnRestore(_) =>
    case OnWait(_) =>
    case OnFlush(_) =>
  }

  lemma SavesLater(steps: seq<Step>)
    requires steps != []
    ensures Saves(steps) <==> IsSave(steps[0]) || Saves(steps[1..])
  {
    if i :| 0 <= i < |steps| && IsSave(steps[i]) {
      assert i > 0 ==> IsSave(steps[1..][i - 1]);
    }
    if i :| 0 <= i < |steps[1..]| && IsSave(steps[1..][i]) {
      assert IsSave(steps[i + 1]);
    }
  }

  lemma {:induction false} VersionMovesIff(s: State, steps: seq<Step>)
    requires Runs(s, steps)
    ensures s.version <= After(s, steps).version
    ensures s.version == After(s, steps).version <==> !Saves(steps)
    decreases |steps|
  {
    if steps != [] {
      SaveCounts(s, steps[0]);
      SavesLater(steps);
      VersionMovesIff(Apply(s, steps[0]), steps[1..]);
    }
  }

  /** On the way from a copy to its write. */
  predicate Trying(p: Phase) { p.Prepared? || p.Ready? || p.Checked? }

  lemma FlushAttempt(s: State, step: FlushStep)
    requires FlushEnabled(s, step) && step != TakeCopy && Trying(ApplyFlush(s, step).phase)
    ensures Trying(s.phase) && ApplyFlush(s, step).phase.copy == s.phase.copy && ApplyFlush(s, step).writes == s.writes
  {
    match step
    case GetClient(_) =>
    case CheckVersion =>
    case _ =>
  }

  /** Only taking a copy begins an attempt, and only a write or the end of the attempt ends it. */
  lemma AttemptStep(s: State, step: Step)
    requires Enabled(s, step) && step != OnFlush(TakeCopy) && Trying(Apply(s, step).phase)
    ensures Trying(s.phase) && Apply(s, step).phase.copy == s.phase.copy && Apply(s, step).writes == s.writes
    ensures !step.OnFlush? ==> Apply(s, step).phase == s.phase
  {
    match step
    case OnBoard(_) =>
    case OnRestore(_) =>
    case OnWait(_) =>
    case OnFlush(f) => FlushAttempt(s, f);
  }

  lemma {:induction false} OneAttempt(s: State, steps: seq<Step>)
    requires Runs(s, steps) && Without(steps, OnFlush(TakeCopy)) && Trying(After(s, steps).phase)
    ensures Trying(s.phase) && After(s, steps).phase.copy == s.phase.copy && After(s, steps).writes == s.writes
    ensures WithoutFlushSteps(steps) ==> After(s, steps).phase == s.phase
    decreases |steps|
  {
    if steps != [] {
      OneAttempt(Apply(s, steps[0]), steps[1..]);
      AttemptStep(s, steps[0]);
    }
  }

  /** Two consecutive writes of the persist thread, the first from its version check on and the
      second from its copy on, with anything in between. */
  datatype TwoWrites = TwoWrites(writing: seq<Step>, first: Upsert, between: seq<Step>, attempt: seq<Step>, second: Upsert) {
    predicate Valid() {
      && first != Lost && WithoutFlushSteps(writing)
      && second != Lost && Without(attempt, OnFlush(TakeCopy))
    }

    function One(): seq<Step> { [OnFlush(CheckVersion)] + writing + [OnFlush(UpsertRow(first))] }

    function Other(): seq<Step> { [OnFlush(TakeCopy)] + attempt + [OnFlush(UpsertRow(second))] }

    function Steps(): seq<Step> { One() + between + Other() }
  }

  lemma CheckedWrite(s: State, p: TwoWrites)
    requires p.Valid() && Runs(s, p.One())
    ensures After(s, p.One()).writes == s.writes + [Write(s.phase.copy, p.first == Acknowledged, After(s, p.One()).provenance.epoch)]
    ensures s.phase.copy.version == s.version
    ensures s.version <= After(s, p.One()).version && (s.version == After(s, p.One()).version <==> !Saves(p.writing))
  {
    RunsSplit(s, [OnFlush(CheckVersion)] + p.writing, [OnFlush(UpsertRow(p.first))]);
    RunsSplit(s, [OnFlush(CheckVersion)], p.writing);
    OneStep(s, OnFlush(CheckVersion));
    var s1 := ApplyFlush(s, CheckVersion);
    OneStep(After(s1, p.writing), OnFlush(UpsertRow(p.first)));
    OneAttempt(s1, p.writing);
    VersionMovesIff(s1, p.writing);
  }

  lemma TakenWrite(s: State, p: TwoWrites)
    requires p.Valid() && Runs(s, p.Other())
    ensures var w := After(s, p.Other()).writes;
            s.dirty && s.writes < w && |w| == |s.writes| + 1 && w[|s.writes|].copy.version == s.version
  {
    RunsSplit(s, [OnFlush(TakeCopy)] + p.attempt, [OnFlush(UpsertRow(p.second))]);
    RunsSplit(s, [OnFlush(TakeCopy)], p.attempt);
    OneStep(s, OnFlush(TakeCopy));
    var s1 := ApplyFlush(s, TakeCopy);
    OneStep(After(s1, p.attempt), OnFlush(UpsertRow(p.second)));
    OneAttempt(s1, p.attempt);
  }

  /** They show the same save exactly when the first was not acknowledged and nothing was saved
      between its version check and the copy for the second. */
  lemma RepeatsIff(s: State, p: TwoWrites)
    requires Inv(s) && p.Valid() && Runs(s, p.Steps()) && |After(s, p.Steps()).writes| == |s.writes| + 2
    ensures var w := After(s, p.Steps()).writes[|s.writes|..];
            w[0].copy.version == w[1].copy.version <==> !w[0].acknowledged && !Saves(p.writing) && !Saves(p.between)
  {
    RunsSplit(s, p.One() + p.between, p.Other());
    RunsSplit(s, p.One(), p.between);
    var s1 := After(s, p.One());
    var s2 := After(s1, p.between);
    CheckedWrite(s, p);
    TakenWrite(s2, p);
    VersionMovesIff(s1, p.between);
    LaterWritesAreNewer(s1, p.between);
    RunKeepsInv(s, p.One() + p.between);
    var n := |s.writes|;
    var t := After(s2, p.Other());
    assert t.writes[n] == s2.writes[n] == s1.writes[n];
    assert t.writes[n..][0] == t.writes[n] && t.writes[n..][1] == t.writes[n + 1];
  }

  lemma OneWriteAtMost(s: State, step: Step)
    requires Enabled(s, step) && |Apply(s, step).writes| != |s.writes|
    ensures s.phase.Checked? && step.OnFlush? && step.f.UpsertRow? && step.f.result != Lost
    ensures |Apply(s, step).writes| == |s.writes| + 1 && !Trying(Apply(s, step).phase)
  {
    match step
    case OnBoard(_) =>
    case OnRestore(_) =>
    case OnWait(_) =>
    case OnFlush(_) =>
  }

  /** The step at which a write of a run lands. */
  lemma {:induction false} WriteLands(s: State, steps: seq<Step>, i: nat) returns (before: seq<Step>, result: Upsert, rest: seq<Step>)
    requires Runs(s, steps) && |s.writes| <= i < |After(s, steps).writes|
    ensures steps == before + [OnFlush(UpsertRow(result))] + rest && result != Lost
    ensures Runs(s, before) && |After(s, before).writes| == i && After(s, before).phase.Checked?
    ensures var m := ApplyFlush(After(s, before), UpsertRow(result));
            Runs(m, rest) && After(m, rest) == After(s, steps) && |m.writes| == i + 1 && !Trying(m.phase)
    decreases |steps|
  {
    var s' := Apply(s, steps[0]);
    if |s'.writes| != |s.writes| {
      OneWriteAtMost(s, steps[0]);
    }
    if |s'.writes| == |s.writes| || |s.writes| < i {
      var before';
      before', result, rest := WriteLands(s', steps[1..], i);
      before := [steps[0]] + before';
      assert steps == before + [OnFlush(UpsertRow(result))] + rest && before[1..] == before';
    } else {
      before, result, rest := [], steps[0].f.result, steps[1..];
    }
  }

  lemma OneLast(s: State, steps: seq<Step>)
    requires Runs(s, steps) && steps != []
    ensures var n := |steps| - 1;
            Runs(s, steps[..n]) && Enabled(After(s, steps[..n]), steps[n]) && After(s, steps) == Apply(After(s, steps[..n]), steps[n])
  {
    var n := |steps| - 1;
    assert steps == steps[..n] + [steps[n]];
    RunsSplit(s, steps[..n], [steps[n]]);
    OneStep(After(s, steps[..n]), steps[n]);
  }

  lemma CheckedStep(s: State, step: Step)
    requires Enabled(s, step) && Apply(s, step).phase.Checked?
    ensures if step.OnFlush? then step.f == CheckVersion else s.phase.Checked?
  {
    match step
    case OnBoard(_) =>
    case OnRestore(_) =>
    case OnWait(_) =>
    case OnFlush(_) =>
  }

  /** Whoever holds the lock to write has checked the version, and done nothing since. */
  lemma {:induction false} WriteWasChecked(s: State, steps: seq<Step>) returns (before: seq<Step>, writing: seq<Step>)
    requires Runs(s, steps) && !s.phase.Checked? && After(s, steps).phase.Checked?
    ensures steps == before + ([OnFlush(CheckVersion)] + writing) && WithoutFlushSteps(writing)
    decreases |steps|
  {
    OneLast(s, steps);
    var n := |steps| - 1;
    CheckedStep(After(s, steps[..n]), steps[n]);
    if steps[n].OnFlush? {
      before, writing := steps[..n], [];
      assert steps == before + ([OnFlush(CheckVersion)] + []);
    } else {
      before, writing := WriteWasChecked(s, steps[..n]);
      assert steps == before + ([OnFlush(CheckVersion)] + (writing + [steps[n]]));
      writing := writing + [steps[n]];
    }
  }

  lemma {:induction false} AttemptWasBegun(s: State, steps: seq<Step>) returns (before: seq<Step>, attempt: seq<Step>)
    requires Runs(s, steps) && !Trying(s.phase) && Trying(After(s, steps).phase)
    ensures steps == before + ([OnFlush(TakeCopy)] + attempt) && Without(attempt, OnFlush(TakeCopy))
    decreases |steps|
  {
    OneLast(s, steps);
    var n := |steps| - 1;
    if steps[n] == OnFlush(TakeCopy) {
      before, attempt := steps[..n], [];
      assert steps == before + ([OnFlush(TakeCopy)] + []);
    } else {
      AttemptStep(After(s, steps[..n]), steps[n]);
      before, attempt := AttemptWasBegun(s, steps[..n]);
      assert steps == before + ([OnFlush(TakeCopy)] + (attempt + [steps[n]]));
      attempt := attempt + [steps[n]];
    }
  }

  lemma FirstOfPair(s: State, steps: seq<Step>, i: nat) returns (before: seq<Step>, p: TwoWrites, rest: seq<Step>)
    requires Runs(s, steps) && |s.writes| <= i < |After(s, steps).writes| && !s.phase.Checked?
    ensures steps == before + (p.One() + rest) && p.Valid() && p.between == p.attempt == []
    ensures Runs(s, before) && Runs(After(s, before), p.One()) && |After(s, before).writes| == i
    ensures var t := After(After(s, before), p.One());
            Runs(t, rest) && After(t, rest) == After(s, steps) && |t.writes| == i + 1 && !Trying(t.phase)
  {
    var head, result, writing;
    head, result, rest := WriteLands(s, steps, i);
    before, writing := WriteWasChecked(s, head);
    p := TwoWrites(writing, result, [], [], Acknowledged);
    var upsert := [OnFlush(UpsertRow(result))];
    RunsSplit(s, head + upsert, rest);
    RunsSplit(s, head, upsert);
    OneStep(After(s, head), OnFlush(UpsertRow(result)));
    assert head + upsert == before + p.One();
    assert steps == before + (p.One() + rest);
    RunsSplit(s, before, p.One());
    CheckedWrite(After(s, before), p);
  }

  lemma SecondOfPair(s: State, steps: seq<Step>) returns (between: seq<Step>, p: TwoWrites, rest: seq<Step>)
    requires Runs(s, steps) && |s.writes| < |After(s, steps).writes| && !Trying(s.phase)
    ensures steps == between + (p.Other() + rest) && p.Valid()
    ensures Runs(s, between) && Runs(After(s, between), p.Other())
    ensures var t := After(After(s, between), p.Other());
            Runs(t, rest) && After(t, rest) == After(s, steps) && |t.writes| == |s.writes| + 1
  {
    var head, result, attempt;
    head, result, rest := WriteLands(s, steps, |s.writes|);
    between, attempt := AttemptWasBegun(s, head);
    p := TwoWrites([], Acknowledged, [], attempt, result);
    var upsert := [OnFlush(UpsertRow(result))];
    RunsSplit(s, head + upsert, rest);
    RunsSplit(s, head, upsert);
    OneStep(After(s, head), OnFlush(UpsertRow(result)));
    assert head + upsert == between + p.Other();
    assert steps == between + (p.Other() + rest);
    RunsSplit(s, between, p.Other());
  }

  lemma Regroup<T>(a: seq<T>, b: seq<T>, c: seq<T>, d: seq<T>, e: seq<T>)
    ensures a + (b + (c + (d + e))) == a + (b + c + d) + e
  {
  }

  /** RepeatsIff speaks of every two consecutive writes of every run: each such pair is the end of
      a checked attempt and of the attempt begun last before the second. */
  lemma EveryPairOfWrites(s: State, steps: seq<Step>, i: nat) returns (before: seq<Step>, p: TwoWrites, rest: seq<Step>)
    requires Start(s) && Runs(s, steps) && i + 1 < |After(s, steps).writes|
    ensures p.Valid() && steps == before + p.Steps() + rest && Runs(s, before) && Runs(After(s, before), p.Steps())
    ensures |After(s, before).writes| == i && |After(After(s, before), p.Steps()).writes| == i + 2
    ensures var w := After(s, steps).writes;
            w[i].copy.version == w[i + 1].copy.version <==> !w[i].acknowledged && !Saves(p.writing) && !Saves(p.between)
  {
    StartIsGood(s);
    var one, later, between, other;
    before, one, later := FirstOfPair(s, steps, i);
    var s0 := After(s, before);
    var s1 := After(s0, one.One());
    between, other, rest := SecondOfPair(s1, later);
    p := TwoWrites(one.writing, one.first, between, other.attempt, other.second);
    assert p.One() == one.One() && p.Other() == other.Other();
    Regroup(before, p.One(), between, p.Other(), rest);
    RunsConcat(s0, p.One(), between);
    RunsConcat(s0, p.One() + between, p.Other());
    RunKeepsInv(s, before);
    RepeatsIff(s0, p);
    var t := After(s0, p.Steps());
    LaterWritesAreNewer(t, rest);
    assert t.writes[i..][0] == t.writes[i] && t.writes[i..][1] == t.writes[i + 1];
  }

  lemma HistoryGrows(s: State, step: Step)
    requires Enabled(s, step)
    ensures s.writes <= Apply(s, step).writes && s.provenance.epoch <= Apply(s, step).provenance.epoch
    ensures forall i :: |s.writes| <= i < |Apply(s, step).writes| ==>
              Apply(s, step).writes[i].epoch == s.provenance.epoch
  {
    match step
    case OnBoard(_) =>
    case OnRestore(_) =>
    case OnWait(_) =>
    case OnFlush(_) =>
  }

  lemma {:induction false} LaterWritesAreNewer(s: State, steps: seq<Step>)
    requires Runs(s, steps)
    ensures s.writes <= After(s, steps).writes && s.provenance.epoch <= After(s, steps).provenance.epoch
    ensures forall i :: |s.writes| <= i < |After(s, steps).writes| ==>
              s.provenance.epoch <= After(s, steps).writes[i].epoch
    decreases |steps|
  {
    if steps != [] {
      HistoryGrows(s, steps[0]);
      LaterWritesAreNewer(Apply(s, steps[0]), steps[1..]);
    }
  }

  /** A restore is a fence.  Once its locked section has begun, every later write of the
      persist thread shows a picture and provenance of that restore or a later one, both of the
      same; and the row never mixes a picture with provenance from the other side of a restore. */
  lemma RestoreIsAFence(s: State, before: seq<Step>, after: seq<Step>, i: nat)
    requires Start(s) && Runs(s, before) && Runs(After(s, before), after)
    requires |After(s, before).writes| <= i < |After(After(s, before), after).writes|
    ensures var m := After(s, before);
            var w := After(m, after).writes[i];
            m.provenance.epoch <= w.copy.board.canvas.epoch == w.copy.board.provenance.epoch
    ensures var t := After(After(s, before), after); t.row.Some? ==> Paired(t.row.value)
  {
    StartIsGood(s);
    RunKeepsInv(s, before);
    RunKeepsInv(After(s, before), after);
    LaterWritesAreNewer(After(s, before), after);
  }

  // --------------------------------------------------------------- notifications

  function Counted(steps: seq<Step>, step: Step): nat {
    if steps == [] then 0 else (if steps[0] == step then 1 else 0) + Counted(steps[1..], step)
  }

  /** A saver that is to notify owes one notification. */
  lemma NotifyStep(s: State, step: Step)
    requires Enabled(s, step)
    ensures var t := Apply(s, step);
            t.unsent + (if step == OnBoard(Send) then 1 else 0) + (if s.dirty then 1 else 0) <=
            s.unsent + (if step == OnFlush(TakeCopy) then 1 else 0) + (if t.dirty then 1 else 0)
  {
    match step
    case OnBoard(_) =>
    case OnRestore(_) =>
    case OnWait(_) =>
    case OnFlush(TakeCopy) =>
    case OnFlush(_) =>
  }

  lemma {:induction false} NotifyRun(s: State, steps: seq<Step>)
    requires Runs(s, steps)
    ensures var t := After(s, steps);
            t.unsent + Counted(steps, OnBoard(Send)) + (if s.dirty then 1 else 0) <=
            s.unsent + Counted(steps, OnFlush(TakeCopy)) + (if t.dirty then 1 else 0)
    decreases |steps|
  {
    if steps != [] {
      NotifyStep(s, steps[0]);
      NotifyRun(Apply(s, steps[0]), steps[1..]);
    }
  }

  /** Saves do not flood the thread: however many there are, at most one notification is sent
      before the first copy is taken and one more after each. */
  lemma NotificationsAreFew(s: State, steps: seq<Step>)
    requires Start(s) && Runs(s, steps)
    ensures Counted(steps, OnBoard(Send)) <= Counted(steps, OnFlush(TakeCopy)) + 1
  {
    NotifyRun(s, steps);
  }

  /** Copies taken are paid for by notifications received, failures, the end of the sender, and
      saves: a save pays when it came after the copy under way. */
  predicate PaidFor(s: State, takes: nat, paid: nat) {
    match s.phase
    case Debouncing => takes + 1 <= paid + s.version
    case Flushing(_) => takes + 1 <= paid + s.version
    case Written(_) => takes + (if s.dirty then 1 else 0) <= paid + s.version
    case Parked => takes <= paid + s.version
    case Exited(_) => takes <= paid + s.version
    case _ => takes <= paid + s.phase.copy.version
  }

  predicate Pays(step: Step) { step in {OnWait(Recv), OnWait(RecvDisconnected), OnFlush(MarkDirty)} }

  lemma FlushIsPaidFor(s: State, step: FlushStep, takes: nat, paid: nat)
    requires PhaseInv(s) && PaidFor(s, takes, paid) && FlushEnabled(s, step)
    ensures PaidFor(ApplyFlush(s, step), takes + (if step == TakeCopy then 1 else 0), paid + (if step == MarkDirty then 1 else 0))
  {
    match step
    case TakeCopy =>
    case GetClient(_) =>
    case CheckVersion =>
    case UpsertRow(_) =>
    case MarkDirty =>
    case LookAtDirty =>
  }

  lemma OthersArePaidFor(s: State, step: Step, takes: nat, paid: nat)
    requires PaidFor(s, takes, paid) && Enabled(s, step) && !step.OnFlush?
    ensures PaidFor(Apply(s, step), takes, paid + (if Pays(step) then 1 else 0))
  {
    match step
    case OnBoard(_) =>
    case OnRestore(_) =>
    case OnWait(_) =>
  }

  lemma StepIsPaidFor(s: State, step: Step, takes: nat, paid: nat)
    requires PhaseInv(s) && PaidFor(s, takes, paid) && Enabled(s, step)
    ensures PaidFor(Apply(s, step), takes + (if step == OnFlush(TakeCopy) then 1 else 0), paid + (if Pays(step) then 1 else 0))
  {
    match step
    case OnFlush(f) => FlushIsPaidFor(s, f, takes, paid);
    case _ => OthersArePaidFor(s, step, takes, paid);
  }

  function Payments(steps: seq<Step>): nat {
    if steps == [] then 0 else (if Pays(steps[0]) then 1 else 0) + Payments(steps[1..])
  }

  lemma {:induction false} RunIsPaidFor(s: State, steps: seq<Step>, takes: nat, paid: nat)
    requires Inv(s) && PaidFor(s, takes, paid) && Runs(s, steps)
    ensures PaidFor(After(s, steps), takes + Counted(steps, OnFlush(TakeCopy)), paid + Payments(steps))
    decreases |steps|
  {
    if steps != [] {
      StepKeepsInv(s, steps[0]);
      StepIsPaidFor(s, steps[0], takes, paid);
      RunIsPaidFor(Apply(s, steps[0]), steps[1..], takes + (if steps[0] == OnFlush(TakeCopy) then 1 else 0),
                   paid + (if Pays(steps[0]) then 1 else 0));
    }
  }

  /** The thread does not spin: it flushes at most once for every notification it takes, every
      failure, every save, and the end of the sender. */
  lemma ThreadDoesNotSpin(s: State, steps: seq<Step>)
    requires Start(s) && Runs(s, steps)
    ensures Counted(steps, OnFlush(TakeCopy)) <= Payments(steps) + After(s, steps).version
  {
    StartIsGood(s);
    RunIsPaidFor(s, steps, 0, 0);
    RunKeepsInv(s, steps);
  }

  // --------------------------------------------------------------- how the thread ends

  /** A database call of the persist thread fails. */
  predicate DbFails(step: Step) {
    step.OnFlush? && (step.f == GetClient(false) || (step.f.UpsertRow? && step.f.result != Acknowledged))
  }

  predicate InLastFlush(p: Phase) { LastFlush(p) && !p.Exited? }

  /** Some database call of the flush after disconnection fails. */
  ghost predicate LastFlushFails(s: State, steps: seq<Step>)
    requires Runs(s, steps)
    decreases |steps|
  {
    steps != [] && ((DbFails(steps[0]) && InLastFlush(s.phase)) || LastFlushFails(Apply(s, steps[0]), steps[1..]))
  }

  predicate Spoiled(p: Phase) { (p.Failed? && p.last) || p == Exited(false) }

  lemma SpoiledFlush(s: State, step: FlushStep)
    requires FlushEnabled(s, step)
    ensures Spoiled(ApplyFlush(s, step).phase) <==> Spoiled(s.phase) || (DbFails(OnFlush(step)) && InLastFlush(s.phase))
  {
    match step
    case GetClient(_) =>
    case UpsertRow(_) =>
    case _ =>
  }

  lemma OthersLeavePhase(s: State, step: Step)
    requires Enabled(s, step) && !step.OnFlush? && !step.OnWait?
    ensures Apply(s, step).phase == s.phase
  {
    match step
    case OnBoard(_) =>
    case OnRestore(_) =>
  }

  lemma {:induction false} SpoiledIff(s: State, steps: seq<Step>)
    requires Runs(s, steps)
    ensures Spoiled(After(s, steps).phase) <==> Spoiled(s.phase) || LastFlushFails(s, steps)
    decreases |steps|
  {
    if steps != [] {
      match steps[0] {
        case OnFlush(f) => SpoiledFlush(s, f);
        case OnWait(w) => WaitLeaves(s, w);
        case _ => OthersLeavePhase(s, steps[0]);
      }
      SpoiledIff(Apply(s, steps[0]), steps[1..]);
    }
  }

  /** The thread ends unclean exactly when a database call of its last flush failed.  Otherwise
      ending means that every save is written, and that the row shows the newest unless it was
      overtaken. */
  lemma ExitIsCleanIff(s: State, steps: seq<Step>)
    requires Start(s) && Runs(s, steps) && After(s, steps).phase.Exited?
    ensures After(s, steps).phase.clean <==> !LastFlushFails(s, steps)
    ensures var t := After(s, steps);
            !LastFlushFails(s, steps) ==> !t.dirty && t.highest == t.version && (Durable(t) <==> !Overtaken(t))
  {
    SpoiledIff(s, steps);
    CleanExitMeansDurable(s, steps);
  }

  /** How many steps of a flush are left at most. */
  function FlushLeft(p: Phase): nat {
    match p
    case Flushing(_) => 5
    case Prepared(_, _) => 4
    case Ready(_, _) => 3
    case Checked(_, _) => 2
    case Failed(_, _) => 1
    case Written(_) => 1
    case _ => 0
  }

  function FlushSteps(steps: seq<Step>): nat {
    if steps == [] then 0 else (if steps[0].OnFlush? then 1 else 0) + FlushSteps(steps[1..])
  }

  lemma FlushAdvances(s: State, step: FlushStep)
    requires FlushEnabled(s, step) && LastFlush(s.phase)
    ensures LastFlush(ApplyFlush(s, step).phase) && FlushLeft(ApplyFlush(s, step).phase) < FlushLeft(s.phase)
  {
    match step
    case GetClient(_) =>
    case UpsertRow(_) =>
    case CheckVersion =>
    case _ =>
  }

  lemma {:induction false} LastFlushAdvances(s: State, steps: seq<Step>)
    requires LastFlush(s.phase) && Runs(s, steps)
    ensures LastFlush(After(s, steps).phase) && FlushLeft(After(s, steps).phase) + FlushSteps(steps) <= FlushLeft(s.phase)
    decreases |steps|
  {
    if steps != [] {
      match steps[0] {
        case OnFlush(f) => FlushAdvances(s, f);
        case _ => OthersLeavePhase(s, steps[0]);
      }
      LastFlushAdvances(Apply(s, steps[0]), steps[1..]);
    }
  }

  lemma FlushIsNeverStuck(s: State) returns (step: FlushStep)
    requires (FlushLeft(s.phase) > 0 && s.lock == Nobody) || s.phase.Checked?
    ensures FlushEnabled(s, step)
  {
    step := match s.phase
      case Flushing(_) => TakeCopy
      case Prepared(_, _) => GetClient(true)
      case Ready(_, _) => CheckVersion
      case Checked(_, _) => UpsertRow(Acknowledged)
      case Failed(_, _) => MarkDirty
      case _ => LookAtDirty;
  }

  /** Once the thread has noticed that the sender is gone, it flushes once more and ends: it never
      waits again, takes at most five more steps, and is stuck before only while the lock is held. */
  lemma ThreadEndsAfterDisconnect(s: State, notice: WaitStep, steps: seq<Step>)
    requires Inv(s) && WaitEnabled(s, notice) && (notice == RecvDisconnected || notice == DebounceDisconnected)
    requires Runs(ApplyWait(s, notice), steps)
    ensures var t := After(ApplyWait(s, notice), steps);
            && LastFlush(t.phase) && FlushSteps(steps) <= 5
            && (t.phase.Exited? || t.lock.Replacing? || t.lock.Replaced? || exists f :: FlushEnabled(t, f))
  {
    var noticed := ApplyWait(s, notice);
    LastFlushAdvances(noticed, steps);
    StepKeepsInv(s, OnWait(notice));
    RunKeepsInv(noticed, steps);
    var t := After(noticed, steps);
    if (FlushLeft(t.phase) > 0 && t.lock == Nobody) || t.phase.Checked? {
      var f := FlushIsNeverStuck(t);
    }
  }

  // --------------------------------------------------------------- what is written

  /** The picture on the board after these steps, from the picture before and the one a restore
      under way was given. */
  function Drawn(steps: seq<Step>, paint: int, given: int): int
    decreases |steps|
  {
    if steps == [] then paint
    else match steps[0]
      case OnBoard(Edit(p)) => Drawn(steps[1..], p, given)
      case OnRestore(BeginRestore(p, _)) => Drawn(steps[1..], paint, p)
      case OnRestore(ReplaceCanvas) => Drawn(steps[1..], given, given)
      case _ => Drawn(steps[1..], paint, given)
  }

  /** The authors after these steps. */
  function Attributed(steps: seq<Step>, authors: int): int
    decreases |steps|
  {
    if steps == [] then authors
    else match steps[0]
      case OnBoard(Attribute(a)) => Attributed(steps[1..], a)
      case OnRestore(BeginRestore(_, a)) => Attributed(steps[1..], a)
      case _ => Attributed(steps[1..], authors)
  }

  lemma OtherStepsDraw(s: State, step: Step)
    requires Enabled(s, step) && !step.OnBoard? && !step.OnRestore?
    ensures var t := Apply(s, step);
            t.live == s.live && t.provenance == s.provenance && (t.lock.Replacing? ==> s.lock == t.lock)
  {
    match step
    case OnWait(_) =>
    case OnFlush(_) =>
  }

  lemma {:induction false} LiveIsDrawn(s: State, steps: seq<Step>, given: int)
    requires Runs(s, steps) && (s.lock.Replacing? ==> s.lock.paint == given)
    ensures After(s, steps).live.paint == Drawn(steps, s.live.paint, given)
    ensures After(s, steps).provenance.authors == Attributed(steps, s.provenance.authors)
    decreases |steps|
  {
    if steps != [] {
      var s' := Apply(s, steps[0]);
      match steps[0] {
        case OnBoard(_) => LiveIsDrawn(s', steps[1..], given);
        case OnRestore(BeginRestore(p, _)) => LiveIsDrawn(s', steps[1..], p);
        case OnRestore(_) => LiveIsDrawn(s', steps[1..], given);
        case _ =>
          OtherStepsDraw(s, steps[0]);
          LiveIsDrawn(s', steps[1..], given);
      }
    }
  }

  /** From the first edit to the database: in every run in which something was saved, once the
      thread is parked with nothing left to notify it, or has ended without an error in its last
      flush, the row shows the picture drawn or restored last, unless it was overtaken. */
  lemma LastDrawingIsPersisted(s: State, steps: seq<Step>)
    requires Start(s) && Runs(s, steps) && Saves(steps)
    requires var t := After(s, steps); (Quiescent(t) || (t.phase.Exited? && !LastFlushFails(s, steps))) && !Overtaken(t)
    ensures var t := After(s, steps);
            t.row.Some? && t.row.value.canvas.paint == Drawn(steps, s.live.paint, 0)
  {
    StartIsGood(s);
    RunKeepsInv(s, steps);
    QuiescentMeansDurable(s, steps);
    if After(s, steps).phase.Exited? {
      ExitIsCleanIff(s, steps);
    }
    VersionMovesIff(s, steps);
    LiveIsDrawn(s, steps, 0);
  }

  /** The place of a write on its way after these steps, until it is made. */
  function Place(steps: seq<Step>, p: nat): Option<nat>
    decreases |steps|
  {
    if steps == [] then Some(p)
    else match steps[0]
      case OnRestore(DirectWrite(i, _)) => if i == p then None else Place(steps[1..], if i < p then p - 1 else p)
      case _ => Place(steps[1..], p)
  }

  lemma DirectStep(s: State, step: Step, p: nat)
    requires Enabled(s, step) && p < |s.direct|
    requires !(step.OnRestore? && step.r.DirectWrite? && step.r.i == p)
    ensures var q := if step.OnRestore? && step.r.DirectWrite? && step.r.i < p then p - 1 else p;
            q < |Apply(s, step).direct| && Apply(s, step).direct[q] == s.direct[p]
  {
    match step
    case OnBoard(_) =>
    case OnRestore(DirectWrite(_, _)) =>
    case OnRestore(_) =>
    case OnWait(_) =>
    case OnFlush(_) =>
  }

  lemma {:induction false} DirectStays(s: State, steps: seq<Step>, p: nat)
    requires Runs(s, steps) && p < |s.direct| && Place(steps, p).Some?
    ensures var q := Place(steps, p).value; q < |After(s, steps).direct| && After(s, steps).direct[q] == s.direct[p]
    decreases |steps|
  {
    if steps != [] {
      DirectStep(s, steps[0], p);
      match steps[0] {
        case OnRestore(DirectWrite(i, _)) => DirectStays(Apply(s, steps[0]), steps[1..], if i < p then p - 1 else p);
        case _ => DirectStays(Apply(s, steps[0]), steps[1..], p);
      }
    }
  }

  /** A shutdown flush writes the board that was live when it was taken, whatever happens until its
      write lands; with no save since, that is the live picture. */
  lemma ShutdownFlushWrites(s: State, steps: seq<Step>, i: nat)
    requires Inv(s) && s.lock == Nobody && Runs(ApplyRestore(s, FlushSnapshot), steps)
    requires Place(steps, |s.direct|) == Some(i)
    ensures var t := After(ApplyRestore(s, FlushSnapshot), steps);
            RestoreEnabled(t, DirectWrite(i, true)) &&
            var written := ApplyRestore(t, DirectWrite(i, true));
            && written.row == Some(Board(s.live, s.provenance)) && written.rowVersion == s.version
            && (!Saves(steps) ==> written.row.value.canvas == written.live)
  {
    var taken := ApplyRestore(s, FlushSnapshot);
    StepKeepsInv(s, OnRestore(FlushSnapshot));
    RunKeepsInv(taken, steps);
    DirectStays(taken, steps, |s.direct|);
    VersionMovesIff(taken, steps);
    assert Faithful(After(taken, steps), After(taken, steps).direct[i]);
  }

  lemma RestoreHoldsLock(s: State, step: Step)
    requires Enabled(s, step) && (s.lock.Replacing? || s.lock.Replaced?) && !s.phase.Checked?
    requires step != OnRestore(ReplaceCanvas) && step != OnRestore(EndRestore)
    ensures Apply(s, step).lock == s.lock && !Apply(s, step).phase.Checked?
  {
    match step
    case OnBoard(_) =>
    case OnRestore(_) =>
    case OnWait(_) =>
    case OnFlush(_) =>
  }

  lemma {:induction false} RestoreHoldsBoard(s: State, steps: seq<Step>)
    requires Runs(s, steps) && (s.lock.Replacing? || s.lock.Replaced?) && !s.phase.Checked?
    requires Without(steps, OnRestore(ReplaceCanvas)) && Without(steps, OnRestore(EndRestore))
    ensures After(s, steps).lock == s.lock
    decreases |steps|
  {
    if steps != [] {
      RestoreHoldsLock(s, steps[0]);
      RestoreHoldsBoard(Apply(s, steps[0]), steps[1..]);
    }
  }

  /** The states a restore goes through: replacing, replaced, and with its write on the way. */
  ghost predicate Restores(s: State, paint: int, authors: int, during: seq<Step>, meanwhile: seq<Step>, replacing: State, replaced: State) {
    && RestoreEnabled(s, BeginRestore(paint, authors))
    && Without(during, OnRestore(ReplaceCanvas)) && Without(during, OnRestore(EndRestore))
    && Runs(ApplyRestore(s, BeginRestore(paint, authors)), during)
    && replacing == After(ApplyRestore(s, BeginRestore(paint, authors)), during) && RestoreEnabled(replacing, ReplaceCanvas)
    && Without(meanwhile, OnRestore(ReplaceCanvas)) && Without(meanwhile, OnRestore(EndRestore))
    && Runs(ApplyRestore(replacing, ReplaceCanvas), meanwhile)
    && replaced == After(ApplyRestore(replacing, ReplaceCanvas), meanwhile) && RestoreEnabled(replaced, EndRestore)
  }

  lemma RestoredCopy(s: State, paint: int, authors: int, during: seq<Step>, meanwhile: seq<Step>, replacing: State, replaced: State)
    requires Inv(s) && Restores(s, paint, authors, during, meanwhile, replacing, replaced)
    ensures replaced.lock.copy.board == Board(Canvas(s.live.epoch + 1, paint), Provenance(s.provenance.epoch + 1, authors))
  {
    var begun := ApplyRestore(s, BeginRestore(paint, authors));
    StepKeepsInv(s, OnRestore(BeginRestore(paint, authors)));
    RunKeepsInv(begun, during);
    RestoreHoldsBoard(begun, during);
    StepKeepsInv(replacing, OnRestore(ReplaceCanvas));
    RestoreHoldsBoard(ApplyRestore(replacing, ReplaceCanvas), meanwhile);
  }

  /** A restore writes the board it was given, both halves of it, whatever is drawn and attributed
      while it replaces the board and until its write lands. */
  lemma RestoreWritesItsBoard(s: State, paint: int, authors: int, during: seq<Step>, meanwhile: seq<Step>,
                              replacing: State, replaced: State, later: seq<Step>, i: nat)
    requires Inv(s) && Restores(s, paint, authors, during, meanwhile, replacing, replaced)
    requires Runs(ApplyRestore(replaced, EndRestore), later) && Place(later, |replaced.direct|) == Some(i)
    ensures var t := After(ApplyRestore(replaced, EndRestore), later);
            RestoreEnabled(t, DirectWrite(i, true)) && ApplyRestore(t, DirectWrite(i, true)).row ==
              Some(Board(Canvas(s.live.epoch + 1, paint), Provenance(s.provenance.epoch + 1, authors)))
  {
    RestoredCopy(s, paint, authors, during, meanwhile, replacing, replaced);
    DirectStays(ApplyRestore(replaced, EndRestore), later, |replaced.direct|);
  }

  // --------------------------------------------------------------- the shared cell in place

  /** `PersistState`, as the saver and the persist thread update it under its mutex. */
  class PersistState {
    var latest: Option<Canvas>
    var dirty: bool
    var version: nat

    ghost predicate Shows(s: State)
      reads this
    {
      s.latest == latest && s.dirty == dirty && s.version == version
    }

    constructor ()
      ensures forall s :: Start(s) ==> Shows(s)
    {
      latest, dirty, version := None, false, 0;
    }

    /** save(): remember the board; tell whether the persist thread must be notified. */
    method Save(canvas: Canvas, ghost s: State) returns (notify: bool)
      requires Shows(s)
      modifies this
      ensures Shows(Saved(s, canvas))
      ensures Saved(s, canvas).unsent == s.unsent + (if notify then 1 else 0)
    {
      latest := Some(canvas);
      version := version + 1;
      if dirty {
        return false;
      }
      dirty := true;
      notify := true;
    }

    /** The locked section at the head of flush_dirty_canvas. */
    method TakeCopy(provenance: Provenance, ghost s: State) returns (copy: Option<Copy>)
      requires Shows(s) && s.phase.Flushing? && s.lock == Nobody && s.provenance == provenance
      modifies this
      ensures Shows(ApplyFlush(s, FlushStep.TakeCopy))
      ensures copy.Some? <==> HoldsCopy(ApplyFlush(s, FlushStep.TakeCopy).phase)
      ensures copy.Some? ==> ApplyFlush(s, FlushStep.TakeCopy).phase == Prepared(s.phase.last, copy.value)
    {
      if !dirty {
        return None;
      }
      dirty := false;
      if latest.None? {
        return None;
      }
      copy := Some(Copy(Board(latest.value, provenance), version));
    }

    /** flush_dirty_canvas after a failed database call. */
    method RaiseAgain(copy: Copy, ghost s: State)
      requires Shows(s) && s.phase.Failed? && s.phase.copy == copy
      modifies this
      ensures Shows(ApplyFlush(s, MarkDirty))
    {
      if version == copy.version {
        latest := Some(copy.board.canvas);
      }
      dirty := true;
    }
  }
}
