/** Nonogram clues, `late-core/src/nonogram.rs`.

    A cell is filled when its byte is 1.  The clues of a line are the lengths of its runs
    of filled cells, counted in a byte that saturates. */
module Nonogram {
  import opened Sequences

  type Cell = c: nat | c < 256

  type Line = seq<Cell>

  type Clues = seq<nat>

  const BYTE_MAX: nat := 255

  function Saturated(n: nat): nat { if n < BYTE_MAX then n else BYTE_MAX }

  // --------------------------------------------------------------- clues of a line

  /** How many filled cells a line starts with. */
  function RunLength(cells: Line): (n: nat)
    ensures n <= |cells|
    ensures forall i :: 0 <= i < n ==> cells[i] == 1
    ensures n < |cells| ==> cells[n] != 1
  {
    if cells == [] || cells[0] != 1 then 0 else 1 + RunLength(cells[1..])
  }

  function LineClues(cells: Line): Clues
    decreases |cells|
  {
    if cells == [] then []
    else if cells[0] != 1 then LineClues(cells[1..])
    else [Saturated(RunLength(cells))] + LineClues(cells[RunLength(cells)..])
  }

  function Ones(n: nat): Line { seq(n, _ => 1) }

  function Zeros(n: nat): Line { seq(n, _ => 0) }

  /** The clues still to come after `length` filled cells that are not yet counted. */
  function Pending(length: nat, rest: Line): Clues { LineClues(Ones(length) + rest) }

  lemma PendingFilled(length: nat, cells: Line, i: nat)
    requires i < |cells| && cells[i] == 1
    ensures Pending(length, cells[i..]) == Pending(length + 1, cells[i + 1..])
  {
    assert Ones(length) + cells[i..] == Ones(length + 1) + cells[i + 1..];
  }

  lemma PendingGap(clues: Clues, length: nat, cells: Line, i: nat)
    requires i < |cells| && cells[i] != 1
    ensures clues + Pending(length, cells[i..]) == (if length > 0 then clues + [Saturated(length)] else clues) + Pending(0, cells[i + 1..])
  {
    var rest := cells[i + 1..];
    RunThenGap(length, cells[i], rest);
    assert Ones(length) + cells[i..] == Ones(length) + [cells[i]] + rest;
    assert Ones(0) + rest == rest;
    if length > 0 {
      assert clues + ([Saturated(length)] + LineClues(rest)) == clues + [Saturated(length)] + LineClues(rest);
    }
  }

  lemma PendingEnd(length: nat)
    ensures Pending(length, []) == if length > 0 then [Saturated(length)] else []
  {
    RunAlone(length);
    assert Ones(length) + [] == Ones(length);
  }

  /** The loop counts the run it is in. */
  method DeriveLineClues(cells: Line) returns (clues: Clues)
    ensures clues == LineClues(cells)
  {
    clues := [];
    var run := 0;
    ghost var length := 0;
    var i := 0;
    assert Ones(0) + cells[0..] == cells;
    while i < |cells|
      invariant i <= |cells| && run == Saturated(length)
      invariant LineClues(cells) == clues + Pending(length, cells[i..])
    {
      if cells[i] == 1 {
        PendingFilled(length, cells, i);
        run := if run < BYTE_MAX then run + 1 else BYTE_MAX;
        length := length + 1;
      } else {
        PendingGap(clues, length, cells, i);
        if run > 0 {
          clues := clues + [run];
          run := 0;
        }
        length := 0;
      }
      i := i + 1;
    }
    PendingEnd(length);
    if run > 0 {
      clues := clues + [run];
    }
  }

  lemma {:induction false} RunOf(n: nat, rest: Line)
    requires rest == [] || rest[0] != 1
    ensures RunLength(Ones(n) + rest) == n
    decreases n
  {
    if n > 0 {
      assert (Ones(n) + rest)[1..] == Ones(n - 1) + rest;
      RunOf(n - 1, rest);
    } else {
      assert Ones(0) + rest == rest;
    }
  }

  lemma RunFirst(n: nat, rest: Line)
    requires n > 0 && (rest == [] || rest[0] != 1)
    ensures LineClues(Ones(n) + rest) == [Saturated(n)] + LineClues(rest)
  {
    RunOf(n, rest);
    assert (Ones(n) + rest)[n..] == rest;
  }

  lemma RunThenGap(n: nat, gap: Cell, rest: Line)
    requires gap != 1
    ensures LineClues(Ones(n) + [gap] + rest) == (if n > 0 then [Saturated(n)] else []) + LineClues(rest)
  {
    assert Ones(n) + [gap] + rest == Ones(n) + ([gap] + rest);
    assert ([gap] + rest)[1..] == rest;
    if n > 0 {
      RunFirst(n, [gap] + rest);
    } else {
      assert Ones(0) + ([gap] + rest) == [gap] + rest;
    }
  }

  lemma RunAlone(n: nat)
    ensures LineClues(Ones(n)) == if n > 0 then [Saturated(n)] else []
  {
    if n > 0 {
      RunFirst(n, []);
      assert Ones(n) + [] == Ones(n);
    }
  }

  // --------------------------------------------------------------- the clues are the runs

  /** The cells from `i` up to `j` are filled and cannot be extended. */
  predicate IsMaximalRun(cells: Line, i: nat, j: nat) {
    && i < j <= |cells|
    && (forall k :: i <= k < j ==> cells[k] == 1)
    && (i == 0 || cells[i - 1] != 1)
    && (j == |cells| || cells[j] != 1)
  }

  datatype Run = Run(start: nat, end: nat)

  function ClueOf(run: Run): nat { if run.end < run.start then 0 else Saturated(run.end - run.start) }

  /** The runs of a line that starts at offset `at`, from left to right. */
  function Runs(cells: Line, at: nat): seq<Run>
    requires at <= |cells|
    decreases |cells| - at
  {
    if at == |cells| then []
    else if cells[at] != 1 then Runs(cells, at + 1)
    else
      var end := at + RunLength(cells[at..]);
      [Run(at, end)] + Runs(cells, end)
  }

  /** A cell to the left of `at` does not belong to a run that goes on at `at`. */
  predicate Boundary(cells: Line, at: nat) {
    at <= |cells| && (at == 0 || at == |cells| || cells[at - 1] != 1 || cells[at] != 1)
  }

  predicate RunsFrom(cells: Line, at: nat, runs: seq<Run>) {
    && (forall k :: 0 <= k < |runs| ==> at <= runs[k].start && IsMaximalRun(cells, runs[k].start, runs[k].end))
    && (forall k :: 0 <= k && k + 1 < |runs| ==> runs[k].end < runs[k + 1].start)
  }

  lemma RunAt(cells: Line, at: nat)
    requires Boundary(cells, at) && at < |cells| && cells[at] == 1
    ensures IsMaximalRun(cells, at, at + RunLength(cells[at..]))
    ensures Boundary(cells, at + RunLength(cells[at..]))
  {
    var n := RunLength(cells[at..]);
    assert forall k :: at <= k < at + n ==> cells[k] == cells[at..][k - at];
    assert at + n < |cells| ==> cells[at + n] == cells[at..][n];
  }

  lemma PrependRun(cells: Line, at: nat, end: nat, later: seq<Run>)
    requires IsMaximalRun(cells, at, end) && RunsFrom(cells, end, later)
    ensures RunsFrom(cells, at, [Run(at, end)] + later)
  {
    var runs := [Run(at, end)] + later;
    forall k | 0 <= k && k + 1 < |runs| ensures runs[k].end < runs[k + 1].start {
      if k == 0 {
        assert cells[later[0].start] == 1;
      } else {
        assert runs[k] == later[k - 1] && runs[k + 1] == later[k];
      }
    }
  }

  lemma {:induction false} RunsAreMaximal(cells: Line, at: nat)
    requires Boundary(cells, at)
    ensures RunsFrom(cells, at, Runs(cells, at))
    decreases |cells| - at
  {
    if at < |cells| {
      if cells[at] != 1 {
        RunsAreMaximal(cells, at + 1);
      } else {
        RunAt(cells, at);
        var end := at + RunLength(cells[at..]);
        RunsAreMaximal(cells, end);
        PrependRun(cells, at, end, Runs(cells, end));
      }
    }
  }

  lemma {:induction false} MaximalRunsAreListed(cells: Line, at: nat, i: nat, j: nat)
    requires Boundary(cells, at) && at <= i && IsMaximalRun(cells, i, j)
    ensures Run(i, j) in Runs(cells, at)
    decreases |cells| - at
  {
    if cells[at] != 1 {
      MaximalRunsAreListed(cells, at + 1, i, j);
    } else {
      RunAt(cells, at);
      var end := at + RunLength(cells[at..]);
      if i < end {
        SameRun(cells, at, end, i, j);
      } else {
        MaximalRunsAreListed(cells, end, i, j);
      }
    }
  }

  /** Maximal runs that overlap are the same. */
  lemma SameRun(cells: Line, i: nat, j: nat, k: nat, l: nat)
    requires IsMaximalRun(cells, i, j) && IsMaximalRun(cells, k, l) && i <= k < j
    ensures i == k && j == l
  {
  }

  lemma {:induction false} CluesAreRunLengths(cells: Line, at: nat)
    requires at <= |cells|
    ensures |LineClues(cells[at..])| == |Runs(cells, at)|
    ensures forall k :: 0 <= k < |Runs(cells, at)| ==> ClueOf(Runs(cells, at)[k]) == LineClues(cells[at..])[k]
    decreases |cells| - at
  {
    if at < |cells| {
      if cells[at] != 1 {
        assert cells[at..][1..] == cells[at + 1..];
        CluesAreRunLengths(cells, at + 1);
      } else {
        var n := RunLength(cells[at..]);
        assert cells[at..][n..] == cells[at + n..];
        CluesAreRunLengths(cells, at + n);
      }
    }
  }

  /** The clues of a line are the saturated lengths, from left to right, of exactly its maximal
      runs of filled cells. */
  lemma CluesAreMaximalRuns(cells: Line, runs: seq<Run>)
    requires runs == Runs(cells, 0)
    ensures forall i: nat, j: nat :: IsMaximalRun(cells, i, j) <==> Run(i, j) in runs
    ensures forall k :: 0 <= k && k + 1 < |runs| ==> runs[k].end < runs[k + 1].start
    ensures |LineClues(cells)| == |runs|
    ensures forall k :: 0 <= k < |runs| ==> runs[k].start < runs[k].end
    ensures forall k :: 0 <= k < |runs| ==> LineClues(cells)[k] == ClueOf(runs[k])
  {
    RunsAreMaximal(cells, 0);
    forall i: nat, j: nat ensures IsMaximalRun(cells, i, j) <==> Run(i, j) in runs {
      if IsMaximalRun(cells, i, j) {
        MaximalRunsAreListed(cells, 0, i, j);
      }
    }
    assert cells[0..] == cells;
    CluesAreRunLengths(cells, 0);
  }

  // --------------------------------------------------------------- reversal

  function Reversed<T>(s: seq<T>): seq<T> { if s == [] then [] else Reversed(s[1..]) + [s[0]] }

  lemma {:induction false} ReversedAppend<T>(a: seq<T>, b: seq<T>)
    ensures Reversed(a + b) == Reversed(b) + Reversed(a)
    decreases |a|
  {
    if a == [] {
      assert a + b == b;
    } else {
      assert (a + b)[1..] == a[1..] + b;
      ReversedAppend(a[1..], b);
    }
  }

  lemma {:induction false} ReversedOnes(n: nat)
    ensures Reversed(Ones(n)) == Ones(n)
  {
    if n > 0 {
      assert Ones(n)[1..] == Ones(n - 1);
      ReversedOnes(n - 1);
      assert Ones(n - 1) + [1] == Ones(n);
    }
  }

  /** Clues on the two sides of a gap. */
  lemma {:induction false} GapSplits(a: Line, gap: Cell, b: Line)
    requires gap != 1
    ensures LineClues(a + [gap] + b) == LineClues(a) + LineClues(b)
    decreases |a|
  {
    var n := RunLength(a);
    if a == [] {
      assert a + [gap] + b == Ones(0) + [gap] + b;
      RunThenGap(0, gap, b);
    } else if n == 0 {
      assert (a + [gap] + b)[1..] == a[1..] + [gap] + b;
      GapSplits(a[1..], gap, b);
    } else {
      var rest := a[n..];
      GapSplits(rest, gap, b);
      var later := rest + [gap] + b;
      assert later == rest + ([gap] + b) && (rest == [] || later[0] == rest[0]);
      RunFirst(n, rest);
      RunFirst(n, later);
      RunThenMore(n, a, rest, [gap], b);
      Reassociate([Saturated(n)], LineClues(rest), LineClues(b));
    }
  }

  lemma RunThenMore(n: nat, a: Line, rest: Line, gap: Line, b: Line)
    requires n == RunLength(a) && rest == a[n..]
    ensures a == Ones(n) + rest && a + gap + b == Ones(n) + (rest + gap + b)
  {
    assert a == Ones(n) + rest;
  }

  lemma ReversedAroundGap(n: nat, gap: Cell, rest: Line)
    ensures Reversed(Ones(n) + [gap] + rest) == Reversed(rest) + [gap] + Ones(n)
  {
    ReversedAppend(Ones(n) + [gap], rest);
    ReversedAppend(Ones(n), [gap]);
    ReversedOnes(n);
    assert Reversed([gap]) == [gap];
    assert Reversed(rest) + ([gap] + Ones(n)) == Reversed(rest) + [gap] + Ones(n);
  }

  /** Reading a line backwards reverses its clues. */
  lemma {:induction false} ReversedClues(cells: Line)
    ensures LineClues(Reversed(cells)) == Reversed(LineClues(cells))
    decreases |cells|
  {
    var n := RunLength(cells);
    RunAlone(n);
    if n < |cells| {
      var gap, rest := cells[n], cells[n + 1..];
      assert cells == Ones(n) + [gap] + rest;
      RunThenGap(n, gap, rest);
      ReversedClues(rest);
      ReversedAroundGap(n, gap, rest);
      GapSplits(Reversed(rest), gap, Ones(n));
      var first := LineClues(Ones(n));
      ReversedAppend(first, LineClues(rest));
      assert Reversed(first) == first;
    } else {
      assert cells == Ones(n);
      ReversedOnes(n);
    }
  }

  // --------------------------------------------------------------- which clues fit

  function Sum(clues: Clues): nat { if clues == [] then 0 else clues[0] + Sum(clues[1..]) }

  /** The cells a clue list takes, with one gap between neighbours. */
  function Span(clues: Clues): nat { if clues == [] then 0 else Sum(clues) + |clues| - 1 }

  predicate AreClues(clues: Clues) { forall k :: 0 <= k < |clues| ==> 0 < clues[k] <= BYTE_MAX }

  lemma PrependClue(first: nat, rest: Clues)
    requires 0 < first <= BYTE_MAX && AreClues(rest)
    ensures AreClues([first] + rest)
    ensures Span([first] + rest) == first + (if rest == [] then 0 else 1 + Span(rest))
  {
    var all := [first] + rest;
    assert all[1..] == rest && forall k :: 0 < k < |all| ==> all[k] == rest[k - 1];
  }

  lemma {:induction false} CluesFit(cells: Line)
    ensures AreClues(LineClues(cells)) && Span(LineClues(cells)) <= |cells|
    ensures cells != [] && cells[0] != 1 ==> Span(LineClues(cells)) < |cells|
    decreases |cells|
  {
    if cells != [] {
      if cells[0] != 1 {
        CluesFit(cells[1..]);
      } else {
        var n := RunLength(cells);
        var rest := LineClues(cells[n..]);
        CluesFit(cells[n..]);
        assert LineClues(cells) == [Saturated(n)] + rest;
        PrependClue(Saturated(n), rest);
        assert Saturated(n) <= n && |cells[n..]| == |cells| - n;
        assert n < |cells| ==> cells[n..][0] == cells[n];
      }
    }
  }

  /** The runs pushed to the left. */
  function Packed(clues: Clues): Line {
    if clues == [] then [] else if |clues| == 1 then Ones(clues[0]) else Ones(clues[0]) + [0] + Packed(clues[1..])
  }

  lemma {:induction false} PackedSize(clues: Clues)
    ensures |Packed(clues)| == Span(clues)
    decreases |clues|
  {
    if |clues| > 1 {
      PackedSize(clues[1..]);
    } else if |clues| == 1 {
      assert Sum(clues[1..]) == 0;
    }
  }

  lemma {:induction false} ZerosHaveNoClues(n: nat)
    ensures LineClues(Zeros(n)) == []
  {
    if n > 0 {
      assert Zeros(n)[1..] == Zeros(n - 1);
      ZerosHaveNoClues(n - 1);
    }
  }

  /** The leftmost packing, padded to any width, has the clues it was made from. */
  lemma {:induction false} PackingRoundTrip(clues: Clues, padding: nat)
    requires AreClues(clues)
    ensures LineClues(Packed(clues) + Zeros(padding)) == clues
    decreases |clues|
  {
    ZerosHaveNoClues(padding);
    if clues == [] {
      assert Packed(clues) + Zeros(padding) == Zeros(padding);
    } else if |clues| == 1 {
      RunFirst(clues[0], Zeros(padding));
      assert [clues[0]] + [] == clues;
    } else {
      var rest := Packed(clues[1..]);
      PackingRoundTrip(clues[1..], padding);
      assert Packed(clues) + Zeros(padding) == Ones(clues[0]) + [0] + (rest + Zeros(padding));
      RunThenGap(clues[0], 0, rest + Zeros(padding));
      assert [clues[0]] + clues[1..] == clues;
    }
  }

  /** A list is the clues of some line of a width exactly when its numbers are positive bytes
      and they fit with gaps between them. */
  lemma DerivableIffFits(clues: Clues, width: nat)
    ensures (exists cells: Line :: |cells| == width && LineClues(cells) == clues) <==> AreClues(clues) && Span(clues) <= width
  {
    if AreClues(clues) && Span(clues) <= width {
      PackedSize(clues);
      PackingRoundTrip(clues, width - Span(clues));
      assert |Packed(clues) + Zeros(width - Span(clues))| == width;
    }
    forall cells: Line | |cells| == width && LineClues(cells) == clues ensures AreClues(clues) && Span(clues) <= width {
      CluesFit(cells);
    }
  }

  // --------------------------------------------------------------- filled cells

  function Filled(cells: Line): nat { if cells == [] then 0 else (if cells[0] == 1 then 1 else 0) + Filled(cells[1..]) }

  lemma {:induction false} FilledAppend(a: Line, b: Line)
    ensures Filled(a + b) == Filled(a) + Filled(b)
    decreases |a|
  {
    if a == [] {
      assert a + b == b;
    } else {
      assert (a + b)[1..] == a[1..] + b;
      FilledAppend(a[1..], b);
    }
  }

  lemma {:induction false} FilledOnes(n: nat)
    ensures Filled(Ones(n)) == n
  {
    if n > 0 {
      assert Ones(n)[1..] == Ones(n - 1);
      FilledOnes(n - 1);
    }
  }

  predicate RunFits(run: Run) { run.end <= run.start + BYTE_MAX }

  predicate AllFit(runs: seq<Run>) { forall k :: 0 <= k < |runs| ==> RunFits(runs[k]) }

  /** No run is longer than a byte counts. */
  predicate NoLongRun(cells: Line) { AllFit(Runs(cells, 0)) }

  lemma AllFitSplits(first: Run, later: seq<Run>)
    ensures AllFit([first] + later) <==> RunFits(first) && AllFit(later)
  {
    var runs := [first] + later;
    assert runs[0] == first;
    assert forall k :: 0 <= k < |later| ==> later[k] == runs[k + 1];
  }

  lemma CountOfRun(n: nat, rest: Line)
    requires n > 0 && (rest == [] || rest[0] != 1)
    ensures Sum(LineClues(Ones(n) + rest)) == Saturated(n) + Sum(LineClues(rest))
    ensures Filled(Ones(n) + rest) == n + Filled(rest)
  {
    RunFirst(n, rest);
    assert ([Saturated(n)] + LineClues(rest))[1..] == LineClues(rest);
    FilledAppend(Ones(n), rest);
    FilledOnes(n);
  }

  /** The cells from `at` on: what the clues add up to, how many are filled, whether all runs fit. */
  predicate Counts(cells: Line, at: nat, sum: nat, filled: nat, fit: bool)
    requires at <= |cells|
  {
    Sum(LineClues(cells[at..])) == sum && Filled(cells[at..]) == filled && (AllFit(Runs(cells, at)) <==> fit)
  }

  lemma CountsAcrossGap(cells: Line, at: nat, sum: nat, filled: nat, fit: bool)
    requires at < |cells| && cells[at] != 1 && Counts(cells, at + 1, sum, filled, fit)
    ensures Counts(cells, at, sum, filled, fit)
  {
    assert cells[at..][1..] == cells[at + 1..];
  }

  lemma CountsAcrossRun(cells: Line, at: nat, n: nat, sum: nat, filled: nat, fit: bool)
    requires at < |cells| && cells[at] == 1 && n == RunLength(cells[at..]) && Counts(cells, at + n, sum, filled, fit)
    ensures Counts(cells, at, Saturated(n) + sum, n + filled, n <= BYTE_MAX && fit)
  {
    var rest := cells[at + n..];
    assert cells[at..] == Ones(n) + rest;
    CountOfRun(n, rest);
    FitAcrossRun(cells, at, n);
  }

  lemma FitAcrossRun(cells: Line, at: nat, n: nat)
    requires at < |cells| && cells[at] == 1 && n == RunLength(cells[at..])
    ensures AllFit(Runs(cells, at)) <==> n <= BYTE_MAX && AllFit(Runs(cells, at + n))
  {
    AllFitSplits(Run(at, at + n), Runs(cells, at + n));
    assert Runs(cells, at) == [Run(at, at + n)] + Runs(cells, at + n);
  }

  lemma {:induction false} CluesCountFrom(cells: Line, at: nat) returns (sum: nat, filled: nat, fit: bool)
    requires at <= |cells|
    ensures Counts(cells, at, sum, filled, fit) && sum <= filled && (sum == filled <==> fit)
    decreases |cells| - at
  {
    if at == |cells| {
      sum, filled, fit := 0, 0, true;
    } else if cells[at] != 1 {
      sum, filled, fit := CluesCountFrom(cells, at + 1);
      CountsAcrossGap(cells, at, sum, filled, fit);
    } else {
      var n := RunLength(cells[at..]);
      var s, f, t := CluesCountFrom(cells, at + n);
      CountsAcrossRun(cells, at, n, s, f, t);
      sum, filled, fit := Saturated(n) + s, n + f, n <= BYTE_MAX && t;
    }
  }

  /** The clues add up to the filled cells exactly when no run is longer than a byte counts. */
  lemma CluesCountFilled(cells: Line)
    ensures Sum(LineClues(cells)) <= Filled(cells)
    ensures Sum(LineClues(cells)) == Filled(cells) <==> NoLongRun(cells)
    ensures |cells| <= BYTE_MAX ==> NoLongRun(cells)
  {
    assert cells[0..] == cells;
    var sum, filled, fit := CluesCountFrom(cells, 0);
    RunsAreMaximal(cells, 0);
  }

  // --------------------------------------------------------------- grids

  type Grid = seq<Line>

  /** derive_clues() indexes every row up to the length of the first. */
  predicate Indexable(grid: Grid) { AtLeast(grid, Width(grid)) }

  predicate AtLeast(grid: Grid, width: nat) { forall r :: 0 <= r < |grid| ==> width <= |grid[r]| }

  predicate Rectangular(grid: Grid, width: nat) { forall r :: 0 <= r < |grid| ==> |grid[r]| == width }

  function Width(grid: Grid): nat { if grid == [] then 0 else |grid[0]| }

  function Column(grid: Grid, c: nat): Line
    requires AtLeast(grid, c + 1)
  {
    seq(|grid|, r requires 0 <= r < |grid| => grid[r][c])
  }

  /** The first `width` columns. */
  function Columns(grid: Grid, width: nat): Grid
    requires AtLeast(grid, width)
  {
    seq(width, c requires 0 <= c < width => Column(grid, c))
  }

  function AllClues(lines: Grid): seq<Clues> { seq(|lines|, r requires 0 <= r < |lines| => LineClues(lines[r])) }

  method DeriveClues(solution: Grid) returns (rowClues: seq<Clues>, colClues: seq<Clues>)
    requires Indexable(solution)
    ensures rowClues == AllClues(solution)
    ensures colClues == AllClues(Columns(solution, Width(solution)))
  {
    rowClues, colClues := [], [];
    if solution == [] {
      return;
    }
    for r := 0 to |solution|
      invariant |rowClues| == r && forall k :: 0 <= k < r ==> rowClues[k] == LineClues(solution[k])
    {
      var clues := DeriveLineClues(solution[r]);
      rowClues := rowClues + [clues];
    }
    var width := |solution[0]|;
    for col := 0 to width
      invariant |colClues| == col && forall k :: 0 <= k < col ==> colClues[k] == LineClues(Column(solution, k))
    {
      var clues := DeriveLineClues(Column(solution, col));
      colClues := colClues + [clues];
    }
  }

  // --------------------------------------------------------------- totals

  function Total(lists: seq<Clues>): nat {
    if lists == [] then 0 else Total(lists[..|lists| - 1]) + Sum(lists[|lists| - 1])
  }

  function FilledTotal(lines: Grid): nat {
    if lines == [] then 0 else FilledTotal(lines[..|lines| - 1]) + Filled(lines[|lines| - 1])
  }

  predicate NoLongRuns(lines: Grid) { forall r :: 0 <= r < |lines| ==> NoLongRun(lines[r]) }

  lemma {:induction false} TotalOfLines(lines: Grid)
    ensures Total(AllClues(lines)) <= FilledTotal(lines)
    ensures Total(AllClues(lines)) == FilledTotal(lines) <==> NoLongRuns(lines)
    decreases |lines|
  {
    if lines != [] {
      var rest := lines[..|lines| - 1];
      assert AllClues(lines)[..|lines| - 1] == AllClues(rest);
      TotalOfLines(rest);
      CluesCountFilled(lines[|lines| - 1]);
      assert NoLongRuns(lines) <==> NoLongRuns(rest) && NoLongRun(lines[|lines| - 1]);
    }
  }

  /** The filled cells in the first `width` columns, row by row. */
  function FilledBefore(grid: Grid, width: nat): nat
    requires AtLeast(grid, width)
  {
    if grid == [] then 0 else FilledBefore(grid[..|grid| - 1], width) + Filled(grid[|grid| - 1][..width])
  }

  lemma {:induction false} OneMoreColumn(grid: Grid, c: nat)
    requires AtLeast(grid, c + 1)
    ensures FilledBefore(grid, c + 1) == FilledBefore(grid, c) + Filled(Column(grid, c))
    decreases |grid|
  {
    if grid != [] {
      var rest, row := grid[..|grid| - 1], grid[|grid| - 1];
      OneMoreColumn(rest, c);
      assert Column(grid, c) == Column(rest, c) + [row[c]];
      FilledAppend(Column(rest, c), [row[c]]);
      assert row[..c + 1] == row[..c] + [row[c]];
      FilledAppend(row[..c], [row[c]]);
    }
  }

  lemma {:induction false} ColumnsCountTheSame(grid: Grid, width: nat)
    requires AtLeast(grid, width)
    ensures FilledTotal(Columns(grid, width)) == FilledBefore(grid, width)
    decreases width
  {
    if width == 0 {
      NoColumns(grid);
    } else {
      assert Columns(grid, width)[..width - 1] == Columns(grid, width - 1);
      ColumnsCountTheSame(grid, width - 1);
      OneMoreColumn(grid, width - 1);
    }
  }

  lemma {:induction false} NoColumns(grid: Grid)
    ensures FilledBefore(grid, 0) == 0
    decreases |grid|
  {
    if grid != [] {
      NoColumns(grid[..|grid| - 1]);
    }
  }

  lemma {:induction false} AllColumns(grid: Grid, width: nat)
    requires Rectangular(grid, width)
    ensures FilledBefore(grid, width) == FilledTotal(grid)
    decreases |grid|
  {
    if grid != [] {
      AllColumns(grid[..|grid| - 1], width);
      assert grid[|grid| - 1][..width] == grid[|grid| - 1];
    }
  }

  /** On a rectangle the row clues count the filled cells exactly when no row has a run longer
      than a byte counts, and likewise the column clues. */
  lemma ClueTotals(grid: Grid, columns: Grid)
    requires Rectangular(grid, Width(grid)) && columns == Columns(grid, Width(grid))
    ensures Total(AllClues(grid)) == FilledTotal(grid) <==> NoLongRuns(grid)
    ensures Total(AllClues(columns)) == FilledTotal(grid) <==> NoLongRuns(columns)
  {
    TotalOfLines(grid);
    TotalOfLines(columns);
    ColumnsCountTheSame(grid, Width(grid));
    AllColumns(grid, Width(grid));
  }

  lemma ShortLinesHaveNoLongRun(lines: Grid, width: nat)
    requires Rectangular(lines, width) && width <= BYTE_MAX
    ensures NoLongRuns(lines)
  {
    forall r | 0 <= r < |lines| ensures NoLongRun(lines[r]) {
      CluesCountFilled(lines[r]);
    }
  }

  /** With both sides at most 255 the row clues and the column clues add up to the same number,
      that of the filled cells. */
  lemma RowAndColumnTotalsAgree(grid: Grid, columns: Grid)
    requires Rectangular(grid, Width(grid)) && columns == Columns(grid, Width(grid))
    requires |grid| <= 255 && Width(grid) <= 255
    ensures Total(AllClues(grid)) == FilledTotal(grid) == Total(AllClues(columns))
  {
    ClueTotals(grid, columns);
    ShortLinesHaveNoLongRun(grid, Width(grid));
    ColumnsAreRectangular(grid, Width(grid));
    ShortLinesHaveNoLongRun(columns, |grid|);
  }

  lemma ColumnsAreRectangular(grid: Grid, width: nat)
    requires AtLeast(grid, width)
    ensures Rectangular(Columns(grid, width), |grid|)
  {
  }

  // --------------------------------------------------------------- transposition

  /** Transposing swaps the two clue lists, except for rows without cells: their transpose has
      no rows, and the empty row clues are lost. */
  lemma TransposeSwaps(grid: Grid)
    requires Rectangular(grid, Width(grid))
    ensures var turned := Columns(grid, Width(grid));
      Rectangular(turned, Width(turned))
      && (AllClues(Columns(turned, Width(turned))) == AllClues(grid) <==> (grid == [] || Width(grid) > 0))
  {
    var turned := Columns(grid, Width(grid));
    assert forall c :: 0 <= c < |turned| ==> |turned[c]| == |grid|;
    if grid != [] && Width(grid) > 0 {
      assert Width(turned) == |grid|;
      forall r | 0 <= r < |grid| ensures Column(turned, r) == grid[r] {
        assert forall c :: 0 <= c < |grid[r]| ==> Column(turned, r)[c] == turned[c][r] == grid[r][c];
      }
      assert Columns(turned, |grid|) == grid;
    } else if grid != [] {
      assert |AllClues(grid)| == |grid| > 0;
      assert turned == [];
      assert |AllClues(Columns(turned, Width(turned)))| == 0;
    }
  }

  // --------------------------------------------------------------- validation

  datatype Puzzle = Puzzle(width: nat, height: nat, rowClues: seq<Clues>, colClues: seq<Clues>, solution: Grid)

  datatype Verdict = Valid | HeightMismatch | WidthMismatch(row: nat) | NonBinary(row: nat) | RowCluesMismatch | ColCluesMismatch

  predicate IsBinary(row: Line) { forall i :: 0 <= i < |row| ==> row[i] <= 1 }

  predicate RowsAreGood(p: Puzzle, n: nat)
    requires n <= |p.solution|
  {
    forall r :: 0 <= r < n ==> |p.solution[r]| == p.width && IsBinary(p.solution[r])
  }

  /** Accepts exactly the well-shaped binary puzzles whose stored clues are those of the
      solution, and otherwise names the first thing wrong. */
  method Validate(p: Puzzle) returns (verdict: Verdict)
    ensures verdict.Valid? <==>
      && |p.solution| == p.height
      && (forall r :: 0 <= r < |p.solution| ==> |p.solution[r]| == p.width && forall i :: 0 <= i < p.width ==> p.solution[r][i] in {0, 1})
      && p.rowClues == AllClues(p.solution)
      && p.colClues == AllClues(Columns(p.solution, Width(p.solution)))
    ensures verdict.HeightMismatch? <==> |p.solution| != p.height
    ensures verdict.WidthMismatch? ==> var r := verdict.row; r < |p.solution| && RowsAreGood(p, r) && |p.solution[r]| != p.width
    ensures verdict.NonBinary? ==>
      var r := verdict.row;
      r < |p.solution| && RowsAreGood(p, r) && |p.solution[r]| == p.width && exists i :: 0 <= i < |p.solution[r]| && p.solution[r][i] !in {0, 1}
    ensures verdict.RowCluesMismatch? ==> RowsAreGood(p, |p.solution|) && p.rowClues != AllClues(p.solution)
    ensures verdict.ColCluesMismatch? ==> RowsAreGood(p, |p.solution|) && p.rowClues == AllClues(p.solution)
    ensures verdict.ColCluesMismatch? ==> p.colClues != AllClues(Columns(p.solution, Width(p.solution)))
  {
    if |p.solution| != p.height {
      return HeightMismatch;
    }
    for r := 0 to |p.solution|
      invariant RowsAreGood(p, r)
    {
      if |p.solution[r]| != p.width {
        return WidthMismatch(r);
      }
      if exists i :: 0 <= i < |p.solution[r]| && p.solution[r][i] > 1 {
        return NonBinary(r);
      }
    }
    var rowClues, colClues := DeriveClues(p.solution);
    if rowClues != p.rowClues {
      return RowCluesMismatch;
    }
    if colClues != p.colClues {
      return ColCluesMismatch;
    }
    return Valid;
  }
}
