/** The sliding-window rate limiter of `late-core/src/rate_limit.rs`.

    Per address it keeps a queue of the allowed attempts, drops the expired ones
    when asked, and forgets addresses whose queue is empty.  Times are readings of
    one monotone clock. */
module RateLimit {
  import opened FiniteSets
  import opened Timelines

  datatype Ip = Ip(address: nat)

  /** An allowed attempt. */
  datatype Attempt = Attempt(ip: Ip, at: nat)

  // --------------------------------------------------------------- specification

  /** The times at which an address was allowed, oldest first. */
  function TimesOf(history: seq<Attempt>, ip: Ip): seq<nat> {
    if history == [] then []
    else
      var last := history[|history| - 1];
      TimesOf(history[..|history| - 1], ip) + (if last.ip == ip then [last.at] else [])
  }

  /** What the limiter promises: allow while fewer than `max` allowed attempts of the
      address lie in the closed window ending now.  A limit of zero means no limit. */
  predicate MayPass(history: seq<Attempt>, ip: Ip, now: nat, max: nat, window: nat) {
    max == 0 || CountBetween(TimesOf(history, ip), now - window, now) < max
  }

  function Recorded(history: seq<Attempt>, ip: Ip, now: nat, max: nat, window: nat): seq<Attempt> {
    if max > 0 && MayPass(history, ip, now, max, window) then history + [Attempt(ip, now)] else history
  }

  // --------------------------------------------------------------- the limiter on values

  type Queues = map<Ip, seq<nat>>

  /** Pop from the front while expired. */
  function Pruned(queue: seq<nat>, now: nat, window: nat): seq<nat> {
    if queue == [] || now - queue[0] <= window then queue else Pruned(queue[1..], now, window)
  }

  function QueueOf(queues: Queues, ip: Ip): seq<nat> { if ip in queues then queues[ip] else [] }

  /** allow(): the queues afterwards, and the decision. */
  function Allowed(queues: Queues, ip: Ip, now: nat, max: nat, window: nat): (Queues, bool) {
    if max == 0 then (queues, true)
    else
      var queue := Pruned(QueueOf(queues, ip), now, window);
      if |queue| >= max then (queues[ip := queue], false) else (queues[ip := queue + [now]], true)
  }

  /** cleanup(). */
  function Cleaned(queues: Queues, now: nat, window: nat): Queues {
    map ip | ip in queues && Pruned(queues[ip], now, window) != [] :: Pruned(queues[ip], now, window)
  }

  // --------------------------------------------------------------- refinement

  /** The queue is the tail of the full list of times, and what it misses is expired at `clock`. */
  predicate TailOf(queue: seq<nat>, times: seq<nat>, clock: nat, window: nat) {
    && |queue| <= |times|
    && queue == times[|times| - |queue|..]
    && forall i :: 0 <= i < |times| - |queue| ==> times[i] + window < clock
  }

  /** Every attempt had fewer than `max` before it in the window ending at it. */
  predicate Legal(times: seq<nat>, max: nat, window: nat) {
    forall i :: 0 <= i < |times| ==> LegalAt(times, i, max, window)
  }

  predicate LegalAt(times: seq<nat>, i: nat, max: nat, window: nat)
    requires i < |times|
  {
    CountBetween(times[..i], times[i] - window, times[i]) < max
  }

  ghost predicate Sim(queues: Queues, history: seq<Attempt>, clock: nat, max: nat, window: nat) {
    forall ip :: SimAt(QueueOf(queues, ip), TimesOf(history, ip), clock, max, window)
  }

  predicate SimAt(queue: seq<nat>, times: seq<nat>, clock: nat, max: nat, window: nat) {
    && Sorted(times) && (forall i :: 0 <= i < |times| ==> times[i] <= clock)
    && TailOf(queue, times, clock, window)
    && Legal(times, max, window)
  }

  predicate Recent(queue: seq<nat>, now: nat, window: nat) {
    forall i :: 0 <= i < |queue| ==> now <= queue[i] + window
  }

  lemma {:induction false} PrunedIsTail(queue: seq<nat>, times: seq<nat>, clock: nat, now: nat, window: nat)
    requires Sorted(times) && TailOf(queue, times, clock, window) && clock <= now
    ensures TailOf(Pruned(queue, now, window), times, now, window)
    ensures Recent(Pruned(queue, now, window), now, window)
    decreases |queue|
  {
    if queue != [] && now - queue[0] > window {
      assert queue[0] == times[|times| - |queue|];
      PrunedIsTail(queue[1..], times, now, now, window);
      assert Pruned(queue, now, window) == Pruned(queue[1..], now, window);
    } else if queue != [] {
      assert forall i :: 0 <= i < |queue| ==> queue[i] == times[|times| - |queue| + i];
    }
  }

  /** In a sorted list whose first `k` times lie below the interval and the rest inside. */
  lemma {:induction false} CountTail(times: seq<nat>, k: nat, lo: int, hi: int)
    requires k <= |times|
    requires forall i :: 0 <= i < k ==> times[i] < lo
    requires forall i :: k <= i < |times| ==> lo <= times[i] <= hi
    ensures CountBetween(times, lo, hi) == |times| - k
    decreases |times|
  {
    if times != [] {
      CountTail(times[..|times| - 1], if k == |times| then k - 1 else k, lo, hi);
    }
  }

  /** The length of the pruned queue is the number of attempts in the window. */
  lemma PrunedCounts(queue: seq<nat>, times: seq<nat>, clock: nat, now: nat, max: nat, window: nat)
    requires SimAt(queue, times, clock, max, window) && clock <= now
    ensures |Pruned(queue, now, window)| == CountBetween(times, now - window, now)
  {
    PrunedIsTail(queue, times, clock, now, window);
    var rest := Pruned(queue, now, window);
    var k := |times| - |rest|;
    forall i | k <= i < |times| ensures now - window <= times[i] <= now {
      assert times[i] == rest[i - k];
    }
    CountTail(times, k, now - window, now);
  }

  lemma LegalGrows(times: seq<nat>, now: nat, max: nat, window: nat)
    requires Legal(times, max, window) && CountBetween(times, now - window, now) < max
    ensures Legal(times + [now], max, window)
  {
    var grown := times + [now];
    assert grown[..|times|] == times;
    forall i | 0 <= i < |times| ensures LegalAt(grown, i, max, window) {
      assert LegalAt(times, i, max, window) && grown[..i] == times[..i];
    }
  }

  lemma TimesOfSnoc(history: seq<Attempt>, a: Attempt, ip: Ip)
    ensures TimesOf(history + [a], ip) == if a.ip == ip then TimesOf(history, ip) + [a.at] else TimesOf(history, ip)
  {
    assert TimesOf(history, ip) + [] == TimesOf(history, ip);
    assert (history + [a])[..|history|] == history;
  }

  /** The queue of the address asked about, after the decision. */
  lemma AllowAt(queue: seq<nat>, times: seq<nat>, clock: nat, now: nat, max: nat, window: nat)
    requires SimAt(queue, times, clock, max, window) && clock <= now && max > 0
    ensures var rest := Pruned(queue, now, window);
            && |rest| == CountBetween(times, now - window, now)
            && SimAt(rest, times, now, max, window)
            && (|rest| < max ==> SimAt(rest + [now], times + [now], now, max, window))
  {
    PrunedIsTail(queue, times, clock, now, window);
    PrunedCounts(queue, times, clock, now, max, window);
    if |Pruned(queue, now, window)| < max {
      LegalGrows(times, now, max, window);
    }
  }

  /** allow() decides exactly as the full history would, and stays in step with it. */
  lemma AllowIsExact(queues: Queues, history: seq<Attempt>, clock: nat, ip: Ip, now: nat, max: nat, window: nat)
    requires Sim(queues, history, clock, max, window) && clock <= now && max > 0
    ensures var (after, pass) := Allowed(queues, ip, now, max, window);
            && pass == MayPass(history, ip, now, max, window)
            && Sim(after, Recorded(history, ip, now, max, window), now, max, window)
  {
    AllowAt(QueueOf(queues, ip), TimesOf(history, ip), clock, now, max, window);
    var (after, pass) := Allowed(queues, ip, now, max, window);
    var recorded := Recorded(history, ip, now, max, window);
    forall other ensures SimAt(QueueOf(after, other), TimesOf(recorded, other), now, max, window) {
      assert SimAt(QueueOf(queues, other), TimesOf(history, other), clock, max, window);
      TimesOfSnoc(history, Attempt(ip, now), other);
      if other != ip {
        StaysInStep(QueueOf(queues, other), TimesOf(history, other), clock, now, max, window);
      }
    }
  }

  /** An address not asked about stays in step as time passes. */
  lemma StaysInStep(queue: seq<nat>, times: seq<nat>, clock: nat, now: nat, max: nat, window: nat)
    requires SimAt(queue, times, clock, max, window) && clock <= now
    ensures SimAt(queue, times, now, max, window)
  {
  }

  /** cleanup() changes no later decision: the queues stay in step with the same history. */
  lemma CleanupIsInvisible(queues: Queues, history: seq<Attempt>, clock: nat, now: nat, max: nat, window: nat)
    requires Sim(queues, history, clock, max, window) && clock <= now
    ensures Sim(Cleaned(queues, now, window), history, now, max, window)
  {
    forall ip ensures SimAt(QueueOf(Cleaned(queues, now, window), ip), TimesOf(history, ip), now, max, window) {
      assert SimAt(QueueOf(queues, ip), TimesOf(history, ip), clock, max, window);
      PrunedIsTail(QueueOf(queues, ip), TimesOf(history, ip), clock, now, window);
    }
  }

  /** And it forgets: exactly the addresses with an allowed attempt in the window keep an entry,
      with no attempt in it but those. */
  lemma CleanupForgets(queues: Queues, history: seq<Attempt>, clock: nat, now: nat, max: nat, window: nat, ip: Ip)
    requires Sim(queues, history, clock, max, window) && clock <= now
    ensures ip in Cleaned(queues, now, window) <==> CountBetween(TimesOf(history, ip), now - window, now) > 0
    ensures ip in Cleaned(queues, now, window) ==>
              |Cleaned(queues, now, window)[ip]| == CountBetween(TimesOf(history, ip), now - window, now)
  {
    assert SimAt(QueueOf(queues, ip), TimesOf(history, ip), clock, max, window);
    PrunedCounts(QueueOf(queues, ip), TimesOf(history, ip), clock, now, max, window);
  }

  // --------------------------------------------------------------- whole runs

  datatype Call = Allow(ip: Ip, at: nat) | Cleanup(at: nat)

  predicate Monotone(calls: seq<Call>, clock: nat) {
    calls == [] || (clock <= calls[0].at && Monotone(calls[1..], calls[0].at))
  }

  /** The decisions the limiter makes along a run. */
  function Decisions(queues: Queues, calls: seq<Call>, max: nat, window: nat): seq<bool>
    decreases |calls|
  {
    if calls == [] then []
    else match calls[0]
      case Cleanup(at) => Decisions(Cleaned(queues, at, window), calls[1..], max, window)
      case Allow(ip, at) =>
        var (after, pass) := Allowed(queues, ip, at, max, window);
        [pass] + Decisions(after, calls[1..], max, window)
  }

  /** The decisions the full history demands; cleanups do not appear. */
  function Demanded(history: seq<Attempt>, calls: seq<Call>, max: nat, window: nat): seq<bool>
    decreases |calls|
  {
    if calls == [] then []
    else match calls[0]
      case Cleanup(_) => Demanded(history, calls[1..], max, window)
      case Allow(ip, at) =>
        [MayPass(history, ip, at, max, window)] +
        Demanded(Recorded(history, ip, at, max, window), calls[1..], max, window)
  }

  function HistoryAfter(history: seq<Attempt>, calls: seq<Call>, max: nat, window: nat): seq<Attempt>
    decreases |calls|
  {
    if calls == [] then history
    else match calls[0]
      case Cleanup(_) => HistoryAfter(history, calls[1..], max, window)
      case Allow(ip, at) => HistoryAfter(Recorded(history, ip, at, max, window), calls[1..], max, window)
  }

  lemma {:induction false} DecisionsFollowHistory(queues: Queues, history: seq<Attempt>, clock: nat, calls: seq<Call>,
                                                  max: nat, window: nat)
    requires Sim(queues, history, clock, max, window) && Monotone(calls, clock) && max > 0
    ensures Decisions(queues, calls, max, window) == Demanded(history, calls, max, window)
    ensures forall ip :: Sorted(TimesOf(HistoryAfter(history, calls, max, window), ip))
    ensures forall ip :: Legal(TimesOf(HistoryAfter(history, calls, max, window), ip), max, window)
    decreases |calls|
  {
    if calls == [] {
      forall ip ensures Sorted(TimesOf(history, ip)) && Legal(TimesOf(history, ip), max, window) {
        assert SimAt(QueueOf(queues, ip), TimesOf(history, ip), clock, max, window);
      }
    } else {
      match calls[0]
      case Cleanup(at) =>
        CleanupIsInvisible(queues, history, clock, at, max, window);
        DecisionsFollowHistory(Cleaned(queues, at, window), history, at, calls[1..], max, window);
      case Allow(ip, at) =>
        AllowIsExact(queues, history, clock, ip, at, max, window);
        var (after, _) := Allowed(queues, ip, at, max, window);
        DecisionsFollowHistory(after, Recorded(history, ip, at, max, window), at, calls[1..], max, window);
    }
  }

  /** On every run with a monotone clock and with cleanups anywhere, the limiter decides
      exactly as the full history demands. */
  lemma LimiterIsExact(calls: seq<Call>, max: nat, window: nat)
    requires Monotone(calls, 0)
    ensures Decisions(map[], calls, max, window) == Demanded([], calls, max, window)
  {
    if max == 0 {
      NoLimit(map[], [], calls, window);
    } else {
      assert Sim(map[], [], 0, max, window);
      DecisionsFollowHistory(map[], [], 0, calls, max, window);
    }
  }

  lemma {:induction false} NoLimit(queues: Queues, history: seq<Attempt>, calls: seq<Call>, window: nat)
    ensures Decisions(queues, calls, 0, window) == Demanded(history, calls, 0, window)
    decreases |calls|
  {
    if calls != [] {
      match calls[0]
      case Cleanup(at) => NoLimit(Cleaned(queues, at, window), history, calls[1..], window);
      case Allow(_, _) => NoLimit(queues, history, calls[1..], window);
    }
  }

  function WithoutCleanups(calls: seq<Call>): seq<Call> {
    if calls == [] then []
    else (if calls[0].Cleanup? then [] else [calls[0]]) + WithoutCleanups(calls[1..])
  }

  /** The full history demands the same without the cleanups. */
  lemma {:induction false} DemandsSkipCleanups(history: seq<Attempt>, calls: seq<Call>, max: nat, window: nat)
    ensures Demanded(history, calls, max, window) == Demanded(history, WithoutCleanups(calls), max, window)
    decreases |calls|
  {
    if calls != [] {
      match calls[0]
      case Cleanup(_) =>
        DemandsSkipCleanups(history, calls[1..], max, window);
        assert WithoutCleanups(calls) == WithoutCleanups(calls[1..]);
      case Allow(ip, at) =>
        DemandsSkipCleanups(Recorded(history, ip, at, max, window), calls[1..], max, window);
        assert WithoutCleanups(calls)[1..] == WithoutCleanups(calls[1..]);
    }
  }

  lemma {:induction false} FewerStaysMonotone(calls: seq<Call>, clock: nat, earlier: nat)
    requires Monotone(calls, clock) && earlier <= clock
    ensures Monotone(WithoutCleanups(calls), earlier)
    decreases |calls|
  {
    if calls != [] {
      if calls[0].Cleanup? {
        FewerStaysMonotone(calls[1..], calls[0].at, earlier);
        assert WithoutCleanups(calls) == WithoutCleanups(calls[1..]);
      } else {
        FewerStaysMonotone(calls[1..], calls[0].at, calls[0].at);
        assert WithoutCleanups(calls)[1..] == WithoutCleanups(calls[1..]);
      }
    }
  }

  /** Removing every cleanup from a run changes no decision the limiter makes. */
  lemma CleanupsDoNotMatter(calls: seq<Call>, max: nat, window: nat)
    requires Monotone(calls, 0)
    ensures Decisions(map[], calls, max, window) == Decisions(map[], WithoutCleanups(calls), max, window)
  {
    LimiterIsExact(calls, max, window);
    FewerStaysMonotone(calls, 0, 0);
    LimiterIsExact(WithoutCleanups(calls), max, window);
    DemandsSkipCleanups([], calls, max, window);
  }

  lemma {:induction false} NarrowerCounts(times: seq<nat>, lo: int, hi: int, lo': int, hi': int)
    requires forall i :: 0 <= i < |times| && lo <= times[i] <= hi ==> lo' <= times[i] <= hi'
    ensures CountBetween(times, lo, hi) <= CountBetween(times, lo', hi')
    decreases |times|
  {
    if times != [] {
      NarrowerCounts(times[..|times| - 1], lo, hi, lo', hi');
    }
  }

  lemma LegalFront(times: seq<nat>, max: nat, window: nat)
    requires times != [] && Legal(times, max, window)
    ensures Legal(times[..|times| - 1], max, window)
    ensures CountBetween(times[..|times| - 1], times[|times| - 1] - window, times[|times| - 1]) < max
  {
    var front := times[..|times| - 1];
    forall i | 0 <= i < |front| ensures LegalAt(front, i, max, window) {
      assert LegalAt(times, i, max, window) && front[..i] == times[..i];
    }
    assert LegalAt(times, |times| - 1, max, window);
  }

  lemma {:induction false} LegalBoundsIntervals(times: seq<nat>, a: int, max: nat, window: nat)
    requires Sorted(times) && Legal(times, max, window)
    ensures CountBetween(times, a, a + window) <= max
    decreases |times|
  {
    if times != [] {
      var front := times[..|times| - 1];
      var last := times[|times| - 1];
      LegalFront(times, max, window);
      LegalBoundsIntervals(front, a, max, window);
      if a <= last <= a + window {
        NarrowerCounts(front, a, a + window, last - window, last);
      }
    }
  }

  /** Every closed interval of window length, wherever it lies, holds at most `max` allowed
      attempts of an address. */
  lemma IntervalsAreBounded(calls: seq<Call>, ip: Ip, a: int, max: nat, window: nat)
    requires Monotone(calls, 0) && max > 0
    ensures CountBetween(TimesOf(HistoryAfter([], calls, max, window), ip), a, a + window) <= max
  {
    assert Sim(map[], [], 0, max, window);
    DecisionsFollowHistory(map[], [], 0, calls, max, window);
    LegalBoundsIntervals(TimesOf(HistoryAfter([], calls, max, window), ip), a, max, window);
  }

  // --------------------------------------------------------------- the limiter in place

  class IpRateLimiter {
    const maxAttempts: nat
    const window: nat
    var attemptsByIp: Queues

    constructor (maxAttempts: nat, window: nat)
      ensures this.maxAttempts == maxAttempts && this.window == window && attemptsByIp == map[]
    {
      this.maxAttempts := maxAttempts;
      this.window := window;
      attemptsByIp := map[];
    }

    method PopExpired(queue: seq<nat>, now: nat) returns (attempts: seq<nat>)
      ensures attempts == Pruned(queue, now, window)
    {
      attempts := queue;
      while attempts != []
        invariant Pruned(attempts, now, window) == Pruned(queue, now, window)
        decreases |attempts|
      {
        if now - attempts[0] <= window {
          break;
        }
        attempts := attempts[1..];
      }
    }

    method Allow(ip: Ip, now: nat) returns (pass: bool)
      modifies this
      ensures (attemptsByIp, pass) == Allowed(old(attemptsByIp), ip, now, maxAttempts, window)
    {
      if maxAttempts == 0 {
        return true;
      }
      var attempts := if ip in attemptsByIp then attemptsByIp[ip] else [];
      attempts := PopExpired(attempts, now);
      if |attempts| >= maxAttempts {
        attemptsByIp := attemptsByIp[ip := attempts];
        return false;
      }
      attemptsByIp := attemptsByIp[ip := attempts + [now]];
      return true;
    }

    /** retain() visits the entries in no particular order. */
    method Cleanup(now: nat)
      modifies this
      ensures attemptsByIp == Cleaned(old(attemptsByIp), now, window)
    {
      ghost var before := attemptsByIp;
      var todo := attemptsByIp.Keys;
      while todo != {}
        invariant todo <= before.Keys
        invariant forall ip :: ip in attemptsByIp <==>
                    ip in before && (ip in todo || Pruned(before[ip], now, window) != [])
        invariant forall ip :: ip in attemptsByIp ==>
                    attemptsByIp[ip] == if ip in todo then before[ip] else Pruned(before[ip], now, window)
        decreases |todo|
      {
        var ip := Pick(todo);
        var attempts := PopExpired(attemptsByIp[ip], now);
        attemptsByIp := if attempts == [] then attemptsByIp - {ip} else attemptsByIp[ip := attempts];
        todo := todo - {ip};
      }
      var expected := Cleaned(before, now, window);
      assert attemptsByIp.Keys == expected.Keys;
      assert forall ip :: ip in expected ==> expected[ip] == attemptsByIp[ip];
    }
  }
}
