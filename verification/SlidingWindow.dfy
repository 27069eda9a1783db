/** A deque of reservation times, and what its pruning guarantees about every window. */
module SlidingWindow {

  const MINUTE: int := 60_000_000          // microseconds, the clock's resolution
  const DAY: int := 86_400_000_000

  ghost predicate Sorted(s: seq<int>) { forall i, j :: 0 <= i < j < |s| ==> s[i] <= s[j] }

  /** `_prune`: drop entries from the front up to and including the cutoff. */
  function Prune(attempts: seq<int>, cutoff: int): seq<int> {
    if attempts != [] && attempts[0] <= cutoff then Prune(attempts[1..], cutoff) else attempts
  }

  /** The entries after a cutoff, wherever they stand. */
  function Recent(history: seq<int>, cutoff: int): seq<int> {
    if history == [] then []
    else if history[0] > cutoff then [history[0]] + Recent(history[1..], cutoff)
    else Recent(history[1..], cutoff)
  }

  /** How many reservations fall in the half-open interval. */
  function CountIn(history: seq<int>, from: int, to: int): nat {
    if history == [] then 0
    else
      var last := history[|history| - 1];
      CountIn(history[..|history| - 1], from, to) + if from <= last < to then 1 else 0
  }

  /** Reservations a full limit apart are a full minute apart. */
  ghost predicate Spaced(history: seq<int>, limit: nat) {
    forall i, j :: 0 <= i && j == i + limit && j < |history| ==> history[j] - history[i] >= MINUTE
  }

  /** The deque against all reservations ever made, as of the last prune at `touched`. */
  ghost predicate Tracks(attempts: seq<int>, history: seq<int>, touched: int, limit: nat) {
    && Sorted(history) && Spaced(history, limit)
    && (forall i :: 0 <= i < |history| ==> history[i] <= touched)
    && attempts == Recent(history, touched - MINUTE)
  }

  lemma {:induction false} RecentAppends(history: seq<int>, t: int, cutoff: int)
    ensures Recent(history + [t], cutoff) == Recent(history, cutoff) + if t > cutoff then [t] else []
  {
    if history != [] {
      RecentAppends(history[1..], t, cutoff);
      assert (history + [t])[1..] == history[1..] + [t];
    }
  }

  lemma {:induction false} RecentOfLater(history: seq<int>, cutoff: int)
    requires forall i :: 0 <= i < |history| ==> history[i] > cutoff
    ensures Recent(history, cutoff) == history
  {
    if history != [] { RecentOfLater(history[1..], cutoff); }
  }

  /** On a sorted history the recent entries are a suffix. */
  lemma {:induction false} RecentIsSuffix(history: seq<int>, cutoff: int)
    requires Sorted(history)
    ensures |Recent(history, cutoff)| <= |history|
    ensures Recent(history, cutoff) == history[|history| - |Recent(history, cutoff)|..]
    ensures forall i :: 0 <= i < |history| - |Recent(history, cutoff)| ==> history[i] <= cutoff
  {
    if history != [] {
      if history[0] > cutoff {
        RecentOfLater(history, cutoff);
      } else {
        RecentIsSuffix(history[1..], cutoff);
      }
    }
  }

  /** Pruning at a later cutoff forgets exactly what became old. */
  lemma {:induction false} PruneOfRecent(history: seq<int>, cutoff: int, later: int)
    requires Sorted(history) && cutoff <= later
    ensures Prune(Recent(history, cutoff), later) == Recent(history, later)
  {
    if history != [] {
      if history[0] > later {
        RecentOfLater(history, cutoff);
        RecentOfLater(history, later);
      } else {
        PruneOfRecent(history[1..], cutoff, later);
        if history[0] > cutoff { assert Recent(history, cutoff)[1..] == Recent(history[1..], cutoff); }
      }
    }
  }

  /** A refused call only prunes. */
  lemma PruneTracks(attempts: seq<int>, history: seq<int>, touched: int, limit: nat, now: int)
    requires Tracks(attempts, history, touched, limit) && touched <= now
    ensures Tracks(Prune(attempts, now - MINUTE), history, now, limit)
  {
    PruneOfRecent(history, touched - MINUTE, now - MINUTE);
  }

  /** A reservation below the limit keeps every pair a limit apart a minute apart. */
  lemma ReserveTracks(attempts: seq<int>, history: seq<int>, touched: int, limit: nat, now: int)
    requires limit > 0 && Tracks(attempts, history, touched, limit) && touched <= now
    requires |Prune(attempts, now - MINUTE)| < limit
    ensures Tracks(Prune(attempts, now - MINUTE) + [now], history + [now], now, limit)
  {
    PruneTracks(attempts, history, touched, limit, now);
    RecentIsSuffix(history, now - MINUTE);
    RecentAppends(history, now, now - MINUTE);
    var longer := history + [now];
    forall i, j | 0 <= i && j == i + limit && j < |longer| ensures longer[j] - longer[i] >= MINUTE {
      if j < |history| { assert history[j] - history[i] >= MINUTE; }
    }
  }

  /** Where the first reservation of a window stands; the others follow it directly. */
  lemma {:induction false} WindowIsContiguous(history: seq<int>, from: int, to: int) returns (i: nat)
    requires Sorted(history) && CountIn(history, from, to) > 0
    ensures i + CountIn(history, from, to) <= |history| && history[i] >= from
    ensures history[i + CountIn(history, from, to) - 1] < to
  {
    var n := |history| - 1;
    if CountIn(history[..n], from, to) == 0 {
      i := n;
    } else {
      i := WindowIsContiguous(history[..n], from, to);
    }
  }

  /** Every half-open minute, wherever it starts, holds at most `limit` reservations. */
  lemma EveryWindowBounded(history: seq<int>, limit: nat, from: int)
    requires Sorted(history) && Spaced(history, limit)
    ensures InMinute(history, from) <= limit
  {
    if InMinute(history, from) > 0 {
      var i := WindowIsContiguous(history, from, from + MINUTE);
      assert i + limit < |history| ==> history[i + limit] - history[i] >= MINUTE;
    }
  }

  lemma CountStep(history: seq<int>, t: int, from: int, to: int)
    ensures CountIn(history + [t], from, to) == CountIn(history, from, to) + if from <= t < to then 1 else 0
  {
    assert (history + [t])[..|history|] == history;
  }

  lemma {:induction false} CountAtLeast(history: seq<int>, from: int, to: int, i: nat, j: nat)
    requires i <= j <= |history| && forall k :: i <= k < j ==> from <= history[k] < to
    ensures CountIn(history, from, to) >= j - i
    decreases |history|
  {
    if history != [] {
      var n := |history| - 1;
      if j <= n {
        CountAtLeast(history[..n], from, to, i, j);
      } else if i <= n {
        CountAtLeast(history[..n], from, to, i, n);
      }
    }
  }

  /** The reservations of the half-open minute, and of the closed minute, from a time. */
  function InMinute(history: seq<int>, from: int): nat { CountIn(history, from, from + MINUTE) }

  function InClosedMinute(history: seq<int>, from: int): nat { CountIn(history, from, from + MINUTE + 1) }

  /** Every half-open minute holds at most the limit. */
  ghost predicate MinutesBounded(history: seq<int>, limit: nat) {
    forall from :: InMinute(history, from) <= limit
  }

  lemma TwoSpans(history: seq<int>, limit: nat, i: nat)
    requires Spaced(history, limit) && i + 2 * limit < |history|
    ensures history[i + 2 * limit] - history[i] >= 2 * MINUTE
  {
    assert history[i + limit] - history[i] >= MINUTE;
    assert history[i + 2 * limit] - history[i + limit] >= MINUTE;
  }

  /** A closed minute can hold twice the limit, and no more. */
  lemma ClosedWindowHoldsTwice(history: seq<int>, limit: nat, from: int)
    requires Sorted(history) && Spaced(history, limit) && limit > 0
    ensures InClosedMinute(history, from) <= 2 * limit
  {
    if InClosedMinute(history, from) > 2 * limit {
      var i := WindowIsContiguous(history, from, from + MINUTE + 1);
      TwoSpans(history, limit, i);
    }
  }

  /** Some reservation follows the one `limit` before it after exactly a minute. */
  ghost predicate TouchesAt(history: seq<int>, limit: nat, i: int) {
    0 <= i && i + limit < |history| && history[i + limit] - history[i] == MINUTE
  }

  lemma OverfullTouches(history: seq<int>, limit: nat, from: int) returns (i: nat)
    requires Sorted(history) && Spaced(history, limit) && limit > 0 && InClosedMinute(history, from) > limit
    ensures TouchesAt(history, limit, i)
  {
    i := WindowIsContiguous(history, from, from + MINUTE + 1);
    assert history[i + limit] - history[i] >= MINUTE;
  }

  /** Every closed minute stays within the limit exactly when that never happens. */
  lemma ClosedWindowsBoundedIff(history: seq<int>, limit: nat)
    requires Sorted(history) && Spaced(history, limit) && limit > 0
    ensures (forall from :: InClosedMinute(history, from) <= limit) <==> forall i :: !TouchesAt(history, limit, i)
  {
    forall from | InClosedMinute(history, from) > limit ensures exists i :: TouchesAt(history, limit, i) {
      var i := OverfullTouches(history, limit, from);
    }
    forall i | TouchesAt(history, limit, i) ensures InClosedMinute(history, history[i]) > limit {
      CountAtLeast(history, history[i], history[i] + MINUTE + 1, i, i + limit + 1);
    }
  }

  // --------------------------------------------------------------- runs of one deque

  /** A deque and every reservation it ever admitted. */
  datatype Ledger = Ledger(queue: seq<int>, history: seq<int>)

  /** One call: prune, and reserve if there is room. */
  function Knock(l: Ledger, now: int, limit: nat): Ledger {
    var queue := Prune(l.queue, now - MINUTE);
    if |queue| < limit then Ledger(queue + [now], l.history + [now]) else Ledger(queue, l.history)
  }

  /** Calls in the order in which they enter the critical section. */
  function Knocks(times: seq<int>, limit: nat): Ledger {
    if times == [] then Ledger([], [])
    else Knock(Knocks(times[..|times| - 1], limit), times[|times| - 1], limit)
  }

  lemma KnockNext(times: seq<int>, now: int, limit: nat)
    ensures Knocks(times + [now], limit) == Knock(Knocks(times, limit), now, limit)
  {
    assert (times + [now])[..|times|] == times;
  }

  /** No call entered with a time more than `slack` before that of an earlier one. */
  ghost predicate StepsBack(times: seq<int>, slack: int) {
    forall i, j :: 0 <= i < j < |times| ==> times[i] - times[j] <= slack
  }

  /** With calls in clock order the deque tracks its history. */
  lemma {:induction false} InOrderTracks(times: seq<int>, limit: nat)
    requires Sorted(times) && limit > 0 && times != []
    ensures Tracks(Knocks(times, limit).queue, Knocks(times, limit).history, times[|times| - 1], limit)
  {
    var n := |times| - 1;
    var before := Knocks(times[..n], limit);
    if n > 0 {
      InOrderTracks(times[..n], limit);
      KnockTracks(before, times[n - 1], limit, times[n]);
    } else {
      KnockTracks(Ledger([], []), times[0], limit, times[0]);
    }
  }

  lemma KnockTracks(l: Ledger, touched: int, limit: nat, now: int)
    requires limit > 0 && Tracks(l.queue, l.history, touched, limit) && touched <= now
    ensures Tracks(Knock(l, now, limit).queue, Knock(l, now, limit).history, now, limit)
  {
    if |Prune(l.queue, now - MINUTE)| < limit {
      ReserveTracks(l.queue, l.history, touched, limit, now);
    } else {
      PruneTracks(l.queue, l.history, touched, limit, now);
    }
  }

  /** Under a limit of one the deque is the last reservation, whatever the clocks. */
  ghost predicate Single(l: Ledger) {
    && Sorted(l.history) && Spaced(l.history, 1)
    && l.queue == if l.history == [] then [] else [l.history[|l.history| - 1]]
  }

  lemma PruneOne(t: int, cutoff: int)
    ensures Prune([t], cutoff) == if t <= cutoff then [] else [t]
  {
  }

  /** Adding a reservation a minute after the last one. */
  lemma SpacedAppends(history: seq<int>, now: int)
    requires Sorted(history) && Spaced(history, 1)
    requires history != [] ==> now - history[|history| - 1] >= MINUTE
    ensures Sorted(history + [now]) && Spaced(history + [now], 1)
  {
    var longer := history + [now];
    forall i, j | 0 <= i && j == i + 1 && j < |longer| ensures longer[j] - longer[i] >= MINUTE {
      if j < |history| { assert history[j] - history[i] >= MINUTE; }
    }
  }

  lemma {:induction false} SingleRuns(times: seq<int>)
    ensures Single(Knocks(times, 1))
  {
    if times != [] {
      var n := |times| - 1;
      var l := Knocks(times[..n], 1);
      SingleRuns(times[..n]);
      if l.history == [] {
        assert Prune([], times[n] - MINUTE) == [];
      } else {
        PruneOne(l.history[|l.history| - 1], times[n] - MINUTE);
      }
      if |Prune(l.queue, times[n] - MINUTE)| < 1 { SpacedAppends(l.history, times[n]); }
    }
  }

  function Repeat(t: int, n: nat): seq<int> { seq(n, _ => t) }

  lemma RepeatGrows(t: int, n: nat)
    ensures Repeat(t, n + 1) == Repeat(t, n) + [t]
  {
  }

  lemma {:induction false} PruneKeeps(queue: seq<int>, cutoff: int)
    requires forall i :: 0 <= i < |queue| ==> queue[i] > cutoff
    ensures Prune(queue, cutoff) == queue
  {
  }

  lemma {:induction false} PruneClears(queue: seq<int>, cutoff: int)
    requires forall i :: 0 <= i < |queue| ==> queue[i] <= cutoff
    ensures Prune(queue, cutoff) == []
  {
    if queue != [] { PruneClears(queue[1..], cutoff); }
  }

  /** A burst at one instant into a deque with nothing recent is admitted up to the limit. */
  lemma {:induction false} Burst(times: seq<int>, t: int, n: nat, limit: nat)
    requires n <= limit
    requires forall i :: 0 <= i < |Knocks(times, limit).queue| ==> Knocks(times, limit).queue[i] <= t - MINUTE
    ensures n > 0 ==> Knocks(times + Repeat(t, n), limit).queue == Repeat(t, n)
    ensures Knocks(times + Repeat(t, n), limit).history == Knocks(times, limit).history + Repeat(t, n)
  {
    if n == 0 {
      assert times + Repeat(t, 0) == times;
    } else {
      var before := times + Repeat(t, n - 1);
      Burst(times, t, n - 1, limit);
      RepeatGrows(t, n - 1);
      assert times + Repeat(t, n) == before + [t];
      KnockNext(before, t, limit);
      if n == 1 {
        assert before == times;
        PruneClears(Knocks(before, limit).queue, t - MINUTE);
        assert [] + [t] == Repeat(t, 1);
      } else {
        PruneKeeps(Repeat(t, n - 1), t - MINUTE);
      }
    }
  }

  lemma {:induction false} CountRepeat(history: seq<int>, t: int, n: nat, from: int, to: int)
    ensures CountIn(history + Repeat(t, n), from, to) == CountIn(history, from, to) + if from <= t < to then n else 0
  {
    if n == 0 {
      assert history + Repeat(t, 0) == history;
    } else {
      CountRepeat(history, t, n - 1, from, to);
      CountStep(history + Repeat(t, n - 1), t, from, to);
      assert history + Repeat(t, n) == history + Repeat(t, n - 1) + [t];
    }
  }

  lemma BurstFromEmpty(t: int, limit: nat)
    requires limit > 0
    ensures Knocks(Repeat(t, limit), limit) == Ledger(Repeat(t, limit), Repeat(t, limit))
  {
    Burst([], t, limit, limit);
    assert [] + Repeat(t, limit) == Repeat(t, limit);
  }

  /** A full minute, then a call of the next minute, then one whose clock was read just
      before it: the deque was already pruned for the later time. */
  function Overrun(limit: nat): seq<int> { Repeat(0, limit) + [MINUTE, MINUTE - 1] }

  lemma OverrunAdmitted(limit: nat)
    requires limit >= 2
    ensures Knocks(Overrun(limit), limit).history == Overrun(limit)
  {
    BurstFromEmpty(0, limit);
    LateAdmitted(Repeat(0, limit), limit);
  }

  lemma LateAdmitted(first: seq<int>, limit: nat)
    requires limit >= 2 && Knocks(first, limit) == Ledger(first, first)
    requires forall i :: 0 <= i < |first| ==> first[i] == 0
    ensures Knocks(first + [MINUTE, MINUTE - 1], limit).history == first + [MINUTE, MINUTE - 1]
  {
    KnockNext(first, MINUTE, limit);
    PruneClears(first, 0);
    KnockNext(first + [MINUTE], MINUTE - 1, limit);
    PruneOne(MINUTE, -1);
    assert [] + [MINUTE] == [MINUTE];
    assert first + [MINUTE, MINUTE - 1] == first + [MINUTE] + [MINUTE - 1];
  }

  lemma CountPair(history: seq<int>, t: int, u: int, from: int, to: int)
    ensures CountIn(history + [t, u], from, to)
            == CountIn(history, from, to) + (if from <= t < to then 1 else 0) + (if from <= u < to then 1 else 0)
  {
    CountStep(history, t, from, to);
    CountStep(history + [t], u, from, to);
    assert history + [t, u] == history + [t] + [u];
  }

  lemma CountOnly(t: int, n: nat, from: int, to: int)
    ensures CountIn(Repeat(t, n), from, to) == if from <= t < to then n else 0
  {
    CountRepeat([], t, n, from, to);
    assert [] + Repeat(t, n) == Repeat(t, n);
  }

  lemma OneTickOverruns(limit: nat)
    requires limit >= 2
    ensures StepsBack(Overrun(limit), 1) && Knocks(Overrun(limit), limit).history == Overrun(limit)
    ensures InMinute(Overrun(limit), 0) == limit + 1
  {
    OverrunAdmitted(limit);
    CountOnly(0, limit, 0, MINUTE);
    CountPair(Repeat(0, limit), MINUTE, MINUTE - 1, 0, MINUTE);
  }

  /** Calls in clock order, all admitted, that put twice the limit into a closed minute. */
  ghost predicate Doubles(times: seq<int>, limit: nat) {
    Sorted(times) && Knocks(times, limit).history == times && InClosedMinute(times, 0) == 2 * limit
  }

  /** There are such calls for every limit. */
  lemma ClosedWindowAttained(limit: nat) returns (times: seq<int>)
    requires limit > 0
    ensures Doubles(times, limit)
  {
    var first := Repeat(0, limit);
    BurstFromEmpty(0, limit);
    CountOnly(0, limit, 0, MINUTE + 1);
    times := Reached(first, limit);
  }

  lemma Reached(first: seq<int>, limit: nat) returns (times: seq<int>)
    requires Knocks(first, limit) == Ledger(first, first) && forall i :: 0 <= i < |first| ==> first[i] == 0
    requires CountIn(first, 0, MINUTE + 1) == limit
    ensures Doubles(times, limit)
  {
    times := first + Repeat(MINUTE, limit);
    BurstAfter(first, MINUTE, limit);
    SortedJoin(first, Repeat(MINUTE, limit), MINUTE);
    CountRepeat(first, MINUTE, limit, 0, MINUTE + 1);
  }

  lemma BurstAfter(first: seq<int>, t: int, limit: nat)
    requires Knocks(first, limit) == Ledger(first, first) && forall i :: 0 <= i < |first| ==> first[i] <= t - MINUTE
    ensures Knocks(first + Repeat(t, limit), limit).history == first + Repeat(t, limit)
  {
    Burst(first, t, limit, limit);
  }

  lemma SortedJoin(a: seq<int>, b: seq<int>, t: int)
    requires Sorted(a) && Sorted(b)
    requires (forall i :: 0 <= i < |a| ==> a[i] <= t) && (forall i :: 0 <= i < |b| ==> t <= b[i])
    ensures Sorted(a + b)
  {
  }

  /** What one deque guarantees under a given disorder of clocks, exactly: under a limit
      of one any disorder is harmless, and under a larger one a single tick is not. */
  lemma MinutesBoundedIff(limit: nat, slack: int)
    requires limit > 0
    ensures (forall times :: StepsBack(times, slack) ==> MinutesBounded(Knocks(times, limit).history, limit))
            <==> limit == 1 || slack <= 0
  {
    if limit == 1 || slack <= 0 {
      forall times | StepsBack(times, slack) ensures MinutesBounded(Knocks(times, limit).history, limit) {
        KnocksBounded(times, limit);
      }
    } else {
      var times := Overrun(limit);
      OneTickOverruns(limit);
      assert StepsBack(times, slack) && InMinute(Knocks(times, limit).history, 0) > limit;
    }
  }

  lemma KnocksBounded(times: seq<int>, limit: nat)
    requires limit == 1 || (limit > 0 && Sorted(times))
    ensures MinutesBounded(Knocks(times, limit).history, limit)
  {
    if limit == 1 {
      SingleRuns(times);
    } else if times != [] {
      InOrderTracks(times, limit);
    }
    SpacedBounded(Knocks(times, limit).history, limit);
  }

  lemma SpacedBounded(history: seq<int>, limit: nat)
    requires Sorted(history) && Spaced(history, limit)
    ensures MinutesBounded(history, limit)
  {
    forall from ensures InMinute(history, from) <= limit { EveryWindowBounded(history, limit, from); }
  }
}
