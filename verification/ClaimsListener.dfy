/** The listener process: range processing, the confirmed-block poller and the retry
    loop of `main`, run against the shared world while other processes interfere. */
module ClaimsListener {
  import opened ChainLog
  import opened ClaimIndex
  import opened ListenerSystem
  import opened ListenerGuarantees

  // ------------------------------------------------- merging the two log queries

  predicate InRange(log: Log, from: int, to: int) { from <= log.pos.block <= to }

  /** `get_logs` for one event type over an inclusive block range. */
  function Query(logs: seq<Log>, submissions: bool, from: int, to: int): seq<Log> {
    if logs == [] then []
    else
      var last := logs[|logs| - 1];
      Query(logs[..|logs| - 1], submissions, from, to)
      + if InRange(last, from, to) && last.body.Submission? == submissions then [last] else []
  }

  function Insert(log: Log, s: seq<Log>): seq<Log> {
    if s == [] || Before(log.pos, s[0].pos) then [log] + s else [s[0]] + Insert(log, s[1..])
  }

  /** `entries.sort(key=(blockNumber, logIndex))`. */
  function Sort(s: seq<Log>): seq<Log> {
    if s == [] then [] else Insert(s[0], Sort(s[1..]))
  }

  lemma {:induction false} SortKeepsElements(s: seq<Log>, log: Log)
    requires log in Sort(s)
    ensures log in s
  {
    if s != [] { InsertKeepsElements(s[0], Sort(s[1..]), log); }
    if s != [] && log in Sort(s[1..]) { SortKeepsElements(s[1..], log); }
  }

  lemma {:induction false} InsertKeepsElements(log: Log, s: seq<Log>, e: Log)
    requires e in Insert(log, s)
    ensures e == log || e in s
  {
    if !(s == [] || Before(log.pos, s[0].pos)) && e != s[0] { InsertKeepsElements(log, s[1..], e); }
  }

  lemma {:induction false} InsertLatest(log: Log, s: seq<Log>)
    requires forall e :: e in s ==> Before(e.pos, log.pos)
    ensures Insert(log, s) == s + [log]
  {
    if s != [] {
      assert Before(s[0].pos, log.pos);
      InsertLatest(log, s[1..]);
    }
  }

  lemma {:induction false} InsertBelow(log: Log, s: seq<Log>, x: Log)
    requires Before(log.pos, x.pos)
    ensures Insert(log, s + [x]) == Insert(log, s) + [x]
  {
    if s == [] {
      assert s + [x] == [x] && (s + [x])[0] == x;
    } else if !Before(log.pos, s[0].pos) {
      InsertBelow(log, s[1..], x);
      assert (s + [x])[1..] == s[1..] + [x];
    }
  }

  /** The latest entry sorts last, wherever the queries put it. */
  lemma {:induction false} SortLatest(a: seq<Log>, x: Log, b: seq<Log>)
    requires forall e :: e in a || e in b ==> Before(e.pos, x.pos)
    ensures Sort(a + [x] + b) == Sort(a + b) + [x]
  {
    if a == [] {
      assert a + [x] + b == [x] + b && ([x] + b)[1..] == b && a + b == b;
      forall e | e in Sort(b) ensures Before(e.pos, x.pos) { SortKeepsElements(b, e); }
      InsertLatest(x, Sort(b));
    } else {
      SortLatest(a[1..], x, b);
      assert (a + [x] + b)[1..] == a[1..] + [x] + b && (a + b)[1..] == a[1..] + b;
      InsertBelow(a[0], Sort(a[1..] + b), x);
    }
  }

  lemma {:induction false} QueryFindsEarlier(logs: seq<Log>, submissions: bool, from: int, to: int, e: Log)
    requires e in Query(logs, submissions, from, to)
    ensures e in logs
  {
    if logs != [] && e in Query(logs[..|logs| - 1], submissions, from, to) {
      QueryFindsEarlier(logs[..|logs| - 1], submissions, from, to, e);
    }
  }

  lemma FullPrefix(logs: seq<Log>, n: nat, block: int)
    requires Valid(logs) && n == |logs| - 1 && logs[n].pos.block <= block
    ensures CountThrough(logs[..n], block) == n
  {
    CountThroughIsPrefix(logs, block);
    if n > 0 { assert logs[..n][n - 1].pos.block <= block by { ChainOrder(logs, n - 1, n); } }
  }

  /** The stretch of the log in an inclusive block range. */
  function Segment(logs: seq<Log>, from: int, to: int): seq<Log>
    requires CountThrough(logs, from - 1) <= CountThrough(logs, to)
  {
    logs[CountThrough(logs, from - 1)..CountThrough(logs, to)]
  }

  lemma SegmentStep(logs: seq<Log>, n: nat, from: int, to: int)
    requires Valid(logs) && n == |logs| - 1 && from <= to + 1
    ensures CountThrough(logs, from - 1) <= CountThrough(logs, to)
    ensures CountThrough(logs[..n], from - 1) <= CountThrough(logs[..n], to)
    ensures Segment(logs, from, to)
         == Segment(logs[..n], from, to) + if InRange(logs[n], from, to) then [logs[n]] else []
  {
    var init := logs[..n];
    CountThroughMonotone(logs, from - 1, to);
    CountThroughMonotone(init, from - 1, to);
    if logs[n].pos.block <= to { FullPrefix(logs, n, to); }
    if logs[n].pos.block < from { FullPrefix(logs, n, from - 1); }
    SliceOfPrefix(logs, n, CountThrough(init, from - 1), CountThrough(init, to));
  }

  lemma SliceOfPrefix(logs: seq<Log>, n: nat, a: nat, b: nat)
    requires a <= b <= n <= |logs|
    ensures logs[..n][a..b] == logs[a..b]
  {
  }

  /** The sorted union of the two queries is the stretch of the log itself. */
  lemma {:induction false} MergedQueriesAreTheLog(logs: seq<Log>, from: int, to: int)
    requires Valid(logs) && from <= to + 1
    ensures CountThrough(logs, from - 1) <= CountThrough(logs, to)
    ensures Sort(Query(logs, true, from, to) + Query(logs, false, from, to)) == Segment(logs, from, to)
  {
    CountThroughMonotone(logs, from - 1, to);
    if logs != [] {
      var n := |logs| - 1;
      var init, last := logs[..n], logs[n];
      MergedQueriesAreTheLog(init, from, to);
      SegmentStep(logs, n, from, to);
      assert logs == init + [last];
      QueriesStep(init, last, from, to);
      if InRange(last, from, to) {
        forall e | e in init ensures Before(e.pos, last.pos) {
          var i :| 0 <= i < n && init[i] == e;
          ChainOrder(logs, i, n);
        }
        SortWithLast(init, last, from, to);
      }
    }
  }

  lemma QueriesStep(init: seq<Log>, last: Log, from: int, to: int)
    ensures !InRange(last, from, to) ==>
              forall b :: Query(init + [last], b, from, to) == Query(init, b, from, to)
    ensures InRange(last, from, to) ==>
              && Query(init + [last], last.body.Submission?, from, to)
                 == Query(init, last.body.Submission?, from, to) + [last]
              && Query(init + [last], !last.body.Submission?, from, to)
                 == Query(init, !last.body.Submission?, from, to)
  {
    assert (init + [last])[..|init|] == init;
  }

  lemma SortWithLast(init: seq<Log>, last: Log, from: int, to: int)
    requires InRange(last, from, to) && forall e :: e in init ==> Before(e.pos, last.pos)
    ensures Sort(Query(init + [last], true, from, to) + Query(init + [last], false, from, to))
         == Sort(Query(init, true, from, to) + Query(init, false, from, to)) + [last]
  {
    var t, f := Query(init, true, from, to), Query(init, false, from, to);
    QueriesStep(init, last, from, to);
    forall e | e in t || e in f ensures Before(e.pos, last.pos) {
      QueryFindsEarlier(init, e in t, from, to, e);
    }
    if last.body.Submission? {
      SortLatest(t, last, f);
    } else {
      SortLatest(t + f, last, []);
      assert t + f + [] == t + f && t + f + [last] + [] == t + (f + [last]);
    }
  }

  lemma {:induction false} QueryIgnoresLaterBlocks(logs: seq<Log>, more: seq<Log>, submissions: bool, from: int, to: int)
    requires forall i :: 0 <= i < |more| ==> more[i].pos.block > to
    ensures Query(logs + more, submissions, from, to) == Query(logs, submissions, from, to)
  {
    if more == [] {
      assert logs + more == logs;
    } else {
      var m := |more| - 1;
      QueryIgnoresLaterBlocks(logs, more[..m], submissions, from, to);
      assert (logs + more)[..|logs| + m] == logs + more[..m];
    }
  }

  lemma QueryStable(w: World, w': World, submissions: bool, from: int, to: int)
    requires Grows(w, w') && to <= w.head
    ensures Query(w'.logs, submissions, from, to) == Query(w.logs, submissions, from, to)
  {
    var more := w'.logs[|w.logs|..];
    assert w'.logs == w.logs + more;
    QueryIgnoresLaterBlocks(w.logs, more, submissions, from, to);
  }

  /** The second query may see a longer log than the first: nothing in the range changes. */
  lemma TwoQueriesAreTheLog(w: World, w': World, from: int, to: int)
    requires Grows(w, w') && Valid(w.logs) && from - 1 <= to <= w.head
    ensures CountThrough(w'.logs, from - 1) == CountThrough(w.logs, from - 1) <= CountThrough(w'.logs, to)
    ensures Sort(Query(w.logs, true, from, to) + Query(w'.logs, false, from, to)) == Segment(w'.logs, from, to)
  {
    QueryStable(w, w', true, from, to);
    CountGrows(w, w', from - 1);
    MergedQueriesAreTheLog(w'.logs, from, to);
  }

  // ------------------------------------------------------------------ the process

  datatype Outcome = Returned | Raised
  datatype Handled = Done | PermanentError | TransientError

  /** The inclusive ranges a drain processed: contiguous from `a + 1` to `b`, none
      longer than the limit, each one full unless it ends at the safe block. */
  ghost predicate Tiles(cfg: Config, ranges: seq<(int, int)>, a: int, b: int, safe: int) {
    if ranges == [] then a == b
    else
      var last := ranges[|ranges| - 1];
      && last.0 <= last.1 == b
      && (cfg.maxRange.Some? ==> last.1 - last.0 + 1 <= cfg.maxRange.value)
      && (b < safe ==> cfg.maxRange.Some? && last.1 - last.0 + 1 == cfg.maxRange.value)
      && Tiles(cfg, ranges[..|ranges| - 1], a, last.0 - 1, safe)
  }

  lemma TilesAppend(cfg: Config, ranges: seq<(int, int)>, a: int, b: int, c: int, safe: int)
    requires Tiles(cfg, ranges, a, b, safe) && b < safe && c == RangeEnd(cfg, safe, b)
    requires cfg.maxRange.Some? ==> cfg.maxRange.value >= 1
    ensures Tiles(cfg, ranges + [(b + 1, c)], a, c, safe)
  {
    var longer := ranges + [(b + 1, c)];
    assert longer[..|ranges|] == ranges;
  }

  /** The process's own task after an effect took place and was acknowledged. */
  function AfterTask(logs: seq<Log>, task: Task, effect: Effect): Task
    requires task.Draining?
    requires effect.IndexNext? ==> task.pc.Indexing? && task.pc.next < |logs|
    requires effect.PublishNext? || effect.QuarantineNext? ==> task.pc.Publishing? || task.pc.Quarantining?
    requires effect.SaveEnd? ==> task.pc.Saving?
  {
    match effect
    case IndexNext =>
      task.(pc := if logs[task.pc.next].body.Submission? then Verifying(task.pc.next, task.pc.end)
                  else Indexing(task.pc.next + 1, task.pc.end))
    case SaveEnd => Draining(task.safe, task.pc.end, Between)
    case _ => task.(pc := Indexing(task.pc.next + 1, task.pc.end))
  }

  /** The latest entry of the journal. */
  predicate JustSettled(journal: seq<Settlement>, journal': seq<Settlement>, s: Settlement) {
    |journal| < |journal'| && journal <= journal' && journal'[|journal'| - 1] == s
  }

  function Settling(log: Log, good: Log -> bool): seq<Settlement> {
    if log.body.Assessment? then [] else [if good(log) then Published(log) else Quarantined(log)]
  }

  /** What an undisturbed listener leaves behind for these logs: each submission in turn,
      published if its bytes are good and quarantined if not. */
  function SettlementsOf(logs: seq<Log>, good: Log -> bool): seq<Settlement> {
    if logs == [] then []
    else
      var last := logs[|logs| - 1];
      SettlementsOf(logs[..|logs| - 1], good) + Settling(last, good)
  }

  lemma SettlementsNext(logs: seq<Log>, last: Log, good: Log -> bool)
    ensures SettlementsOf(logs + [last], good) == SettlementsOf(logs, good) + Settling(last, good)
  {
    assert (logs + [last])[..|logs|] == logs;
  }

  lemma Concat(a: seq<Settlement>, b: seq<Settlement>, c: seq<Settlement>)
    ensures a + b + c == a + (b + c)
  {
  }

  lemma {:induction false} SettlementsJoin(a: seq<Log>, b: seq<Log>, good: Log -> bool)
    ensures SettlementsOf(a + b, good) == SettlementsOf(a, good) + SettlementsOf(b, good)
  {
    if b == [] {
      assert a + b == a;
    } else {
      var init, last := b[..|b| - 1], b[|b| - 1];
      SettlementsJoin(a, init, good);
      SettlementsNext(a + init, last, good);
      SettlementsNext(init, last, good);
      Concat(SettlementsOf(a, good), SettlementsOf(init, good), Settling(last, good));
      assert b == init + [last] && a + b == a + init + [last];
    }
  }

  /** Nothing happened but these settlements and the listener's own progress. */
  predicate Calm(w: World, w': World, gained: seq<Settlement>) {
    w'.logs == w.logs && w'.head == w.head && w'.inflight == w.inflight && w'.journal == w.journal + gained
  }

  lemma CalmTwice(w: World, w': World, w'': World, a: seq<Settlement>, b: seq<Settlement>)
    requires Calm(w, w', a) && Calm(w', w'', b)
    ensures Calm(w, w'', a + b)
  {
    assert w.journal + a + b == w.journal + (a + b);
  }

  /** Exactly the submissions of the blocks after `a` up to `b` were settled. */
  predicate Drained(w: World, w': World, a: int, b: int, good: Log -> bool) {
    CountThrough(w.logs, a) <= CountThrough(w.logs, b)
    && Calm(w, w', SettlementsOf(w.logs[CountThrough(w.logs, a)..CountThrough(w.logs, b)], good))
  }

  lemma NothingDrained(w: World, a: int, good: Log -> bool)
    ensures Drained(w, w, a, a, good)
  {
    assert w.logs[CountThrough(w.logs, a)..CountThrough(w.logs, a)] == [];
  }

  lemma SlicesJoin(logs: seq<Log>, i: nat, j: nat, n: nat)
    requires i <= j <= n <= |logs|
    ensures logs[i..j] + logs[j..n] == logs[i..n]
  {
  }

  lemma DrainedOn(w0: World, w1: World, w2: World, a: int, b: int, c: int, good: Log -> bool)
    requires Drained(w0, w1, a, b, good) && Drained(w1, w2, b, c, good)
    ensures Drained(w0, w2, a, c, good)
  {
    var i, j, n := CountThrough(w0.logs, a), CountThrough(w0.logs, b), CountThrough(w0.logs, c);
    SlicesJoin(w0.logs, i, j, n);
    SettlementsJoin(w0.logs[i..j], w0.logs[j..n], good);
    CalmTwice(w0, w1, w2, SettlementsOf(w0.logs[i..j], good), SettlementsOf(w0.logs[j..n], good));
  }

  lemma EntriesDrained(w0: World, w1: World, w2: World, w3: World, entries: seq<Log>, from: int, to: int,
                       good: Log -> bool)
    requires CountThrough(w1.logs, from - 1) <= CountThrough(w1.logs, to) && entries == Segment(w1.logs, from, to)
    requires Calm(w0, w1, []) && Calm(w1, w2, SettlementsOf(entries, good)) && Calm(w2, w3, [])
    ensures Drained(w0, w3, from - 1, to, good)
  {
  }

  class ListenerProcess {
    const cfg: Config
    const k: nat
    var world: World
    var lastProcessed: int

    ghost var trace: seq<World>

    /** Everything done so far, here and by the other processes, is a run of the system. */
    ghost predicate Valid()
      reads this
    {
      Reachable(cfg, trace, world)
    }

    constructor (cfg: Config, k: nat, world: World)
      requires Initial(cfg, world)
      ensures Valid() && this.cfg == cfg && this.k == k && this.world == world
    {
      this.cfg, this.k, this.world := cfg, k, world;
      this.lastProcessed := 0;
      this.trace := [world];
    }

    /** This process takes one step. */
    method Step(a: Action)
      requires Valid() && Enabled(cfg, world, a)
      modifies this`world, this`trace
      ensures Valid() && world == Do(cfg, old(world), a) && old(trace) <= trace
    {
      StepExtends(cfg, trace, world, a);
      world := Do(cfg, world, a);
      trace := trace + [world];
    }

    /** The other processes, the broker and the chain take any number of steps: unless the
        run is quiet, a caller knows no more of the world afterwards than this contract says. */
    method Others(quiet: bool)
      requires Valid()
      modifies this`world, this`trace
      ensures Valid() && old(trace) <= trace && Grows(old(world), world)
      ensures (k in world.listeners) == (k in old(world).listeners)
      ensures k in world.listeners ==> world.listeners[k] == old(world).listeners[k]
      ensures quiet ==> world == old(world)
    {
      ReachableInv(cfg, trace, world);
      GrowsReflexive(world, world);
    }

    /** Whatever happened since an earlier point of the run, the stores only grew. */
    lemma Since(run: seq<World>, w: World)
      requires Valid() && Reachable(cfg, run, w) && run <= trace
      ensures Grows(w, world)
    {
      RunGrows(cfg, trace, |run| - 1, |trace| - 1);
    }

    /** An exception leaves the drain: the loop variable keeps its value. */
    ghost predicate Stopped(cursor: int)
      reads this
    {
      k in world.listeners && world.listeners[k] == Listener(cursor, Idle)
    }

    ghost predicate At(cursor: int, task: Task)
      reads this
    {
      k in world.listeners && world.listeners[k] == Listener(cursor, task)
    }

    /** Interference cannot take away a pending effect, or change what it does. */
    lemma ReadyStays(run: seq<World>, w: World, w': World, effect: Effect)
      requires Reachable(cfg, run, w) && Grows(w, w') && Ready(w, k, effect)
      requires k in w'.listeners && w'.listeners[k] == w.listeners[k]
      ensures Ready(w', k, effect)
      ensures w.logs <= w'.logs
    {
      ReachableInv(cfg, run, w);
      if effect.IndexNext? { CountGrows(w, w', w.listeners[k].task.pc.end); }
    }

    lemma EffectResult(run: seq<World>, w: World, effect: Effect, replied: bool)
      requires Reachable(cfg, run, w) && Ready(w, k, effect)
      ensures var l := w.listeners[k];
              var w' := Do(cfg, w, Perform(k, effect, replied));
              && k in w'.listeners
              && w'.listeners[k] == Listener(l.cursor, if replied then AfterTask(w.logs, l.task, effect) else Idle)
              && (effect.SaveEnd? ==> w'.tables.checkpoint.Some? && w'.tables.checkpoint.value >= l.task.pc.end)
    {
      EffectApplies(run, w, effect);
      Performed(w, effect, replied);
    }

    lemma EffectApplies(run: seq<World>, w: World, effect: Effect)
      requires Reachable(cfg, run, w) && Ready(w, k, effect)
      ensures Active(Apply(w, k, effect), k)
    {
      ReachableInv(cfg, run, w);
      EffectKeeps(cfg, w, k, effect);
    }

    lemma Performed(w: World, effect: Effect, replied: bool)
      requires Ready(w, k, effect) && Active(Apply(w, k, effect), k)
      ensures var l := w.listeners[k];
              var w' := Do(cfg, w, Perform(k, effect, replied));
              && k in w'.listeners
              && w'.listeners[k] == Listener(l.cursor, if replied then AfterTask(w.logs, l.task, effect) else Idle)
              && (effect.SaveEnd? ==> w'.tables.checkpoint.Some? && w'.tables.checkpoint.value >= l.task.pc.end)
    {
    }

    lemma PerformedCalmly(w: World, effect: Effect)
      requires Ready(w, k, effect) && Active(Apply(w, k, effect), k)
      ensures var w' := Do(cfg, w, Perform(k, effect, true));
              Calm(w, w', if effect.PublishNext? then [Published(w.logs[w.listeners[k].task.pc.next])]
                          else if effect.QuarantineNext? then [Quarantined(w.logs[w.listeners[k].task.pc.next])]
                          else [])
    {
    }

    /** What the invariant says about this process's own range. */
    lemma RangeKnown(run: seq<World>, w: World)
      requires Reachable(cfg, run, w) && Active(w, k)
      ensures ChainLog.Valid(w.logs) && w.listeners[k].task.safe <= w.head && cfg.start - 1 <= w.listeners[k].task.local
      ensures cfg.maxRange.Some? ==> cfg.maxRange.value >= 1
      ensures var t := w.listeners[k].task;
              match t.pc
              case Between => true
              case Saving(end) => t.local < end <= w.head
              case Indexing(next, end) => t.local < end <= w.head
              case _ => t.local < t.pc.end <= w.head && t.pc.next < |w.logs|
    {
      ReachableInv(cfg, run, w);
    }

    method Survives(quiet: bool) returns (ok: bool)
      ensures quiet ==> ok
    {
      ok := *;
      ok := ok || quiet;
    }

    /** One external effect: it may fail before taking place, take place with the
        reply lost, or succeed. */
    method Attempt(quiet: bool, effect: Effect) returns (ok: bool)
      requires Valid() && Ready(world, k, effect)
      modifies this`world, this`trace
      ensures Valid() && old(trace) <= trace
      ensures !ok ==> Stopped(old(world).listeners[k].cursor)
      ensures ok ==> At(old(world).listeners[k].cursor,
                        AfterTask(old(world).logs, old(world).listeners[k].task, effect))
      ensures ok && effect.SaveEnd? ==>
                world.tables.checkpoint.Some? && world.tables.checkpoint.value >= old(world).listeners[k].task.pc.end
      ensures old(world).journal <= world.journal && old(world).logs <= world.logs
      ensures ok && (effect.PublishNext? || effect.QuarantineNext?) ==>
                var log := old(world).logs[old(world).listeners[k].task.pc.next];
                JustSettled(old(world).journal, world.journal,
                            if effect.PublishNext? then Published(log) else Quarantined(log))
      ensures quiet ==>
                ok && Calm(old(world), world,
                           if effect.PublishNext? then [Published(old(world).logs[old(world).listeners[k].task.pc.next])]
                           else if effect.QuarantineNext?
                             then [Quarantined(old(world).logs[old(world).listeners[k].task.pc.next])]
                           else [])
    {
      ghost var w0, run := world, trace;
      Others(quiet);
      ghost var w1 := world;
      ReadyStays(run, w0, w1, effect);
      var begun := Survives(quiet);
      if !begun {
        Step(Fail(k));
        return false;
      }
      var replied := Survives(quiet);
      EffectResult(trace, w1, effect, replied);
      EffectApplies(trace, w1, effect);
      PerformedCalmly(w1, effect);
      Step(Perform(k, effect, replied));
      return replied;
    }

    /** `_verified_payload`: bytes that hash to the logged value, a permanent defect,
        or a gateway failure worth retrying. An undisturbed download finds them `good` or not. */
    method VerifiedPayload(quiet: bool, good: bool) returns (r: Handled)
      requires Valid() && Active(world, k) && world.listeners[k].task.pc.Verifying?
      modifies this`world, this`trace
      ensures Valid() && old(trace) <= trace
      ensures var l := old(world).listeners[k];
              var pc := l.task.pc;
              match r
              case Done => At(l.cursor, l.task.(pc := Publishing(pc.next, pc.end)))
              case PermanentError => At(l.cursor, l.task.(pc := Quarantining(pc.next, pc.end)))
              case TransientError => Stopped(l.cursor)
      ensures world.journal == old(world).journal && world.logs == old(world).logs
      ensures quiet ==> Calm(old(world), world, []) && r == if good then Done else PermanentError
    {
      r := *;
      if quiet {
        r := if good then Done else PermanentError;
      }
      if r == TransientError {
        Step(Fail(k));
      } else {
        Step(Verify(k, r == Done));
      }
    }

    /** `publish`: acknowledged, refused, or given up on while still queued. */
    method Publish(quiet: bool) returns (ok: bool, timedOut: bool)
      requires Valid() && Ready(world, k, PublishNext)
      modifies this`world, this`trace
      ensures Valid() && old(trace) <= trace
      ensures !ok ==> Stopped(old(world).listeners[k].cursor)
      ensures ok ==> At(old(world).listeners[k].cursor,
                        AfterTask(old(world).logs, old(world).listeners[k].task, PublishNext))
      ensures old(world).journal <= world.journal && old(world).logs <= world.logs
      ensures ok ==> JustSettled(old(world).journal, world.journal,
                                 Published(old(world).logs[old(world).listeners[k].task.pc.next]))
      ensures timedOut ==> !ok && old(world).logs[old(world).listeners[k].task.pc.next] in world.inflight
      ensures quiet ==>
                ok && Calm(old(world), world, [Published(old(world).logs[old(world).listeners[k].task.pc.next])])
    {
      var inTime := Survives(quiet);
      timedOut := !inTime;
      if timedOut {
        Step(TimeOut(k));
        return false, true;
      }
      ok := Attempt(quiet, PublishNext);
    }

    /** `_handle_claim_submitted`: project, verify, publish, in that order. */
    method HandleClaimSubmitted(quiet: bool, good: bool) returns (r: Handled)
      requires Valid() && Ready(world, k, IndexNext)
      requires world.logs[world.listeners[k].task.pc.next].body.Submission?
      modifies this`world, this`trace
      ensures Valid() && old(trace) <= trace
      ensures var l := old(world).listeners[k];
              var pc := l.task.pc;
              match r
              case Done => At(l.cursor, l.task.(pc := Indexing(pc.next + 1, pc.end)))
              case PermanentError => At(l.cursor, l.task.(pc := Quarantining(pc.next, pc.end)))
              case TransientError => Stopped(l.cursor)
      ensures old(world).journal <= world.journal && old(world).logs <= world.logs
      ensures r.Done? ==> JustSettled(old(world).journal, world.journal,
                                      Published(old(world).logs[old(world).listeners[k].task.pc.next]))
      ensures quiet ==>
                r == (if good then Done else PermanentError)
                && Calm(old(world), world,
                        if good then [Published(old(world).logs[old(world).listeners[k].task.pc.next])] else [])
    {
      var indexed := Attempt(quiet, IndexNext);
      if !indexed {
        return TransientError;
      }
      r := VerifiedPayload(quiet, good);
      if r != Done {
        return;
      }
      RangeKnown(trace, world);
      var published, _ := Publish(quiet);
      r := if published then Done else TransientError;
    }

    method HandleClaimAssessed(quiet: bool) returns (r: Handled)
      requires Valid() && Ready(world, k, IndexNext)
      requires world.logs[world.listeners[k].task.pc.next].body.Assessment?
      modifies this`world, this`trace
      ensures Valid() && old(trace) <= trace
      ensures var l := old(world).listeners[k];
              var pc := l.task.pc;
              match r
              case Done => At(l.cursor, l.task.(pc := Indexing(pc.next + 1, pc.end)))
              case PermanentError => false
              case TransientError => Stopped(l.cursor)
      ensures quiet ==> r.Done? && Calm(old(world), world, [])
    {
      var indexed := Attempt(quiet, IndexNext);
      r := if indexed then Done else TransientError;
    }

    /** One log: dispatch on its type and quarantine a permanent defect. What was handled
        is the last thing in Kafka, or what was permanently bad the last dead letter. */
    method ProcessEntry(quiet: bool, good: Log -> bool) returns (ok: bool, handled: Handled)
      requires Valid() && Ready(world, k, IndexNext)
      modifies this`world, this`trace
      ensures Valid() && old(trace) <= trace
      ensures var l := old(world).listeners[k];
              if ok then At(l.cursor, l.task.(pc := Indexing(l.task.pc.next + 1, l.task.pc.end)))
              else Stopped(l.cursor)
      ensures ok ==>
                var log := old(world).logs[old(world).listeners[k].task.pc.next];
                match handled
                case Done =>
                  log.body.Submission? ==> JustSettled(old(world).journal, world.journal, Published(log))
                case PermanentError =>
                  log.body.Submission? && JustSettled(old(world).journal, world.journal, Quarantined(log))
                case TransientError => false
      ensures quiet ==>
                var log := old(world).logs[old(world).listeners[k].task.pc.next];
                ok && Calm(old(world), world, Settling(log, good))
    {
      var event := world.logs[world.listeners[k].task.pc.next];
      if event.body.Submission? {
        handled := HandleClaimSubmitted(quiet, good(event));
      } else {
        handled := HandleClaimAssessed(quiet);
      }
      if handled == PermanentError {
        RangeKnown(trace, world);
        ok := Attempt(quiet, QuarantineNext);
      } else {
        ok := handled == Done;
      }
    }

    /** The two log queries of a range, merged and sorted in place. */
    method FetchEntries(quiet: bool, from: int, to: int) returns (ok: bool, entries: seq<Log>)
      requires Valid() && Enabled(cfg, world, Fetch(k))
      requires from == world.listeners[k].task.local + 1
      requires to == RangeEnd(cfg, world.listeners[k].task.safe, world.listeners[k].task.local)
      modifies this`world, this`trace
      ensures Valid() && old(trace) <= trace
      ensures !ok ==> Stopped(old(world).listeners[k].cursor)
      ensures ok ==>
                var l := old(world).listeners[k];
                && At(l.cursor, l.task.(pc := Indexing(CountThrough(world.logs, from - 1), to)))
                && CountThrough(world.logs, from - 1) <= CountThrough(world.logs, to)
                && entries == Segment(world.logs, from, to)
      ensures quiet ==> ok && Calm(old(world), world, [])
    {
      Step(Fetch(k));
      RangeKnown(trace, world);
      ghost var w1 := world;
      var answered := Survives(quiet);
      if !answered {
        Step(Fail(k));
        return false, [];
      }
      entries := Query(world.logs, true, from, to);
      Others(quiet);
      entries := entries + Query(world.logs, false, from, to);
      entries := Sort(entries);
      TwoQueriesAreTheLog(w1, world, from, to);
      ok := true;
    }

    /** The loop over the entries, which are the log itself from `base` on. */
    method ProcessEntries(quiet: bool, good: Log -> bool, entries: seq<Log>, ghost base: nat, to: int) returns (ok: bool)
      requires Valid() && Active(world, k)
      requires world.listeners[k].task.pc == Indexing(base, to)
      requires base <= CountThrough(world.logs, to) && entries == world.logs[base..CountThrough(world.logs, to)]
      modifies this`world, this`trace
      ensures Valid() && old(trace) <= trace
      ensures var l := old(world).listeners[k];
              if ok then
                && At(l.cursor, l.task.(pc := Indexing(base + |entries|, to)))
                && CountThrough(world.logs, to) == base + |entries|
              else Stopped(l.cursor)
      ensures quiet ==> ok && Calm(old(world), world, SettlementsOf(entries, good))
    {
      ghost var run, w0, l := trace, world, world.listeners[k];
      EndIsSealed(to);
      for i := 0 to |entries|
        invariant Valid() && old(trace) <= trace
        invariant At(l.cursor, l.task.(pc := Indexing(base + i, to)))
        invariant quiet ==> Calm(w0, world, SettlementsOf(entries[..i], good))
      {
        EntryReady(run, w0, base, i, entries, to);
        ghost var w1 := world;
        var handled;
        ok, handled := ProcessEntry(quiet, good);
        if !ok {
          return;
        }
        EntrySettled(quiet, w0, w1, world, entries, i, good);
      }
      CountKept(run, w0, to);
      assert entries[..|entries|] == entries;
      ok := true;
    }

    lemma EndIsSealed(to: int)
      requires Valid() && Active(world, k) && world.listeners[k].task.pc.Indexing? && world.listeners[k].task.pc.end == to
      ensures to <= world.head
    {
      RangeKnown(trace, world);
    }

    lemma CountKept(run: seq<World>, w: World, to: int)
      requires Valid() && Reachable(cfg, run, w) && run <= trace && to <= w.head
      ensures CountThrough(world.logs, to) == CountThrough(w.logs, to)
    {
      ReachableInv(cfg, run, w);
      Since(run, w);
      CountGrows(w, world, to);
    }

    /** The log has only grown since the entries were read. */
    lemma EntryReady(run: seq<World>, w: World, base: nat, i: nat, entries: seq<Log>, to: int)
      requires Valid() && Reachable(cfg, run, w) && run <= trace && to <= w.head && i < |entries|
      requires base <= CountThrough(w.logs, to) && entries == w.logs[base..CountThrough(w.logs, to)]
      requires Active(world, k) && world.listeners[k].task.pc == Indexing(base + i, to)
      ensures Ready(world, k, IndexNext) && base + i < |world.logs| && world.logs[base + i] == entries[i]
    {
      CountKept(run, w, to);
      Since(run, w);
      assert w.logs[base + i] == world.logs[base + i];
    }

    lemma EntrySettled(quiet: bool, w0: World, w1: World, w2: World, entries: seq<Log>, i: nat, good: Log -> bool)
      requires i < |entries|
      requires quiet ==> Calm(w0, w1, SettlementsOf(entries[..i], good)) && Calm(w1, w2, Settling(entries[i], good))
      ensures quiet ==> Calm(w0, w2, SettlementsOf(entries[..i + 1], good))
    {
      assert entries[..i + 1][..i] == entries[..i];
      if quiet { CalmTwice(w0, w1, w2, SettlementsOf(entries[..i], good), Settling(entries[i], good)); }
    }

    /** `process_range`: every watched log of the inclusive range, in chain order. */
    method ProcessRange(quiet: bool, good: Log -> bool, from: int, to: int) returns (r: Outcome)
      requires Valid() && Enabled(cfg, world, Fetch(k))
      requires from == world.listeners[k].task.local + 1
      requires to == RangeEnd(cfg, world.listeners[k].task.safe, world.listeners[k].task.local)
      modifies this`world, this`trace
      ensures Valid() && old(trace) <= trace
      ensures var l := old(world).listeners[k];
              if r.Returned? then At(l.cursor, l.task.(pc := Saving(to))) else Stopped(l.cursor)
      ensures quiet ==>
                r.Returned? && Drained(old(world), world, from - 1, to, good)
    {
      var ok, entries := FetchEntries(quiet, from, to);
      ghost var w1 := world;
      if ok {
        ok := ProcessEntries(quiet, good, entries, CountThrough(world.logs, from - 1), to);
      }
      if !ok {
        return Raised;
      }
      ghost var w2 := world;
      Step(EndOfRange(k));
      if quiet { EntriesDrained(old(world), w1, w2, world, entries, from, to, good); }
      r := Returned;
    }

    /** `process_latest`: at most one range, its end saved only after all its logs. */
    method ProcessLatest(quiet: bool, good: Log -> bool, latest: nat, last: int) returns (r: Outcome, end: int)
      requires Valid() && Active(world, k)
      requires world.listeners[k].task == Draining(latest - cfg.confirmations, last, Between)
      modifies this`world, this`trace
      ensures Valid() && old(trace) <= trace
      ensures var l, safe := old(world).listeners[k], latest - cfg.confirmations;
              match r
              case Raised => Stopped(l.cursor)
              case Returned =>
                && end == (if safe <= last then last else RangeEnd(cfg, safe, last))
                && At(l.cursor, Draining(safe, end, Between))
                && (last < safe ==> world.tables.checkpoint.Some? && world.tables.checkpoint.value >= end)
      ensures quiet ==> r.Returned?
      ensures quiet && last < latest - cfg.confirmations ==>
                Drained(old(world), world, last, end, good)
      ensures quiet && latest - cfg.confirmations <= last ==> world == old(world)
    {
      var safe := latest - cfg.confirmations;
      if safe <= last {
        return Returned, last;
      }
      end := safe;
      if cfg.maxRange.Some? && last + cfg.maxRange.value < end {
        end := last + cfg.maxRange.value;
      }
      r := ProcessRange(quiet, good, last + 1, end);
      if r == Raised {
        return;
      }
      RangeKnown(trace, world);
      var saved := Attempt(quiet, SaveEnd);
      r := if saved then Returned else Raised;
    }

    lemma LimitPositive()
      requires Valid()
      ensures cfg.maxRange.Some? ==> cfg.maxRange.value >= 1
    {
      ReachableInv(cfg, trace, world);
    }

    /** `process_to_safe_head`: bounded ranges back to back until the safe block, a
        failure, or a request to stop. */
    method ProcessToSafeHead(quiet: bool, good: Log -> bool, latest: nat, last: int)
      returns (r: Outcome, reached: int, stopped: bool, ghost ranges: seq<(int, int)>)
      requires Valid() && Active(world, k)
      requires world.listeners[k].task == Draining(latest - cfg.confirmations, last, Between)
      modifies this`world, this`trace
      ensures Valid() && old(trace) <= trace
      ensures r.Raised? ==> Stopped(old(world).listeners[k].cursor)
      ensures r.Returned? ==> At(old(world).listeners[k].cursor, Draining(latest - cfg.confirmations, reached, Between))
      ensures r.Returned? ==> Tiles(cfg, ranges, last, reached, latest - cfg.confirmations)
      ensures r.Returned? && !stopped && last < latest - cfg.confirmations ==> reached == latest - cfg.confirmations
      ensures r.Returned? && latest - cfg.confirmations <= last ==> reached == last && ranges == []
      ensures quiet ==>
                r.Returned? && !stopped && Drained(old(world), world, last, reached, good)
      ensures r.Returned? && last < reached ==>
                world.tables.checkpoint.Some? && reached <= world.tables.checkpoint.value
    {
      NothingDrained(world, last, good);
      var safe := latest - cfg.confirmations;
      reached, stopped, ranges := last, false, [];
      while reached < safe
        invariant Valid() && old(trace) <= trace
        invariant At(old(world).listeners[k].cursor, Draining(safe, reached, Between))
        invariant Tiles(cfg, ranges, last, reached, safe)
        invariant last < safe ==> reached <= safe
        invariant safe <= last ==> reached == last && ranges == []
        invariant quiet ==> Drained(old(world), world, last, reached, good)
        invariant last < reached ==> world.tables.checkpoint.Some? && reached <= world.tables.checkpoint.value
      {
        var asked := Survives(quiet);
        if !asked {
          stopped := true;
          break;
        }
        LimitPositive();
        var end;
        ghost var w1 := world;
        r, end := ProcessLatest(quiet, good, latest, reached);
        if r == Raised {
          return;
        }
        if quiet { DrainedOn(old(world), w1, world, last, reached, end, good); }
        TilesAppend(cfg, ranges, last, reached, end, safe);
        ranges := ranges + [(reached + 1, end)];
        reached := end;
      }
      r := Returned;
    }

    /** Process start: load the checkpoint, or begin one block before the replay origin. */
    method Boot()
      requires Valid()
      modifies this
      ensures Valid() && old(trace) <= trace && Stopped(lastProcessed)
      ensures world.tables.checkpoint.Some? ==> lastProcessed == world.tables.checkpoint.value
      ensures world.tables.checkpoint.None? ==> lastProcessed == cfg.start - 1
    {
      lastProcessed := if world.tables.checkpoint == None then cfg.start - 1 else world.tables.checkpoint.value;
      Step(ListenerSystem.Action.Boot(k));
    }

    /** One turn of the retry loop. After a failure of any kind the loop variable is what
        it was, whatever the drain had saved, so the next turn replays. An undisturbed turn
        reaches the safe block and settles exactly the submissions up to it, in chain order. */
    method Poll(quiet: bool, good: Log -> bool) returns (r: Outcome, latest: nat, ghost ranges: seq<(int, int)>)
      requires Valid() && Stopped(lastProcessed)
      modifies this
      ensures Valid() && old(trace) <= trace && Stopped(lastProcessed)
      ensures r.Raised? ==> lastProcessed == old(lastProcessed)
      ensures r.Returned? ==> old(lastProcessed) <= lastProcessed
      ensures r.Returned? ==> Tiles(cfg, ranges, old(lastProcessed), lastProcessed, latest - cfg.confirmations)
      ensures quiet ==>
                var safe := old(world).head - cfg.confirmations;
                && r.Returned? && lastProcessed == (if safe <= old(lastProcessed) then old(lastProcessed) else safe)
                && Drained(old(world), world, old(lastProcessed), lastProcessed, good)
      ensures r.Returned? && old(lastProcessed) < lastProcessed ==>
                world.tables.checkpoint.Some? && lastProcessed <= world.tables.checkpoint.value
    {
      Others(quiet);
      latest, ranges := *, [];
      if quiet {
        latest := world.head;
      }
      if latest > world.head {
        return Raised, latest, [];
      }
      Step(ListenerSystem.Action.Poll(k, latest));
      var reached, stopped;
      r, reached, stopped, ranges := ProcessToSafeHead(quiet, good, latest, lastProcessed);
      if r == Returned {
        ReachableInv(cfg, trace, world);
        Step(Leave(k));
        lastProcessed := reached;
      }
    }

    /** `main`, for as many polls as come before the shutdown signal. */
    method RunUntilShutdown(polls: nat)
      requires Valid()
      modifies this
      ensures Valid() && old(trace) <= trace && Stopped(lastProcessed)
    {
      Boot();
      for i := 0 to polls
        invariant Valid() && old(trace) <= trace && Stopped(lastProcessed)
      {
        var good: Log -> bool := *;
        var _, _, _ := Poll(false, good);
      }
    }
  }
}
