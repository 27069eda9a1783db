/** Any number of listener processes over one chain, one database, one Kafka topic
    and one dead-letter file. Every action is one effect; a process may fail, lose a
    reply or crash between any two of them. */
module ListenerSystem {
  import opened ChainLog
  import opened ClaimIndex
  import Runs

  datatype Config = Config(start: nat, confirmations: nat, maxRange: Option<nat>)

  /** What the listener leaves behind for one submission. */
  datatype Settlement = Published(log: Log) | Quarantined(log: Log)

  /** Where a process stands inside one block range; `next` is a position in the log. */
  datatype Pc =
    | Between
    | Indexing(next: nat, end: int)
    | Verifying(next: nat, end: int)
    | Publishing(next: nat, end: int)
    | Quarantining(next: nat, end: int)
    | Saving(end: int)

  datatype Task = Idle | Draining(safe: int, local: int, pc: Pc)

  /** `cursor` is the main loop's variable, `local` the drain's own copy of it. */
  datatype Listener = Listener(cursor: int, task: Task)

  datatype World = World(logs: seq<Log>, head: nat, tables: Tables, journal: seq<Settlement>,
                         inflight: set<Log>, listeners: map<nat, Listener>)

  datatype Effect = IndexNext | PublishNext | QuarantineNext | SaveEnd

  datatype Action =
    | Mine(more: seq<Log>, newHead: nat)            // the chain grows
    | Deliver(log: Log)                             // a timed-out message reaches Kafka after all
    | Boot(k: nat)                                  // process start: load the checkpoint
    | Crash(k: nat)
    | Poll(k: nat, latest: nat)                     // read the head, enter the drain
    | Leave(k: nat)                                 // the drain returns: caught up, or asked to stop
    | Fetch(k: nat)                                 // query the next range's logs
    | EndOfRange(k: nat)
    | Verify(k: nat, good: bool)                    // download and hash the bytes
    | Perform(k: nat, effect: Effect, replied: bool)
    | TimeOut(k: nat)                               // publish gave up while the message is queued
    | Fail(k: nat)                                  // an adapter raised before any effect

  predicate FromStart(cfg: Config, logs: seq<Log>) {
    forall i :: 0 <= i < |logs| ==> cfg.start <= logs[i].pos.block
  }

  predicate InBlocks(logs: seq<Log>, above: nat, upTo: nat) {
    forall i :: 0 <= i < |logs| ==> above < logs[i].pos.block <= upTo
  }

  function RangeEnd(cfg: Config, safe: int, local: int): int {
    match cfg.maxRange
    case None => safe
    case Some(r) => if safe <= local + r then safe else local + r
  }

  predicate Active(w: World, k: nat) {
    k in w.listeners && w.listeners[k].task.Draining?
  }

  predicate Ready(w: World, k: nat, effect: Effect) {
    Active(w, k) &&
    var pc := w.listeners[k].task.pc;
    match effect
    case IndexNext => pc.Indexing? && pc.next < CountThrough(w.logs, pc.end)
    case PublishNext => pc.Publishing? && pc.next < |w.logs|
    case QuarantineNext => pc.Quarantining? && pc.next < |w.logs|
    case SaveEnd => pc.Saving? && pc.end >= 0
  }

  predicate Enabled(cfg: Config, w: World, a: Action) {
    match a
    case Mine(more, newHead) =>
      w.head <= newHead && InBlocks(more, w.head, newHead) && Valid(w.logs + more) && FromStart(cfg, more)
    case Deliver(log) => log in w.inflight
    case Boot(_) => true
    case Crash(k) => k in w.listeners
    case Poll(k, latest) => k in w.listeners && w.listeners[k].task.Idle? && latest <= w.head
    case Leave(k) => Active(w, k) && w.listeners[k].task.pc.Between?
    case Fetch(k) =>
      Active(w, k) && w.listeners[k].task.pc.Between? && w.listeners[k].task.local < w.listeners[k].task.safe
    case EndOfRange(k) =>
      Active(w, k) && w.listeners[k].task.pc.Indexing?
      && w.listeners[k].task.pc.next >= CountThrough(w.logs, w.listeners[k].task.pc.end)
    case Verify(k, _) => Active(w, k) && w.listeners[k].task.pc.Verifying?
    case Perform(k, effect, _) => Ready(w, k, effect)
    case TimeOut(k) => Ready(w, k, PublishNext)
    case Fail(k) => Active(w, k)
  }

  function SetPc(w: World, k: nat, pc: Pc): World
    requires Active(w, k)
  {
    var l := w.listeners[k];
    w.(listeners := w.listeners[k := l.(task := l.task.(pc := pc))])
  }

  /** The exception handler of the main loop: the drain's progress is forgotten and
      the loop variable keeps its value from before the drain. */
  function Abort(w: World, k: nat): World
    requires Active(w, k)
  {
    w.(listeners := w.listeners[k := w.listeners[k].(task := Idle)])
  }

  function Apply(w: World, k: nat, effect: Effect): World
    requires Ready(w, k, effect)
    ensures Active(Apply(w, k, effect), k)
            || (effect.IndexNext? && Index(w.tables, w.logs[w.listeners[k].task.pc.next]).None?)
  {
    var task := w.listeners[k].task;
    match effect
    case IndexNext =>
      var log := w.logs[task.pc.next];
      (match Index(w.tables, log)
       case None => Abort(w, k)
       case Some(tables) =>
         SetPc(w, k, if log.body.Submission? then Verifying(task.pc.next, task.pc.end)
                     else Indexing(task.pc.next + 1, task.pc.end)).(tables := tables))
    case PublishNext =>
      SetPc(w, k, Indexing(task.pc.next + 1, task.pc.end))
        .(journal := w.journal + [Published(w.logs[task.pc.next])])
    case QuarantineNext =>
      SetPc(w, k, Indexing(task.pc.next + 1, task.pc.end))
        .(journal := w.journal + [Quarantined(w.logs[task.pc.next])])
    case SaveEnd =>
      w.(tables := SaveCheckpoint(w.tables, task.pc.end),
         listeners := w.listeners[k := w.listeners[k].(task := Draining(task.safe, task.pc.end, Between))])
  }

  function Do(cfg: Config, w: World, a: Action): World
    requires Enabled(cfg, w, a)
  {
    match a
    case Mine(more, newHead) => w.(logs := w.logs + more, head := newHead)
    case Deliver(log) => w.(journal := w.journal + [Published(log)], inflight := w.inflight - {log})
    case Boot(k) =>
      var cursor := if w.tables.checkpoint == None then cfg.start - 1 else w.tables.checkpoint.value;
      w.(listeners := w.listeners[k := Listener(cursor, Idle)])
    case Crash(k) => w.(listeners := w.listeners - {k})
    case Poll(k, latest) =>
      var l := w.listeners[k];
      w.(listeners := w.listeners[k := l.(task := Draining(latest - cfg.confirmations, l.cursor, Between))])
    case Leave(k) => w.(listeners := w.listeners[k := Listener(w.listeners[k].task.local, Idle)])
    case Fetch(k) =>
      var t := w.listeners[k].task;
      SetPc(w, k, Indexing(CountThrough(w.logs, t.local), RangeEnd(cfg, t.safe, t.local)))
    case EndOfRange(k) => SetPc(w, k, Saving(w.listeners[k].task.pc.end))
    case Verify(k, good) =>
      var pc := w.listeners[k].task.pc;
      SetPc(w, k, if good then Publishing(pc.next, pc.end) else Quarantining(pc.next, pc.end))
    case Perform(k, effect, replied) =>
      var w' := Apply(w, k, effect);
      if replied || !Active(w', k) then w' else Abort(w', k)
    case TimeOut(k) =>
      Abort(w, k).(inflight := w.inflight + {w.logs[w.listeners[k].task.pc.next]})
    case Fail(k) => Abort(w, k)
  }

  predicate Initial(cfg: Config, w: World) {
    && (cfg.maxRange.Some? ==> cfg.maxRange.value >= 1)
    && Valid(w.logs) && FromStart(cfg, w.logs)
    && (forall i :: 0 <= i < |w.logs| ==> w.logs[i].pos.block <= w.head)
    && w.tables == EMPTY && w.journal == [] && w.inflight == {} && w.listeners == map[]
  }

  ghost predicate Next(cfg: Config, w: World, w': World) {
    exists a :: Enabled(cfg, w, a) && w' == Do(cfg, w, a)
  }

  ghost function Starts(cfg: Config): World -> bool { w => Initial(cfg, w) }

  ghost function Steps(cfg: Config): (World, World) -> bool { (w, w') => Next(cfg, w, w') }

  ghost predicate Run(cfg: Config, trace: seq<World>) { Runs.Run(Starts(cfg), Steps(cfg), trace) }

  /** The run `trace` ends in `w`. */
  ghost predicate Reachable(cfg: Config, trace: seq<World>, w: World) {
    Run(cfg, trace) && w == trace[|trace| - 1]
  }

  // -------------------------------------------------------------- the invariant

  predicate Settled(journal: seq<Settlement>, log: Log) {
    exists m :: 0 <= m < |journal| && journal[m].log == log
  }

  /** Every submission among the first `n` logs is settled. */
  predicate SettledThrough(logs: seq<Log>, journal: seq<Settlement>, n: nat) {
    n <= |logs| && forall i :: 0 <= i < n && logs[i].body.Submission? ==> Settled(journal, logs[i])
  }

  /** The settlement at `m` is of a submission all of whose predecessors are already settled. */
  predicate InOrder(logs: seq<Log>, journal: seq<Settlement>, m: nat)
    requires m < |journal|
  {
    exists i :: 0 <= i < |logs| && logs[i] == journal[m].log && logs[i].body.Submission?
                && SettledThrough(logs, journal[..m], i)
  }

  predicate Covered(w: World, n: nat) {
    n <= |w.tables.events| && SettledThrough(w.logs, w.journal, n)
  }

  /** A cursor a process may hold: its start value, or at most the saved checkpoint. */
  predicate Reached(cfg: Config, w: World, block: int) {
    match w.tables.checkpoint
    case None => block == cfg.start - 1
    case Some(saved) => cfg.start - 1 <= block <= saved
  }

  predicate PcOk(w: World, t: Task)
    requires t.Draining?
  {
    match t.pc
    case Between => true
    case Indexing(next, end) =>
      t.local < end <= t.safe && next <= CountThrough(w.logs, end) && Covered(w, next)
    case Saving(end) =>
      t.local < end <= t.safe && Covered(w, CountThrough(w.logs, end))
    case _ =>
      && t.local < t.pc.end <= t.safe
      && t.pc.next < CountThrough(w.logs, t.pc.end) && t.pc.next < |w.tables.events|
      && w.logs[t.pc.next].body.Submission?
      && SettledThrough(w.logs, w.journal, t.pc.next)
  }

  predicate ListenerOk(cfg: Config, w: World, l: Listener) {
    && Reached(cfg, w, l.cursor)
    && (l.task.Draining? ==>
          Reached(cfg, w, l.task.local) && l.cursor <= l.task.local && l.task.safe <= w.head && PcOk(w, l.task))
  }

  predicate Queued(w: World, log: Log) {
    exists i :: 0 <= i < |w.logs| && w.logs[i] == log && log.body.Submission?
                && SettledThrough(w.logs, w.journal, i)
  }

  predicate ChainOk(cfg: Config, w: World) {
    && Valid(w.logs) && FromStart(cfg, w.logs)
    && forall i :: 0 <= i < |w.logs| ==> w.logs[i].pos.block <= w.head
  }

  predicate StoresOk(cfg: Config, w: World) {
    && Mirrors(w.tables, w.logs, |w.tables.events|)
    && (forall m :: 0 <= m < |w.journal| ==> InOrder(w.logs, w.journal, m))
    && (forall log :: log in w.inflight ==> Queued(w, log))
    && (w.tables.checkpoint.Some? ==>
          && cfg.start <= w.tables.checkpoint.value <= w.head
          && Covered(w, CountThrough(w.logs, w.tables.checkpoint.value)))
  }

  predicate Inv(cfg: Config, w: World) {
    && (cfg.maxRange.Some? ==> cfg.maxRange.value >= 1)
    && ChainOk(cfg, w)
    && StoresOk(cfg, w)
    && forall k :: k in w.listeners ==> ListenerOk(cfg, w, w.listeners[k])
  }

  /** What every action does to the shared stores. */
  predicate Grows(w: World, w': World) {
    && w.logs <= w'.logs && Valid(w'.logs) && w.head <= w'.head
    && InBlocks(w'.logs[|w.logs|..], w.head, w'.head)
    && w.journal <= w'.journal
    && |w.tables.events| <= |w'.tables.events|
    && (w.tables.checkpoint.Some? ==>
          w'.tables.checkpoint.Some? && w.tables.checkpoint.value <= w'.tables.checkpoint.value)
  }

  lemma CountGrows(w: World, w': World, block: int)
    requires Valid(w.logs) && Grows(w, w') && block <= w.head
    ensures CountThrough(w'.logs, block) == CountThrough(w.logs, block)
  {
    var more := w'.logs[|w.logs|..];
    assert w'.logs == w.logs + more;
    CountThroughStable(w.logs, more, block);
  }

  lemma SettledGrows(logs: seq<Log>, journal: seq<Settlement>, logs': seq<Log>, journal': seq<Settlement>, n: nat)
    requires SettledThrough(logs, journal, n) && logs <= logs' && journal <= journal'
    ensures SettledThrough(logs', journal', n)
  {
    forall i | 0 <= i < n && logs'[i].body.Submission? ensures Settled(journal', logs'[i]) {
      assert Settled(journal, logs[i]);
      var m :| 0 <= m < |journal| && journal[m].log == logs[i];
      assert journal'[m] == journal[m];
    }
  }

  lemma ListenerStaysOk(cfg: Config, w: World, w': World, l: Listener)
    requires ChainOk(cfg, w) && Grows(w, w') && ListenerOk(cfg, w, l)
    requires w'.tables.checkpoint.Some? ==> cfg.start <= w'.tables.checkpoint.value
    ensures ListenerOk(cfg, w', l)
  {
    if l.task.Draining? {
      match l.task.pc {
        case Between =>
        case Saving(end) =>
          CountGrows(w, w', end);
          SettledGrows(w.logs, w.journal, w'.logs, w'.journal, CountThrough(w.logs, end));
        case _ =>
          CountGrows(w, w', l.task.pc.end);
          SettledGrows(w.logs, w.journal, w'.logs, w'.journal, l.task.pc.next);
      }
    }
  }

  lemma OrderStays(w: World, w': World, m: nat)
    requires Grows(w, w') && m < |w.journal| && InOrder(w.logs, w.journal, m)
    ensures InOrder(w'.logs, w'.journal, m)
  {
    var i :| 0 <= i < |w.logs| && w.logs[i] == w.journal[m].log && w.logs[i].body.Submission?
             && SettledThrough(w.logs, w.journal[..m], i);
    SettledGrows(w.logs, w.journal[..m], w'.logs, w'.journal[..m], i);
    assert w'.logs[i] == w.logs[i] && w'.journal[m] == w.journal[m];
  }

  lemma QueuedStays(w: World, w': World, log: Log)
    requires Grows(w, w') && Queued(w, log)
    ensures Queued(w', log)
  {
    var i :| 0 <= i < |w.logs| && w.logs[i] == log && SettledThrough(w.logs, w.journal, i);
    SettledGrows(w.logs, w.journal, w'.logs, w'.journal, i);
    assert w'.logs[i] == log;
  }

  lemma {:induction false} NothingBelowStart(cfg: Config, logs: seq<Log>)
    requires FromStart(cfg, logs)
    ensures CountThrough(logs, cfg.start - 1) == 0
  {
    if logs != [] {
      NothingBelowStart(cfg, logs[..|logs| - 1]);
    }
  }

  /** Whatever holds of a cursor's block holds of the blocks below it. */
  lemma ReachedIsCovered(cfg: Config, w: World, block: int)
    requires ChainOk(cfg, w) && StoresOk(cfg, w) && Reached(cfg, w, block)
    ensures Covered(w, CountThrough(w.logs, block))
  {
    CountThroughIsPrefix(w.logs, block);
    if w.tables.checkpoint.Some? {
      CountThroughMonotone(w.logs, block, w.tables.checkpoint.value);
    } else {
      NothingBelowStart(cfg, w.logs);
    }
  }

  /** Carrying the invariant over an action that keeps the tables and the journal's
      new entries in order: only the acting process remains to be checked. */
  lemma Carry(cfg: Config, w: World, w': World)
    requires Inv(cfg, w) && Grows(w, w') && ChainOk(cfg, w')
    requires Mirrors(w'.tables, w'.logs, |w'.tables.events|)
    requires forall m :: |w.journal| <= m < |w'.journal| ==> InOrder(w'.logs, w'.journal, m)
    requires forall log :: log in w'.inflight && log !in w.inflight ==> Queued(w', log)
    requires w'.tables.checkpoint == w.tables.checkpoint
             || (w'.tables.checkpoint.Some? && cfg.start <= w'.tables.checkpoint.value <= w'.head
                 && Covered(w', CountThrough(w'.logs, w'.tables.checkpoint.value)))
    requires forall k :: k in w'.listeners ==>
               (k in w.listeners && w'.listeners[k] == w.listeners[k]) || ListenerOk(cfg, w', w'.listeners[k])
    ensures Inv(cfg, w')
  {
    forall m | 0 <= m < |w.journal| ensures InOrder(w'.logs, w'.journal, m) { OrderStays(w, w', m); }
    forall log | log in w.inflight ensures Queued(w', log) { QueuedStays(w, w', log); }
    if w.tables.checkpoint.Some? && w'.tables.checkpoint == w.tables.checkpoint {
      var n := CountThrough(w.logs, w.tables.checkpoint.value);
      CountGrows(w, w', w.tables.checkpoint.value);
      SettledGrows(w.logs, w.journal, w'.logs, w'.journal, n);
    }
    forall k | k in w'.listeners ensures ListenerOk(cfg, w', w'.listeners[k]) {
      if k in w.listeners && w'.listeners[k] == w.listeners[k] { ListenerStaysOk(cfg, w, w', w.listeners[k]); }
    }
  }

  lemma GrowsReflexive(w: World, w': World)
    requires Valid(w.logs) && w'.logs == w.logs && w'.head == w.head && w.journal <= w'.journal
    requires |w.tables.events| <= |w'.tables.events|
    requires w.tables.checkpoint.Some? ==>
               w'.tables.checkpoint.Some? && w.tables.checkpoint.value <= w'.tables.checkpoint.value
    ensures Grows(w, w')
  {
    assert w'.logs[|w.logs|..] == [];
  }

  lemma MineKeeps(cfg: Config, w: World, more: seq<Log>, newHead: nat)
    requires Inv(cfg, w) && Enabled(cfg, w, Mine(more, newHead))
    ensures Inv(cfg, Do(cfg, w, Mine(more, newHead)))
    ensures Grows(w, Do(cfg, w, Mine(more, newHead)))
  {
    var w' := Do(cfg, w, Mine(more, newHead));
    var n := |w.tables.events|;
    assert w'.logs[|w.logs|..] == more;
    assert w'.logs[..n] == w.logs[..n];
    assert forall i :: 0 <= i < |w'.logs| ==> w'.logs[i] == if i < |w.logs| then w.logs[i] else more[i - |w.logs|];
    Carry(cfg, w, w');
  }

  lemma DeliverKeeps(cfg: Config, w: World, log: Log)
    requires Inv(cfg, w) && Enabled(cfg, w, Deliver(log))
    ensures Inv(cfg, Do(cfg, w, Deliver(log)))
    ensures Grows(w, Do(cfg, w, Deliver(log)))
  {
    var w' := Do(cfg, w, Deliver(log));
    GrowsReflexive(w, w');
    JournalGainsInOrder(w, w', log);
    Carry(cfg, w, w');
  }

  lemma JournalGainsInOrder(w: World, w': World, log: Log)
    requires Queued(w, log) && w'.logs == w.logs
    requires |w'.journal| == |w.journal| + 1 && w'.journal[..|w.journal|] == w.journal
    requires w'.journal[|w.journal|].log == log
    ensures InOrder(w'.logs, w'.journal, |w.journal|)
  {
    var i :| 0 <= i < |w.logs| && w.logs[i] == log && SettledThrough(w.logs, w.journal, i);
    assert SettledThrough(w'.logs, w'.journal[..|w.journal|], i);
  }

  /** Booting, crashing, polling, leaving, fetching and failing change one process only. */
  lemma ProcessOnly(cfg: Config, w: World, w': World)
    requires Inv(cfg, w) && w' == w.(listeners := w'.listeners)
    requires forall k :: k in w'.listeners ==>
               (k in w.listeners && w'.listeners[k] == w.listeners[k]) || ListenerOk(cfg, w, w'.listeners[k])
    ensures Inv(cfg, w') && Grows(w, w')
  {
    GrowsReflexive(w, w');
    forall k | k in w'.listeners && ListenerOk(cfg, w, w'.listeners[k]) ensures ListenerOk(cfg, w', w'.listeners[k]) {
      ListenerStaysOk(cfg, w, w', w'.listeners[k]);
    }
    Carry(cfg, w, w');
  }

  lemma FetchKeeps(cfg: Config, w: World, k: nat)
    requires Inv(cfg, w) && Enabled(cfg, w, Fetch(k))
    ensures Inv(cfg, Do(cfg, w, Fetch(k))) && Grows(w, Do(cfg, w, Fetch(k)))
  {
    var t := w.listeners[k].task;
    var end := RangeEnd(cfg, t.safe, t.local);
    ReachedIsCovered(cfg, w, t.local);
    CountThroughMonotone(w.logs, t.local, end);
    ProcessOnly(cfg, w, Do(cfg, w, Fetch(k)));
  }

  lemma EndOfRangeKeeps(cfg: Config, w: World, k: nat)
    requires Inv(cfg, w) && Enabled(cfg, w, EndOfRange(k))
    ensures Inv(cfg, Do(cfg, w, EndOfRange(k))) && Grows(w, Do(cfg, w, EndOfRange(k)))
  {
    ProcessOnly(cfg, w, Do(cfg, w, EndOfRange(k)));
  }

  lemma AbortKeeps(cfg: Config, w: World, k: nat)
    requires Inv(cfg, w) && Active(w, k)
    ensures Inv(cfg, Abort(w, k)) && Grows(w, Abort(w, k))
  {
    ProcessOnly(cfg, w, Abort(w, k));
  }

  lemma TimeOutKeeps(cfg: Config, w: World, k: nat)
    requires Inv(cfg, w) && Enabled(cfg, w, TimeOut(k))
    ensures Inv(cfg, Do(cfg, w, TimeOut(k))) && Grows(w, Do(cfg, w, TimeOut(k)))
  {
    var w' := Do(cfg, w, TimeOut(k));
    GrowsReflexive(w, w');
    assert Queued(w', w.logs[w.listeners[k].task.pc.next]);
    assert ListenerOk(cfg, w', w'.listeners[k]);
    Carry(cfg, w, w');
  }

  /** The tables move from one prefix of the log to the same or the next one. */
  lemma IndexedKeeps(cfg: Config, w: World, k: nat, tables: Tables, pc: Pc)
    requires Inv(cfg, w) && Active(w, k) && w.listeners[k].task.pc.Indexing?
    requires w.listeners[k].task.pc.next < CountThrough(w.logs, w.listeners[k].task.pc.end)
    requires Mirrors(tables, w.logs, |tables.events|) && |w.tables.events| <= |tables.events|
    requires tables.checkpoint == w.tables.checkpoint && w.listeners[k].task.pc.next < |tables.events|
    requires var p := w.listeners[k].task.pc;
             pc == if w.logs[p.next].body.Submission? then Verifying(p.next, p.end) else Indexing(p.next + 1, p.end)
    ensures var w' := SetPc(w, k, pc).(tables := tables); Inv(cfg, w') && Grows(w, w')
  {
    var w' := SetPc(w, k, pc).(tables := tables);
    GrowsReflexive(w, w');
    IndexedListenerOk(cfg, w, w', w.listeners[k], pc);
    Carry(cfg, w, w');
  }

  lemma IndexedListenerOk(cfg: Config, w: World, w': World, l: Listener, pc: Pc)
    requires ListenerOk(cfg, w, l) && l.task.Draining? && l.task.pc.Indexing?
    requires w'.logs == w.logs && w'.head == w.head && w'.journal == w.journal
    requires w'.tables.checkpoint == w.tables.checkpoint && |w.tables.events| <= |w'.tables.events| <= |w.logs|
    requires var p := l.task.pc;
             && p.next < CountThrough(w.logs, p.end) && p.next < |w'.tables.events|
             && pc == if w.logs[p.next].body.Submission? then Verifying(p.next, p.end) else Indexing(p.next + 1, p.end)
    ensures ListenerOk(cfg, w', Listener(l.cursor, l.task.(pc := pc)))
  {
  }

  lemma IndexApplies(w: World, k: nat, tables: Tables)
    requires Ready(w, k, IndexNext) && Index(w.tables, w.logs[w.listeners[k].task.pc.next]) == Some(tables)
    ensures var p := w.listeners[k].task.pc;
            Apply(w, k, IndexNext)
            == SetPc(w, k, if w.logs[p.next].body.Submission? then Verifying(p.next, p.end)
                           else Indexing(p.next + 1, p.end)).(tables := tables)
  {
  }

  /** The indexed log is one of the first n + 1, so the upsert cannot fail. */
  lemma IndexKeeps(cfg: Config, w: World, k: nat)
    requires Inv(cfg, w) && Ready(w, k, IndexNext)
    ensures Active(Apply(w, k, IndexNext), k)
    ensures Inv(cfg, Apply(w, k, IndexNext)) && Grows(w, Apply(w, k, IndexNext))
  {
    var p := w.listeners[k].task.pc;
    IndexedCount(w.tables, w.logs, p.next);
    var tables := Index(w.tables, w.logs[p.next]).value;
    IndexApplies(w, k, tables);
    IndexedKeeps(cfg, w, k, tables,
                 if w.logs[p.next].body.Submission? then Verifying(p.next, p.end) else Indexing(p.next + 1, p.end));
  }

  /** The audit table's size says how far the log has been indexed. */
  lemma IndexedCount(t: Tables, logs: seq<Log>, i: nat)
    requires Valid(logs) && i < |logs| && i <= |t.events| && Mirrors(t, logs, |t.events|)
    ensures Index(t, logs[i]).Some?
    ensures var t' := Index(t, logs[i]).value;
            && Mirrors(t', logs, |t'.events|) && t'.checkpoint == t.checkpoint
            && |t'.events| == if i == |t.events| then i + 1 else |t.events|
  {
    var n := |t.events|;
    IndexKeepsMirror(t, logs, n, i);
    if i == n {
      PrefixValid(logs, n + 1);
      AuditSize(logs[..n + 1]);
    }
  }

  lemma NextIsQueued(cfg: Config, w: World, k: nat)
    requires Inv(cfg, w) && Active(w, k)
    requires w.listeners[k].task.pc.Publishing? || w.listeners[k].task.pc.Quarantining?
    ensures w.listeners[k].task.pc.next < |w.logs| && Queued(w, w.logs[w.listeners[k].task.pc.next])
  {
    assert ListenerOk(cfg, w, w.listeners[k]);
  }

  lemma SettleKeeps(cfg: Config, w: World, k: nat, s: Settlement)
    requires Inv(cfg, w) && Active(w, k)
    requires var pc := w.listeners[k].task.pc; pc.Publishing? || pc.Quarantining?
    requires s.log == w.logs[w.listeners[k].task.pc.next]
    ensures var p := w.listeners[k].task.pc;
            var w' := SetPc(w, k, Indexing(p.next + 1, p.end)).(journal := w.journal + [s]);
            Inv(cfg, w') && Grows(w, w')
  {
    var p := w.listeners[k].task.pc;
    SettledCarries(cfg, w, SetPc(w, k, Indexing(p.next + 1, p.end)).(journal := w.journal + [s]), k, s);
  }

  lemma SettledCarries(cfg: Config, w: World, w': World, k: nat, s: Settlement)
    requires Inv(cfg, w) && Active(w, k)
    requires w.listeners[k].task.pc.Publishing? || w.listeners[k].task.pc.Quarantining?
    requires s.log == w.logs[w.listeners[k].task.pc.next]
    requires var l := w.listeners[k];
             var next := Listener(l.cursor, l.task.(pc := Indexing(l.task.pc.next + 1, l.task.pc.end)));
             w' == w.(journal := w.journal + [s], listeners := w.listeners[k := next])
    ensures Inv(cfg, w') && Grows(w, w')
  {
    GrowsReflexive(w, w');
    NextIsQueued(cfg, w, k);
    JournalGainsInOrder(w, w', s.log);
    assert ListenerOk(cfg, w, w.listeners[k]);
    SettledListenerOk(cfg, w, w', w.listeners[k], s);
    Carry(cfg, w, w');
  }

  lemma SettledListenerOk(cfg: Config, w: World, w': World, l: Listener, s: Settlement)
    requires ListenerOk(cfg, w, l) && l.task.Draining? && (l.task.pc.Publishing? || l.task.pc.Quarantining?)
    requires w'.logs == w.logs && w'.head == w.head && w'.tables == w.tables && w'.journal == w.journal + [s]
    requires l.task.pc.next < |w.logs| && s.log == w.logs[l.task.pc.next]
    ensures ListenerOk(cfg, w', Listener(l.cursor, l.task.(pc := Indexing(l.task.pc.next + 1, l.task.pc.end))))
  {
    SettlingExtends(w.logs, w.journal, s, l.task.pc.next);
  }

  lemma SettlingExtends(logs: seq<Log>, journal: seq<Settlement>, s: Settlement, n: nat)
    requires SettledThrough(logs, journal, n) && n < |logs| && s.log == logs[n]
    ensures SettledThrough(logs, journal + [s], n + 1)
  {
    SettledGrows(logs, journal, logs, journal + [s], n);
    assert (journal + [s])[|journal|] == s;
  }

  lemma SaveKeeps(cfg: Config, w: World, k: nat)
    requires Inv(cfg, w) && Ready(w, k, SaveEnd)
    ensures Inv(cfg, Apply(w, k, SaveEnd)) && Grows(w, Apply(w, k, SaveEnd))
  {
    var w' := Apply(w, k, SaveEnd);
    GrowsReflexive(w, w');
    assert ListenerOk(cfg, w', w'.listeners[k]);
    Carry(cfg, w, w');
  }

  lemma SettleNextKeeps(cfg: Config, w: World, k: nat, effect: Effect)
    requires Inv(cfg, w) && Ready(w, k, effect) && (effect.PublishNext? || effect.QuarantineNext?)
    ensures Inv(cfg, Apply(w, k, effect)) && Grows(w, Apply(w, k, effect))
  {
    var log := w.logs[w.listeners[k].task.pc.next];
    SettleKeeps(cfg, w, k, if effect.PublishNext? then Published(log) else Quarantined(log));
  }

  lemma EffectKeeps(cfg: Config, w: World, k: nat, effect: Effect)
    requires Inv(cfg, w) && Ready(w, k, effect)
    ensures Active(Apply(w, k, effect), k)
    ensures Inv(cfg, Apply(w, k, effect)) && Grows(w, Apply(w, k, effect))
  {
    match effect
    case IndexNext => IndexKeeps(cfg, w, k);
    case SaveEnd => SaveKeeps(cfg, w, k);
    case PublishNext => SettleNextKeeps(cfg, w, k, effect);
    case QuarantineNext => SettleNextKeeps(cfg, w, k, effect);
  }

  lemma GrowsTransitive(a: World, b: World, c: World)
    requires Grows(a, b) && Grows(b, c)
    ensures Grows(a, c)
  {
    var x, y := b.logs[|a.logs|..], c.logs[|b.logs|..];
    assert c.logs[|a.logs|..] == x + y;
  }

  lemma ActionKeeps(cfg: Config, w: World, a: Action)
    requires Inv(cfg, w) && Enabled(cfg, w, a)
    ensures Inv(cfg, Do(cfg, w, a)) && Grows(w, Do(cfg, w, a))
  {
    if a.Mine? {
      MineKeeps(cfg, w, a.more, a.newHead);
    } else if a.Deliver? {
      DeliverKeeps(cfg, w, a.log);
    } else if a.TimeOut? {
      TimeOutKeeps(cfg, w, a.k);
    } else if a.Perform? {
      PerformKeeps(cfg, w, a.k, a.effect, a.replied);
    } else if a.Boot? || a.Crash? || a.Poll? {
      ArrivalKeeps(cfg, w, a);
    } else {
      MoveKeeps(cfg, w, a);
    }
  }

  lemma PerformKeeps(cfg: Config, w: World, k: nat, effect: Effect, replied: bool)
    requires Inv(cfg, w) && Ready(w, k, effect)
    ensures var w' := Do(cfg, w, Perform(k, effect, replied)); Inv(cfg, w') && Grows(w, w')
  {
    EffectKeeps(cfg, w, k, effect);
    if !replied {
      AbortKeeps(cfg, Apply(w, k, effect), k);
      GrowsTransitive(w, Apply(w, k, effect), Abort(Apply(w, k, effect), k));
    }
  }

  /** A process starts, dies, or begins a drain. */
  lemma ArrivalKeeps(cfg: Config, w: World, a: Action)
    requires Inv(cfg, w) && Enabled(cfg, w, a) && (a.Boot? || a.Crash? || a.Poll?)
    ensures Inv(cfg, Do(cfg, w, a)) && Grows(w, Do(cfg, w, a))
  {
    ProcessOnly(cfg, w, Do(cfg, w, a));
  }

  /** The moves of a drain that touch nothing but the process itself. */
  lemma MoveKeeps(cfg: Config, w: World, a: Action)
    requires Inv(cfg, w) && Enabled(cfg, w, a)
    requires a.Leave? || a.Fetch? || a.EndOfRange? || a.Verify? || a.Fail?
    ensures Inv(cfg, Do(cfg, w, a)) && Grows(w, Do(cfg, w, a))
  {
    if a.Fetch? {
      FetchKeeps(cfg, w, a.k);
    } else if a.EndOfRange? {
      EndOfRangeKeeps(cfg, w, a.k);
    } else if a.Fail? {
      AbortKeeps(cfg, w, a.k);
    } else {
      ProcessOnly(cfg, w, Do(cfg, w, a));
    }
  }

  lemma NextKeeps(cfg: Config, w: World, w': World)
    requires Inv(cfg, w) && Next(cfg, w, w')
    ensures Inv(cfg, w') && Grows(w, w')
  {
    var a :| Enabled(cfg, w, a) && w' == Do(cfg, w, a);
    ActionKeeps(cfg, w, a);
  }

  lemma InitialInv(cfg: Config, w: World)
    requires Initial(cfg, w)
    ensures Inv(cfg, w)
  {
    assert w.logs[..0] == [];
    assert |w.tables.events| == 0;
  }

  ghost function Holds(cfg: Config): World -> bool { w => Inv(cfg, w) }

  ghost function Order(): (World, World) -> bool { (w, w') => Grows(w, w') }

  lemma InvIsInductive(cfg: Config)
    ensures Runs.Inductive(Starts(cfg), Steps(cfg), Holds(cfg))
  {
    forall w | Initial(cfg, w) ensures Inv(cfg, w) { InitialInv(cfg, w); }
    forall w, w' | Inv(cfg, w) && Next(cfg, w, w') ensures Inv(cfg, w') { NextKeeps(cfg, w, w'); }
  }

  lemma StepsGrow(cfg: Config)
    ensures Runs.Monotone(Steps(cfg), Holds(cfg), Order())
  {
    forall w | Inv(cfg, w) ensures Grows(w, w) { GrowsReflexive(w, w); }
    forall w, w' | Inv(cfg, w) && Next(cfg, w, w') ensures Grows(w, w') { NextKeeps(cfg, w, w'); }
    forall a, b, c | Grows(a, b) && Grows(b, c) ensures Grows(a, c) { GrowsTransitive(a, b, c); }
  }

  lemma RunInv(cfg: Config, trace: seq<World>, n: nat)
    requires Run(cfg, trace) && n < |trace|
    ensures Inv(cfg, trace[n])
  {
    InvIsInductive(cfg);
    Runs.RunKeeps(Starts(cfg), Steps(cfg), Holds(cfg), trace, n);
  }

  lemma RunGrows(cfg: Config, trace: seq<World>, m: nat, n: nat)
    requires Run(cfg, trace) && m <= n < |trace|
    ensures Grows(trace[m], trace[n])
  {
    InvIsInductive(cfg);
    StepsGrow(cfg);
    Runs.RunGrows(Starts(cfg), Steps(cfg), Holds(cfg), Order(), trace, m, n);
  }

  lemma ReachableInv(cfg: Config, trace: seq<World>, w: World)
    requires Reachable(cfg, trace, w)
    ensures Inv(cfg, w)
  {
    RunInv(cfg, trace, |trace| - 1);
  }

  lemma StepExtends(cfg: Config, trace: seq<World>, w: World, a: Action)
    requires Reachable(cfg, trace, w) && Enabled(cfg, w, a)
    ensures Reachable(cfg, trace + [Do(cfg, w, a)], Do(cfg, w, a)) && Grows(w, Do(cfg, w, a))
  {
    ReachableInv(cfg, trace, w);
    ActionKeeps(cfg, w, a);
    assert Next(cfg, w, Do(cfg, w, a));
    Runs.RunExtends(Starts(cfg), Steps(cfg), trace, Do(cfg, w, a));
  }
}
