/** The whole pipeline: any number of listeners and one scoring worker per Kafka
    partition, joined by the chain they all read and the topic between them. */
module Pipeline {
  import opened ChainLog
  import opened ClaimIndex
  import L = ListenerSystem
  import W = ScoringSystem
  import Runs

  /** `partitioner` is Kafka's: any function of the message key, which names the claim. */
  datatype Setup = Setup(cfg: L.Config, partitions: nat, partitioner: (nat, nat) -> nat)

  /** `unsealed` holds the logs of blocks above the head the listeners can see; the
      workers act on the whole chain. */
  datatype Joint = Joint(listeners: L.World, unsealed: seq<Log>, workers: seq<W.World>)

  function Chain(j: Joint): seq<Log> { j.listeners.logs + j.unsealed }

  function PartitionOf(setup: Setup, log: Log): nat
    requires setup.partitions > 0
  {
    setup.partitioner(log.chainId, log.claimId) % setup.partitions
  }

  /** The messages of one partition, in publication order. */
  function Topic(setup: Setup, journal: seq<L.Settlement>, p: nat): seq<Log>
    requires setup.partitions > 0
  {
    if journal == [] then []
    else
      var last := journal[|journal| - 1];
      Topic(setup, journal[..|journal| - 1], p)
      + if last.Published? && PartitionOf(setup, last.log) == p then [last.log] else []
  }

  lemma {:induction false} TopicAppends(setup: Setup, a: seq<L.Settlement>, b: seq<L.Settlement>, p: nat)
    requires setup.partitions > 0
    ensures Topic(setup, a + b, p) == Topic(setup, a, p) + Topic(setup, b, p)
  {
    if b == [] {
      assert a + b == a;
    } else {
      var init := b[..|b| - 1];
      TopicAppends(setup, a, init, p);
      assert (a + b)[..|a + b| - 1] == a + init;
    }
  }

  /** A published message is in its partition. */
  lemma {:induction false} TopicHolds(setup: Setup, journal: seq<L.Settlement>, log: Log)
    requires setup.partitions > 0 && L.Published(log) in journal
    ensures log in Topic(setup, journal, PartitionOf(setup, log))
  {
    var n := |journal| - 1;
    if journal[n] != L.Published(log) {
      assert journal == journal[..n] + [journal[n]];
      TopicHolds(setup, journal[..n], log);
    }
  }

  /** Only settled submissions are in a partition. */
  lemma {:induction false} TopicOnly(setup: Setup, journal: seq<L.Settlement>, p: nat, m: Log)
    requires setup.partitions > 0 && m in Topic(setup, journal, p)
    ensures L.Published(m) in journal
  {
    var n := |journal| - 1;
    if journal[n] != L.Published(m) { TopicOnly(setup, journal[..n], p, m); }
  }

  // ------------------------------------------------------------------- joint steps

  function Receives(w: W.World, more: seq<Log>): W.World { w.(queue := w.queue + more) }

  function Sees(w: W.World, more: seq<Log>): W.World { w.(logs := w.logs + more) }

  /** A listener acts; what it publishes arrives in the partitions. */
  ghost predicate ListenerActs(setup: Setup, j: Joint, j': Joint, a: L.Action)
    requires setup.partitions > 0
  {
    && !a.Mine? && L.Enabled(setup.cfg, j.listeners, a) && j'.listeners == L.Do(setup.cfg, j.listeners, a)
    && j'.unsealed == j.unsealed
    && |j'.workers| == |j.workers| && |j.listeners.journal| <= |j'.listeners.journal|
    && var gained := j'.listeners.journal[|j.listeners.journal|..];
       forall p :: 0 <= p < |j.workers| ==> j'.workers[p] == Receives(j.workers[p], Topic(setup, gained, p))
  }

  /** A log may join a block above the head. */
  predicate Joins(cfg: L.Config, head: nat, more: seq<Log>) {
    L.FromStart(cfg, more) && forall i :: 0 <= i < |more| ==> head < more[i].pos.block
  }

  /** Claimants and human assessors: their logs join the open blocks. */
  ghost predicate ChainActs(setup: Setup, j: Joint, j': Joint, more: seq<Log>) {
    && Valid(Chain(j) + more) && Joins(setup.cfg, j.listeners.head, more)
    && j'.listeners == j.listeners && j'.unsealed == j.unsealed + more
    && |j'.workers| == |j.workers|
    && forall p :: 0 <= p < |j.workers| ==> j'.workers[p] == Sees(j.workers[p], more)
  }

  /** The head moves up, past the first `n` open logs, whoever caused them. */
  ghost predicate HeadMoves(setup: Setup, j: Joint, j': Joint, n: nat, newHead: nat) {
    && n <= |j.unsealed| && L.Enabled(setup.cfg, j.listeners, L.Mine(j.unsealed[..n], newHead))
    && Joins(setup.cfg, newHead, j.unsealed[n..])
    && j'.listeners == L.Do(setup.cfg, j.listeners, L.Mine(j.unsealed[..n], newHead))
    && j'.unsealed == j.unsealed[n..] && j'.workers == j.workers
  }

  /** A worker acts on its own stores. */
  ghost predicate WorkerActs(j: Joint, j': Joint, p: nat, a: W.Action) {
    && p < |j.workers| && !a.Grow? && !a.Enqueue? && !a.Mine?
    && W.Enabled(j.workers[p], a)
    && j' == j.(workers := j.workers[p := W.Do(j.workers[p], a)])
  }

  /** A worker's transaction is executed: reverted without a trace, or logged in an open
      block next to anything else. */
  ghost predicate WorkerMines(setup: Setup, j: Joint, j': Joint, p: nat, tx: nat, log: Log) {
    && p < |j.workers| && W.Enabled(j.workers[p], W.Mine(tx, log))
    && j'.listeners == j.listeners
    && |j'.workers| == |j.workers| && j'.workers[p] == W.Do(j.workers[p], W.Mine(tx, log))
    && if W.Reverts(j.workers[p].logs, j.workers[p].sent[tx], log) then
         j'.unsealed == j.unsealed && forall q :: 0 <= q < |j.workers| && q != p ==> j'.workers[q] == j.workers[q]
       else
         && Joins(setup.cfg, j.listeners.head, [log]) && j'.unsealed == j.unsealed + [log]
         && forall q :: 0 <= q < |j.workers| && q != p ==> j'.workers[q] == Sees(j.workers[q], [log])
  }

  ghost predicate Next(setup: Setup, j: Joint, j': Joint)
    requires setup.partitions > 0
  {
    || (exists a :: ListenerActs(setup, j, j', a))
    || (exists more :: ChainActs(setup, j, j', more))
    || (exists n, newHead :: HeadMoves(setup, j, j', n, newHead))
    || (exists p, a :: WorkerActs(j, j', p, a))
    || (exists p, tx, log :: WorkerMines(setup, j, j', p, tx, log))
  }

  ghost predicate Initial(setup: Setup, j: Joint) {
    && L.Initial(setup.cfg, j.listeners) && j.unsealed == [] && |j.workers| == setup.partitions
    && forall p :: 0 <= p < |j.workers| ==> W.Initial(j.workers[p]) && j.workers[p].logs == j.listeners.logs
  }

  ghost function Starts(setup: Setup): Joint -> bool { j => Initial(setup, j) }

  ghost function Steps(setup: Setup): (Joint, Joint) -> bool
    requires setup.partitions > 0
  {
    (j, j') => Next(setup, j, j')
  }

  ghost predicate Run(setup: Setup, trace: seq<Joint>) {
    setup.partitions > 0 && Runs.Run(Starts(setup), Steps(setup), trace)
  }

  ghost predicate Reachable(setup: Setup, trace: seq<Joint>, j: Joint) {
    Run(setup, trace) && j == trace[|trace| - 1]
  }

  // ----------------------------------------------------------------- joint invariant

  /** A worker sees the common chain and its own partition of the topic. */
  predicate Coupled(setup: Setup, chain: seq<Log>, journal: seq<L.Settlement>, w: W.World, p: nat)
    requires setup.partitions > 0
  {
    W.Inv(w) && w.logs == chain && w.queue == Topic(setup, journal, p)
  }

  predicate Inv(setup: Setup, j: Joint) {
    && setup.partitions > 0 && |j.workers| == setup.partitions
    && L.Inv(setup.cfg, j.listeners)
    && Valid(Chain(j)) && Joins(setup.cfg, j.listeners.head, j.unsealed)
    && forall p :: 0 <= p < |j.workers| ==> Coupled(setup, Chain(j), j.listeners.journal, j.workers[p], p)
  }

  lemma {:induction false} ReceivingKeeps(w: W.World, more: seq<Log>)
    requires W.Inv(w) && forall m :: m in more ==> W.Known(w.logs, m)
    ensures W.Inv(Receives(w, more))
  {
    if more == [] {
      assert w.queue + more == w.queue;
    } else {
      var n := |more| - 1;
      ReceivingKeeps(w, more[..n]);
      W.EnqueueKeeps(Receives(w, more[..n]), more[n]);
      assert w.queue + more == w.queue + more[..n] + [more[n]];
    }
  }

  lemma SettledIsKnown(cfg: L.Config, l: L.World, m: nat)
    requires L.Inv(cfg, l) && m < |l.journal|
    ensures W.Known(l.logs, l.journal[m].log)
  {
    assert L.InOrder(l.logs, l.journal, m);
  }

  lemma PublishedIsKnown(cfg: L.Config, l: L.World, m: Log)
    requires L.Inv(cfg, l) && L.Published(m) in l.journal
    ensures W.Known(l.logs, m)
  {
    var i :| 0 <= i < |l.journal| && l.journal[i] == L.Published(m);
    SettledIsKnown(cfg, l, i);
  }

  lemma LogsOnlyMined(cfg: L.Config, l: L.World, a: L.Action)
    requires L.Enabled(cfg, l, a) && !a.Mine?
    ensures L.Do(cfg, l, a).logs == l.logs
  {
  }

  lemma KnownInChain(logs: seq<Log>, unsealed: seq<Log>, m: Log)
    requires W.Known(logs, m)
    ensures W.Known(logs + unsealed, m)
  {
    W.KnownStays(logs, logs + unsealed, m);
  }

  /** What a listener publishes reaches its partition as known submissions. */
  lemma PartitionReceives(setup: Setup, l: L.World, l': L.World, unsealed: seq<Log>, w: W.World, p: nat)
    requires setup.partitions > 0 && Coupled(setup, l.logs + unsealed, l.journal, w, p) && L.Inv(setup.cfg, l')
    requires l'.logs == l.logs && l.journal <= l'.journal
    ensures Coupled(setup, l.logs + unsealed, l'.journal, Receives(w, Topic(setup, l'.journal[|l.journal|..], p)), p)
  {
    var gained := l'.journal[|l.journal|..];
    assert l'.journal == l.journal + gained;
    TopicAppends(setup, l.journal, gained, p);
    forall m | m in Topic(setup, gained, p) ensures W.Known(w.logs, m) {
      TopicOnly(setup, gained, p, m);
      PublishedIsKnown(setup.cfg, l', m);
      KnownInChain(l.logs, unsealed, m);
    }
    ReceivingKeeps(w, Topic(setup, gained, p));
  }

  lemma HeadOnlyMined(cfg: L.Config, l: L.World, a: L.Action)
    requires L.Enabled(cfg, l, a) && !a.Mine?
    ensures L.Do(cfg, l, a).head == l.head
  {
  }

  lemma ListenerKeeps(setup: Setup, j: Joint, j': Joint, a: L.Action)
    requires Inv(setup, j) && ListenerActs(setup, j, j', a)
    ensures Inv(setup, j')
  {
    var l, l' := j.listeners, j'.listeners;
    L.ActionKeeps(setup.cfg, l, a);
    LogsOnlyMined(setup.cfg, l, a);
    HeadOnlyMined(setup.cfg, l, a);
    forall p | 0 <= p < |j.workers| ensures Coupled(setup, Chain(j'), l'.journal, j'.workers[p], p) {
      assert Coupled(setup, Chain(j), l.journal, j.workers[p], p);
      PartitionReceives(setup, l, l', j.unsealed, j.workers[p], p);
    }
  }

  lemma SeeingKeeps(setup: Setup, chain: seq<Log>, journal: seq<L.Settlement>, w: W.World, p: nat, more: seq<Log>)
    requires setup.partitions > 0 && Coupled(setup, chain, journal, w, p) && Valid(chain + more)
    ensures Coupled(setup, chain + more, journal, Sees(w, more), p)
  {
    W.GrowKeeps(w, more);
  }

  lemma ChainAppends(j: Joint, j': Joint, more: seq<Log>)
    requires j'.listeners == j.listeners && j'.unsealed == j.unsealed + more
    ensures Chain(j') == Chain(j) + more
  {
  }

  lemma ChainKeeps(setup: Setup, j: Joint, j': Joint, more: seq<Log>)
    requires Inv(setup, j) && ChainActs(setup, j, j', more)
    ensures Inv(setup, j')
  {
    ChainAppends(j, j', more);
    forall p | 0 <= p < |j.workers| ensures Coupled(setup, Chain(j'), j'.listeners.journal, j'.workers[p], p) {
      assert Coupled(setup, Chain(j), j.listeners.journal, j.workers[p], p);
      SeeingKeeps(setup, Chain(j), j.listeners.journal, j.workers[p], p, more);
    }
  }

  lemma HeadKeeps(setup: Setup, j: Joint, j': Joint, n: nat, newHead: nat)
    requires Inv(setup, j) && HeadMoves(setup, j, j', n, newHead)
    ensures Inv(setup, j')
  {
    L.MineKeeps(setup.cfg, j.listeners, j.unsealed[..n], newHead);
    Resplit(j.listeners.logs, j.unsealed, n);
    assert j'.listeners.logs == j.listeners.logs + j.unsealed[..n];
  }

  lemma Resplit(logs: seq<Log>, unsealed: seq<Log>, n: nat)
    requires n <= |unsealed|
    ensures (logs + unsealed[..n]) + unsealed[n..] == logs + unsealed
  {
  }

  lemma OwnStores(w: W.World, a: W.Action)
    requires W.Enabled(w, a) && !a.Grow? && !a.Enqueue? && !a.Mine?
    ensures W.Do(w, a).logs == w.logs && W.Do(w, a).queue == w.queue
  {
  }

  lemma WorkerKeeps(setup: Setup, j: Joint, j': Joint, p: nat, a: W.Action)
    requires Inv(setup, j) && WorkerActs(j, j', p, a)
    ensures Inv(setup, j')
  {
    assert Coupled(setup, Chain(j), j.listeners.journal, j.workers[p], p);
    W.ActionKeeps(j.workers[p], a);
    OwnStores(j.workers[p], a);
    forall q | 0 <= q < |j'.workers| ensures Coupled(setup, Chain(j'), j'.listeners.journal, j'.workers[q], q) {
      if q != p { assert Coupled(setup, Chain(j), j.listeners.journal, j.workers[q], q); }
    }
  }

  lemma RevertKeeps(setup: Setup, j: Joint, j': Joint, p: nat, tx: nat, log: Log)
    requires Inv(setup, j) && WorkerMines(setup, j, j', p, tx, log)
    requires W.Reverts(j.workers[p].logs, j.workers[p].sent[tx], log)
    ensures Inv(setup, j')
  {
    assert Coupled(setup, Chain(j), j.listeners.journal, j.workers[p], p);
    W.MineKeeps(j.workers[p], tx, log);
    forall q | 0 <= q < |j'.workers| ensures Coupled(setup, Chain(j'), j'.listeners.journal, j'.workers[q], q) {
      if q != p { assert Coupled(setup, Chain(j), j.listeners.journal, j.workers[q], q); }
    }
  }

  lemma MinedLogs(w: W.World, tx: nat, log: Log)
    requires W.Inv(w) && W.Enabled(w, W.Mine(tx, log)) && !W.Reverts(w.logs, w.sent[tx], log)
    ensures W.Do(w, W.Mine(tx, log)).logs == w.logs + [log] && W.Do(w, W.Mine(tx, log)).queue == w.queue
  {
  }

  lemma WriterCoupled(setup: Setup, chain: seq<Log>, journal: seq<L.Settlement>, w: W.World, p: nat, tx: nat, log: Log)
    requires setup.partitions > 0 && Coupled(setup, chain, journal, w, p)
    requires W.Enabled(w, W.Mine(tx, log)) && !W.Reverts(w.logs, w.sent[tx], log)
    ensures Valid(chain + [log]) && Coupled(setup, chain + [log], journal, W.Do(w, W.Mine(tx, log)), p)
  {
    W.MineKeeps(w, tx, log);
    MinedLogs(w, tx, log);
  }

  /** The write of worker `p` as all workers see it. */
  ghost predicate Written(j: Joint, j': Joint, p: nat, w': W.World, log: Log) {
    && p < |j.workers| == |j'.workers| && j'.workers[p] == w'
    && j'.listeners == j.listeners && j'.unsealed == j.unsealed + [log]
    && forall q :: 0 <= q < |j.workers| && q != p ==> j'.workers[q] == Sees(j.workers[q], [log])
  }

  lemma WriteKeeps(setup: Setup, j: Joint, j': Joint, p: nat, w': W.World, log: Log)
    requires Inv(setup, j) && Written(j, j', p, w', log) && Joins(setup.cfg, j.listeners.head, [log])
    requires Valid(Chain(j) + [log]) && Coupled(setup, Chain(j) + [log], j.listeners.journal, w', p)
    ensures Inv(setup, j')
  {
    ChainAppends(j, j', [log]);
    forall q | 0 <= q < |j'.workers| ensures Coupled(setup, Chain(j'), j'.listeners.journal, j'.workers[q], q) {
      if q != p {
        assert Coupled(setup, Chain(j), j.listeners.journal, j.workers[q], q);
        SeeingKeeps(setup, Chain(j), j.listeners.journal, j.workers[q], q, [log]);
      }
    }
  }

  lemma WorkerMiningKeeps(setup: Setup, j: Joint, j': Joint, p: nat, tx: nat, log: Log)
    requires Inv(setup, j) && WorkerMines(setup, j, j', p, tx, log)
    ensures Inv(setup, j')
  {
    if W.Reverts(j.workers[p].logs, j.workers[p].sent[tx], log) {
      RevertKeeps(setup, j, j', p, tx, log);
    } else {
      WriterCoupled(setup, Chain(j), j.listeners.journal, j.workers[p], p, tx, log);
      WriteKeeps(setup, j, j', p, j'.workers[p], log);
    }
  }

  lemma NextKeeps(setup: Setup, j: Joint, j': Joint)
    requires Inv(setup, j) && Next(setup, j, j')
    ensures Inv(setup, j')
  {
    if a :| ListenerActs(setup, j, j', a) {
      ListenerKeeps(setup, j, j', a);
    } else if more :| ChainActs(setup, j, j', more) {
      ChainKeeps(setup, j, j', more);
    } else if n, newHead :| HeadMoves(setup, j, j', n, newHead) {
      HeadKeeps(setup, j, j', n, newHead);
    } else if p, a :| WorkerActs(j, j', p, a) {
      WorkerKeeps(setup, j, j', p, a);
    } else {
      var p, tx, log :| WorkerMines(setup, j, j', p, tx, log);
      WorkerMiningKeeps(setup, j, j', p, tx, log);
    }
  }

  lemma InitialInv(setup: Setup, j: Joint)
    requires setup.partitions > 0 && Initial(setup, j)
    ensures Inv(setup, j)
  {
    L.InitialInv(setup.cfg, j.listeners);
    assert Chain(j) == j.listeners.logs;
    forall p | 0 <= p < |j.workers| ensures Coupled(setup, Chain(j), j.listeners.journal, j.workers[p], p) {
      W.InitialInv(j.workers[p]);
    }
  }

  lemma RunInv(setup: Setup, trace: seq<Joint>, n: nat)
    requires Run(setup, trace) && n < |trace|
    ensures Inv(setup, trace[n])
  {
    forall j | Initial(setup, j) ensures Inv(setup, j) { InitialInv(setup, j); }
    forall j, j' | Inv(setup, j) && Next(setup, j, j') ensures Inv(setup, j') { NextKeeps(setup, j, j'); }
    Runs.RunKeeps(Starts(setup), Steps(setup), j => Inv(setup, j), trace, n);
  }

  // --------------------------------------------------------------------- end to end

  /** Where a submission's settlement stands in the pipeline. */
  predicate Accounted(setup: Setup, j: Joint, m: Log)
    requires setup.partitions > 0 && |j.workers| == setup.partitions
  {
    var w := j.workers[PartitionOf(setup, m)];
    || L.Quarantined(m) in j.listeners.journal
    || m in w.dead
    || (W.IsCompleted(w.records, m)
        && W.Assessed(Chain(j), m.claimId, w.records[m.Id()].Desired(), w.records[m.Id()].score))
  }

  /** No claim is lost anywhere: in every reachable state, each submission in a block up
      to the saved checkpoint is quarantined by the listener or waits in its partition,
      and what waits below the committed offset is accounted for: dead-lettered, or its
      recorded status and score are in the chain's history. */
  lemma NothingLostOnTheWay(setup: Setup, trace: seq<Joint>, j: Joint, i: nat) returns (offset: nat)
    requires Reachable(setup, trace, j) && j.listeners.tables.checkpoint.Some?
    requires i < |j.listeners.logs| && j.listeners.logs[i].body.Submission?
    requires j.listeners.logs[i].pos.block <= j.listeners.tables.checkpoint.value
    ensures |j.workers| == setup.partitions
    ensures var m := j.listeners.logs[i];
            var w := j.workers[PartitionOf(setup, m)];
            && (L.Quarantined(m) in j.listeners.journal || (offset < |w.queue| && w.queue[offset] == m))
            && (offset < w.committed && offset < |w.queue| && w.queue[offset] == m ==> Accounted(setup, j, m))
  {
    RunInv(setup, trace, |trace| - 1);
    var l, m := j.listeners, j.listeners.logs[i];
    var p := PartitionOf(setup, m);
    var w := j.workers[p];
    assert Coupled(setup, Chain(j), l.journal, w, p);
    offset := 0;
    CountThroughIsPrefix(l.logs, l.tables.checkpoint.value);
    assert L.Settled(l.journal, m);
    var s :| 0 <= s < |l.journal| && l.journal[s].log == m;
    if l.journal[s].Published? {
      TopicHolds(setup, l.journal, m);
      offset :| 0 <= offset < |w.queue| && w.queue[offset] == m;
    }
    if offset < w.committed && w.queue[offset] == m { CommittedIsAccounted(setup, j, m, offset); }
  }

  lemma CommittedIsAccounted(setup: Setup, j: Joint, m: Log, offset: nat)
    requires Inv(setup, j) && m in j.listeners.logs && m.body.Submission?
    requires var w := j.workers[PartitionOf(setup, m)]; offset < w.committed && w.queue[offset] == m
    ensures Accounted(setup, j, m)
  {
    var p := PartitionOf(setup, m);
    var w := j.workers[p];
    assert Coupled(setup, Chain(j), j.listeners.journal, w, p);
    assert W.Finished(w.records, w.dead, m);
    assert m in w.logs;
    assert W.RecordOk(w.logs, w.records, m);
  }

  /** So once the commits cover the topic, every submission up to the checkpoint is
      quarantined, dead-lettered, or has its recorded status and score on chain. */
  lemma EndToEnd(setup: Setup, trace: seq<Joint>, j: Joint)
    requires Reachable(setup, trace, j) && j.listeners.tables.checkpoint.Some?
    requires forall p :: 0 <= p < |j.workers| ==> j.workers[p].committed == |j.workers[p].queue|
    ensures |j.workers| == setup.partitions
    ensures forall i :: 0 <= i < |j.listeners.logs| && j.listeners.logs[i].body.Submission?
              && j.listeners.logs[i].pos.block <= j.listeners.tables.checkpoint.value
              ==> Accounted(setup, j, j.listeners.logs[i])
  {
    RunInv(setup, trace, |trace| - 1);
    forall i | 0 <= i < |j.listeners.logs| && j.listeners.logs[i].body.Submission?
               && j.listeners.logs[i].pos.block <= j.listeners.tables.checkpoint.value
      ensures Accounted(setup, j, j.listeners.logs[i])
    {
      var _ := NothingLostOnTheWay(setup, trace, j, i);
    }
  }

  /** Each partition holds its claims' events only, and every copy of one. */
  lemma CopiesShareAPartition(setup: Setup, trace: seq<Joint>, j: Joint, p: nat, o: nat)
    requires Reachable(setup, trace, j) && p < |j.workers| && o < |j.workers[p].queue|
    ensures PartitionOf(setup, j.workers[p].queue[o]) == p
    ensures j.workers[p].queue[o] in j.listeners.logs
  {
    RunInv(setup, trace, |trace| - 1);
    assert Coupled(setup, Chain(j), j.listeners.journal, j.workers[p], p);
    var m := j.workers[p].queue[o];
    TopicKeepsTo(setup, j.listeners.journal, p, o);
    TopicOnly(setup, j.listeners.journal, p, m);
    PublishedIsKnown(setup.cfg, j.listeners, m);
  }

  lemma {:induction false} TopicKeepsTo(setup: Setup, journal: seq<L.Settlement>, p: nat, o: nat)
    requires setup.partitions > 0 && o < |Topic(setup, journal, p)|
    ensures PartitionOf(setup, Topic(setup, journal, p)[o]) == p
  {
    if o < |Topic(setup, journal[..|journal| - 1], p)| { TopicKeepsTo(setup, journal[..|journal| - 1], p, o); }
  }

  // ------------------------------------------------------------- writes across workers

  /** A worker scores only events of its own partition. */
  ghost predicate OwnRows(records: map<string, W.Record>, queue: seq<Log>) {
    forall id :: id in records ==> exists o :: 0 <= o < |queue| && queue[o].Id() == id
  }

  lemma OwnRowsStay(records: map<string, W.Record>, queue: seq<Log>, more: seq<Log>)
    requires OwnRows(records, queue)
    ensures OwnRows(records, queue + more)
  {
    forall id | id in records ensures exists o :: 0 <= o < |queue + more| && (queue + more)[o].Id() == id {
      var o :| 0 <= o < |queue| && queue[o].Id() == id;
      assert (queue + more)[o] == queue[o];
    }
  }

  lemma SavedRowIsOwn(w: W.World, a: W.Action)
    requires W.Inv(w) && W.Enabled(w, a) && !a.Grow? && !a.Enqueue? && !a.Mine?
    ensures forall id :: id in W.Do(w, a).records ==>
              id in w.records || (w.committed < |w.queue| && w.queue[w.committed].Id() == id)
  {
  }

  lemma OwnRowsKept(w: W.World, a: W.Action)
    requires W.Inv(w) && OwnRows(w.records, w.queue) && W.Enabled(w, a) && !a.Grow? && !a.Enqueue? && !a.Mine?
    ensures OwnRows(W.Do(w, a).records, W.Do(w, a).queue)
  {
    OwnStores(w, a);
    SavedRowIsOwn(w, a);
  }

  lemma MiningKeepsRows(w: W.World, tx: nat, log: Log)
    requires W.Enabled(w, W.Mine(tx, log))
    ensures W.Do(w, W.Mine(tx, log)).records == w.records && W.Do(w, W.Mine(tx, log)).queue == w.queue
  {
  }

  ghost predicate AllOwnRows(j: Joint) {
    forall p :: 0 <= p < |j.workers| ==> OwnRows(j.workers[p].records, j.workers[p].queue)
  }

  lemma ListenerKeepsOwnRows(setup: Setup, j: Joint, j': Joint, a: L.Action)
    requires setup.partitions > 0 && AllOwnRows(j) && ListenerActs(setup, j, j', a)
    ensures AllOwnRows(j')
  {
    forall p | 0 <= p < |j'.workers| ensures OwnRows(j'.workers[p].records, j'.workers[p].queue) {
      OwnRowsStay(j.workers[p].records, j.workers[p].queue,
                  Topic(setup, j'.listeners.journal[|j.listeners.journal|..], p));
    }
  }

  lemma WorkerKeepsOwnRows(setup: Setup, j: Joint, j': Joint, q: nat, a: W.Action)
    requires Inv(setup, j) && AllOwnRows(j) && WorkerActs(j, j', q, a)
    ensures AllOwnRows(j')
  {
    assert Coupled(setup, Chain(j), j.listeners.journal, j.workers[q], q);
    OwnRowsKept(j.workers[q], a);
  }

  lemma MiningKeepsOwnRows(setup: Setup, j: Joint, j': Joint, q: nat, tx: nat, log: Log)
    requires AllOwnRows(j) && WorkerMines(setup, j, j', q, tx, log)
    ensures AllOwnRows(j')
  {
    MiningKeepsRows(j.workers[q], tx, log);
  }

  lemma NextKeepsOwnRows(setup: Setup, j: Joint, j': Joint)
    requires Inv(setup, j) && AllOwnRows(j) && Next(setup, j, j')
    ensures AllOwnRows(j')
  {
    if a :| ListenerActs(setup, j, j', a) {
      ListenerKeepsOwnRows(setup, j, j', a);
    } else if more :| ChainActs(setup, j, j', more) {
    } else if n, newHead :| HeadMoves(setup, j, j', n, newHead) {
    } else if p, a :| WorkerActs(j, j', p, a) {
      WorkerKeepsOwnRows(setup, j, j', p, a);
    } else {
      var p, tx, log :| WorkerMines(setup, j, j', p, tx, log);
      MiningKeepsOwnRows(setup, j, j', p, tx, log);
    }
  }

  lemma NoRowsYet(setup: Setup, j: Joint)
    requires Initial(setup, j)
    ensures AllOwnRows(j)
  {
  }

  lemma RunOwnRows(setup: Setup, trace: seq<Joint>, n: nat)
    requires Run(setup, trace) && n < |trace|
    ensures Inv(setup, trace[n]) && AllOwnRows(trace[n])
  {
    forall j | Initial(setup, j) ensures Inv(setup, j) && AllOwnRows(j) {
      InitialInv(setup, j);
      NoRowsYet(setup, j);
    }
    forall j, j' | Inv(setup, j) && AllOwnRows(j) && Next(setup, j, j') ensures Inv(setup, j') && AllOwnRows(j') {
      NextKeeps(setup, j, j');
      NextKeepsOwnRows(setup, j, j');
    }
    Runs.RunKeeps(Starts(setup), Steps(setup), j => Inv(setup, j) && AllOwnRows(j), trace, n);
  }

  /** The submission behind a worker's write stands in that worker's partition. */
  lemma WriteFromOwnPartition(setup: Setup, j: Joint, p: nat, l: Log) returns (m: Log)
    requires Inv(setup, j) && AllOwnRows(j) && p < |j.workers| && l in j.workers[p].wrote
    ensures m in Chain(j) && m.body.Submission? && m.claimId == l.claimId && PartitionOf(setup, m) == p
  {
    var w := j.workers[p];
    assert Coupled(setup, Chain(j), j.listeners.journal, w, p);
    assert W.WriteOk(w.logs, w.records, l);
    m :| m in w.logs && W.Carries(w.records, m, W.Tx(l.claimId, l.body.status, l.body.score));
    assert OwnRows(w.records, w.queue);
    var o :| 0 <= o < |w.queue| && w.queue[o].Id() == m.Id();
    W.KnownIsLogged(w.logs, w.queue[o]);
    W.SameIdSameLog(w.logs, w.queue[o], m);
    TopicKeepsTo(setup, j.listeners.journal, p, o);
  }

  /** However often an event is published, all workers together write to a claim at most
      once. */
  lemma AtMostOneWriteAnywhere(setup: Setup, trace: seq<Joint>, j: Joint, p: nat, q: nat, a: Log, b: Log)
    requires Reachable(setup, trace, j) && p < |j.workers| && q < |j.workers|
    requires a in j.workers[p].wrote && b in j.workers[q].wrote && a.claimId == b.claimId
    ensures p == q && a == b
  {
    RunOwnRows(setup, trace, |trace| - 1);
    SamePartition(setup, j, p, q, a, b);
    OneWriteEach(setup, j, p, a, b);
  }

  lemma SamePartition(setup: Setup, j: Joint, p: nat, q: nat, a: Log, b: Log)
    requires Inv(setup, j) && AllOwnRows(j) && p < |j.workers| && q < |j.workers|
    requires a in j.workers[p].wrote && b in j.workers[q].wrote && a.claimId == b.claimId
    ensures p == q
  {
    var m := WriteFromOwnPartition(setup, j, p, a);
    var n := WriteFromOwnPartition(setup, j, q, b);
    W.SubmissionsUnique(Chain(j), m, n);
  }

  lemma OneWriteEach(setup: Setup, j: Joint, p: nat, a: Log, b: Log)
    requires Inv(setup, j) && p < |j.workers|
    requires a in j.workers[p].wrote && b in j.workers[p].wrote && a.claimId == b.claimId
    ensures a == b
  {
    assert Coupled(setup, Chain(j), j.listeners.journal, j.workers[p], p);
  }
}
