/** What holds in every state the listeners can reach, whatever fails, crashes, is
    replayed or arrives late. */
module ListenerGuarantees {
  import opened ChainLog
  import opened ClaimIndex
  import opened ListenerSystem
  import opened Text

  /** No loss: every submission in a block up to the saved checkpoint has reached
      Kafka or the dead-letter file. */
  lemma NoSubmissionLost(cfg: Config, trace: seq<World>, w: World, i: nat)
    requires Reachable(cfg, trace, w) && w.tables.checkpoint.Some?
    requires i < |w.logs| && w.logs[i].body.Submission? && w.logs[i].pos.block <= w.tables.checkpoint.value
    ensures Published(w.logs[i]) in w.journal || Quarantined(w.logs[i]) in w.journal
  {
    ReachableInv(cfg, trace, w);
    CountThroughIsPrefix(w.logs, w.tables.checkpoint.value);
    var m :| 0 <= m < |w.journal| && w.journal[m].log == w.logs[i];
    assert w.journal[m] in w.journal;
  }

  /** Where a log was first settled. */
  function FirstSettled(journal: seq<Settlement>, log: Log): (m: nat)
    requires Settled(journal, log)
    ensures m < |journal| && journal[m].log == log
    ensures forall j :: 0 <= j < m ==> journal[j].log != log
  {
    if journal[0].log == log then 0
    else
      assert Settled(journal[1..], log) by {
        var m :| 0 <= m < |journal| && journal[m].log == log;
        assert journal[1..][m - 1] == journal[m];
      }
      FirstSettled(journal[1..], log) + 1
  }

  /** Submissions are first settled in chain order, on every schedule of failures,
      replays and late deliveries and for any number of listeners. */
  lemma FirstSettlementsInChainOrder(cfg: Config, trace: seq<World>, w: World, i: nat, j: nat)
    requires Reachable(cfg, trace, w)
    requires i < j < |w.logs| && w.logs[i].body.Submission? && Settled(w.journal, w.logs[j])
    ensures Settled(w.journal, w.logs[i])
    ensures FirstSettled(w.journal, w.logs[i]) < FirstSettled(w.journal, w.logs[j])
  {
    ReachableInv(cfg, trace, w);
    var m := FirstSettled(w.journal, w.logs[j]);
    assert InOrder(w.logs, w.journal, m);
    var i' :| 0 <= i' < |w.logs| && w.logs[i'] == w.journal[m].log && SettledThrough(w.logs, w.journal[..m], i');
    SameIdSameIndex(w.logs, i', j);
    assert Settled(w.journal[..m], w.logs[i]);
    var early :| 0 <= early < m && w.journal[..m][early].log == w.logs[i];
    assert w.journal[early].log == w.logs[i];
  }

  /** Only submissions of the log are ever settled: nothing is invented. */
  lemma OnlySubmissionsSettled(cfg: Config, trace: seq<World>, w: World, m: nat)
    requires Reachable(cfg, trace, w) && m < |w.journal|
    ensures w.journal[m].log in w.logs && w.journal[m].log.body.Submission?
  {
    ReachableInv(cfg, trace, w);
    assert InOrder(w.logs, w.journal, m);
  }

  /** The projection refines a fold: both tables are the plain chain-order fold of one
      prefix of the log, that prefix covers every block up to the checkpoint, and each
      of its logs has exactly one audit row. */
  lemma ProjectionIsAFold(cfg: Config, trace: seq<World>, w: World) returns (n: nat)
    requires Reachable(cfg, trace, w)
    ensures n <= |w.logs| && |w.tables.events| == n
    ensures w.tables.claims == PlainRows(w.logs[..n]) && w.tables.events == PlainAudit(w.logs[..n])
    ensures w.tables.checkpoint.Some? ==>
              forall i :: 0 <= i < |w.logs| && w.logs[i].pos.block <= w.tables.checkpoint.value ==> i < n
    ensures forall i :: 0 <= i < n ==> w.logs[i].Id() in w.tables.events
                                       && w.tables.events[w.logs[i].Id()] == AuditOf(w.logs[i])
  {
    ReachableInv(cfg, trace, w);
    n := |w.tables.events|;
    if w.tables.checkpoint.Some? { CountThroughIsPrefix(w.logs, w.tables.checkpoint.value); }
    PrefixValid(w.logs, n);
    forall i | 0 <= i < n
      ensures w.logs[i].Id() in w.tables.events && w.tables.events[w.logs[i].Id()] == AuditOf(w.logs[i])
    {
      AuditHolds(w.logs[..n], i);
    }
  }

  /** So the audit row of an indexed log repeats what the log said. */
  lemma AuditIsTheLog(cfg: Config, trace: seq<World>, w: World, i: nat)
    requires Reachable(cfg, trace, w) && i < |w.logs|
    requires i < |w.tables.events| || (w.tables.checkpoint.Some? && w.logs[i].pos.block <= w.tables.checkpoint.value)
    ensures w.logs[i].Id() in w.tables.events
    ensures var row, log := w.tables.events[w.logs[i].Id()], w.logs[i];
            && row.claimId == log.claimId && row.pos == log.pos && row.time == log.time && row.tx == Lower(log.tx)
            && row.submission == log.body.Submission?
            && row.status == (if log.body.Submission? then Submitted else log.body.status)
            && row.score == (if log.body.Submission? then 0 else log.body.score)
  {
    var n := ProjectionIsAFold(cfg, trace, w);
    ReachableInv(cfg, trace, w);
    PrefixValid(w.logs, n);
    AuditRowMeaning(w.logs[..n], i);
  }

  /** The "missing an earlier ClaimSubmitted" error cannot be raised. */
  lemma MissingSubmissionUnreachable(cfg: Config, trace: seq<World>, w: World, k: nat)
    requires Reachable(cfg, trace, w) && Ready(w, k, IndexNext)
    ensures Index(w.tables, w.logs[w.listeners[k].task.pc.next]).Some?
  {
    ReachableInv(cfg, trace, w);
    IndexedCount(w.tables, w.logs, w.listeners[k].task.pc.next);
  }

  /** A process never holds a cursor beyond the saved checkpoint, although after a
      failed drain it replays blocks the checkpoint already covers. */
  lemma CursorsWithinCheckpoint(cfg: Config, trace: seq<World>, w: World, k: nat)
    requires Reachable(cfg, trace, w) && k in w.listeners
    ensures var l := w.listeners[k];
            match w.tables.checkpoint
            case None => l.cursor == cfg.start - 1 && (l.task.Draining? ==> l.task.local == l.cursor)
            case Some(saved) => l.cursor <= saved <= w.head && (l.task.Draining? ==> l.cursor <= l.task.local <= saved)
  {
    ReachableInv(cfg, trace, w);
  }

  /** The saved checkpoint never decreases, whichever blocks `save` is called with. */
  lemma CheckpointNeverDecreases(cfg: Config, trace: seq<World>, m: nat, n: nat)
    requires Run(cfg, trace) && m <= n < |trace| && trace[m].tables.checkpoint.Some?
    ensures trace[n].tables.checkpoint.Some?
    ensures trace[m].tables.checkpoint.value <= trace[n].tables.checkpoint.value
    ensures trace[m].journal <= trace[n].journal && trace[m].logs <= trace[n].logs
  {
    RunGrows(cfg, trace, m, n);
  }
}
