/** The scoring worker of one Kafka partition: an at-least-once consumer over the
    assessment table, the dead-letter file and the contract. Everyone else (human
    assessors, the workers of other partitions, new submissions) is the environment. */
module ScoringSystem {
  import opened ChainLog
  import opened ClaimIndex
  import Runs

  datatype Processing = Scored | Completed | Failed

  /** One row of `claim_assessments`; `flagged` is the assessment status. */
  datatype Record = Record(claimId: nat, flagged: bool, score: nat, processing: Processing, receipt: Option<Log>)
  {
    /** The automated model has only two outcomes. */
    function Desired(): Status { if flagged then Flagged else UnderReview }
  }

  datatype Tx = Tx(claimId: nat, status: Status, score: nat)

  /** Where the handler stands on message `m`; `found` and `record` are its locals. */
  datatype Pc =
    | Polling
    | Reading(m: Log)
    | Verifying(m: Log, found: Option<Record>)
    | Enriching(m: Log, found: Option<Record>)
    | Scoring(m: Log)
    | Saving(m: Log, record: Record)
    | Deciding(m: Log, record: Record)
    | Sending(m: Log, record: Record)
    | Awaiting(m: Log, record: Record, tx: nat)
    | Completing(m: Log, record: Record, receipt: Option<Log>)
    | Failing(m: Log, permanent: bool)
    | Quarantining(m: Log)
    | Committing(m: Log)

  /** `sent` holds every transaction by number, `mined` what became of it, and `wrote`
      the logs the worker's own transactions emitted. A message is its chain log. */
  datatype World = World(logs: seq<Log>, queue: seq<Log>, committed: nat, records: map<string, Record>,
                         dead: seq<Log>, sent: seq<Tx>, mined: map<nat, Option<Log>>, wrote: set<Log>, pc: Pc)

  datatype Action =
    | Grow(more: seq<Log>)                       // anyone else's events
    | Enqueue(m: Log)                            // the listener publishes, perhaps again
    | Mine(tx: nat, log: Log)                    // a sent transaction is executed, at any later time
    | Stop                                       // crash or retryable error: resume at the committed offset
    | Poll
    | Read
    | Check(good: bool)                          // schema and authorization of the verified bytes
    | Enrich                                     // duplicate check and feature snapshot
    | Score(flagged: bool, score: nat)           // any answer, different each time
    | Save(replied: bool)
    | LookUp
    | GiveUp                                     // an exception inside the chain-write block
    | Send
    | Receive
    | Complete(replied: bool)
    | MarkFailed(replied: bool)
    | Quarantine(replied: bool)
    | Commit

  predicate Known(logs: seq<Log>, m: Log) {
    exists i :: 0 <= i < |logs| && logs[i] == m && m.body.Submission?
  }

  function AssessmentOf(tx: Tx, log: Log): bool {
    log.claimId == tx.claimId && log.body == Assessment(tx.status, tx.score)
  }

  /** The contract executes a transaction, or reverts it. */
  predicate Reverts(logs: seq<Log>, tx: Tx, log: Log)
    requires Valid(logs)
  {
    !Accepts(State(logs), log.(claimId := tx.claimId, body := Assessment(tx.status, tx.score)))
  }

  predicate Enabled(w: World, a: Action) {
    match a
    case Grow(more) => Valid(w.logs + more)
    case Enqueue(m) => Known(w.logs, m)
    case Mine(tx, log) =>
      tx < |w.sent| && tx !in w.mined && Valid(w.logs) && AssessmentOf(w.sent[tx], log) && Follows(w.logs, log)
    case Stop => true
    case Poll => w.pc.Polling? && w.committed < |w.queue|
    case Read => w.pc.Reading?
    case Check(_) => w.pc.Verifying?
    case Enrich => w.pc.Enriching?
    case Score(_, score) => w.pc.Scoring? && score <= 10000
    case Save(_) => w.pc.Saving?
    case LookUp => w.pc.Deciding? && Valid(w.logs) && w.pc.m.claimId < |State(w.logs)|
    case GiveUp => w.pc.Deciding? || w.pc.Sending? || w.pc.Awaiting? || w.pc.Completing?
    case Send => w.pc.Sending?
    case Receive => w.pc.Awaiting? && w.pc.tx in w.mined
    case Complete(_) => w.pc.Completing?
    case MarkFailed(_) => w.pc.Failing?
    case Quarantine(_) => w.pc.Quarantining?
    case Commit => w.pc.Committing?
  }

  /** `save_scored`: insert, or replace unless the row is completed. */
  function SaveScored(records: map<string, Record>, id: string, r: Record): map<string, Record> {
    if id in records && records[id].processing == Completed then records
    else records[id := r.(processing := Scored, receipt := None)]
  }

  /** `mark_completed` and `mark_failed` are plain updates: no row, no effect. */
  function MarkCompleted(records: map<string, Record>, id: string, receipt: Option<Log>): map<string, Record> {
    if id in records then records[id := records[id].(processing := Completed, receipt := receipt)] else records
  }

  function MarkedFailed(records: map<string, Record>, id: string): map<string, Record> {
    if id in records then records[id := records[id].(processing := Failed)] else records
  }

  /** What the handler concludes from the claim it reads on chain. */
  function Decide(c: Claim, m: Log, record: Record): Pc {
    if c.status == Submitted then Sending(m, record)
    else if c.status == record.Desired() && c.score == record.score then Completing(m, record, record.receipt)
    else Failing(m, true)
  }

  function Do(w: World, a: Action): World
    requires Enabled(w, a)
  {
    match a
    case Grow(more) => w.(logs := w.logs + more)
    case Enqueue(m) => w.(queue := w.queue + [m])
    case Mine(tx, log) =>
      if Reverts(w.logs, w.sent[tx], log) then w.(mined := w.mined[tx := None])
      else w.(logs := w.logs + [log], mined := w.mined[tx := Some(log)], wrote := w.wrote + {log})
    case Stop => w.(pc := Polling)
    case Poll => w.(pc := Reading(w.queue[w.committed]))
    case Read =>
      var id := w.pc.m.Id();
      if id !in w.records then w.(pc := Verifying(w.pc.m, None))
      else if w.records[id].processing == Completed then w.(pc := Committing(w.pc.m))
      else w.(pc := Verifying(w.pc.m, Some(w.records[id])))
    case Check(good) => w.(pc := if good then Enriching(w.pc.m, w.pc.found) else Quarantining(w.pc.m))
    case Enrich =>
      w.(pc := match w.pc.found case None => Scoring(w.pc.m) case Some(r) => Deciding(w.pc.m, r))
    case Score(flagged, score) =>
      w.(pc := Saving(w.pc.m, Record(w.pc.m.claimId, flagged, score, Scored, None)))
    case Save(replied) =>
      w.(records := SaveScored(w.records, w.pc.m.Id(), w.pc.record),
         pc := if replied then Deciding(w.pc.m, w.pc.record) else Polling)
    case LookUp => w.(pc := Decide(State(w.logs)[w.pc.m.claimId], w.pc.m, w.pc.record))
    case GiveUp => w.(pc := Failing(w.pc.m, false))
    case Send =>
      w.(sent := w.sent + [Tx(w.pc.m.claimId, w.pc.record.Desired(), w.pc.record.score)],
         pc := Awaiting(w.pc.m, w.pc.record, |w.sent|))
    case Receive =>
      w.(pc := match w.mined[w.pc.tx]
               case Some(log) => Completing(w.pc.m, w.pc.record, Some(log))
               case None => Failing(w.pc.m, false))
    case Complete(replied) =>
      w.(records := MarkCompleted(w.records, w.pc.m.Id(), w.pc.receipt),
         pc := if replied then Committing(w.pc.m) else Failing(w.pc.m, false))
    case MarkFailed(replied) =>
      w.(records := MarkedFailed(w.records, w.pc.m.Id()),
         pc := if replied && w.pc.permanent then Quarantining(w.pc.m) else Polling)
    case Quarantine(replied) =>
      w.(dead := w.dead + [w.pc.m], pc := if replied then Committing(w.pc.m) else Polling)
    case Commit => w.(committed := w.committed + 1, pc := Polling)
  }

  predicate Initial(w: World) {
    Valid(w.logs) && w.queue == [] && w.committed == 0 && w.records == map[] && w.dead == []
    && w.sent == [] && w.mined == map[] && w.wrote == {} && w.pc == Polling
  }

  ghost predicate Next(w: World, w': World) {
    exists a :: Enabled(w, a) && w' == Do(w, a)
  }

  ghost function Starts(): World -> bool { w => Initial(w) }

  ghost function Steps(): (World, World) -> bool { (w, w') => Next(w, w') }

  ghost predicate Run(trace: seq<World>) { Runs.Run(Starts(), Steps(), trace) }

  /** The run `trace` ends in `w`. */
  ghost predicate Reachable(trace: seq<World>, w: World) {
    Run(trace) && w == trace[|trace| - 1]
  }

  // -------------------------------------------------------------- the invariant

  /** The saved decision for a submission, whatever became of it since. */
  predicate Decided(records: map<string, Record>, m: Log, flagged: bool, score: nat) {
    m.Id() in records && records[m.Id()].flagged == flagged && records[m.Id()].score == score
    && records[m.Id()].claimId == m.claimId
  }

  /** The chain holds an assessment of claim `c` with this status and score. */
  predicate Assessed(logs: seq<Log>, c: nat, status: Status, score: nat) {
    exists i :: 0 <= i < |logs| && logs[i].claimId == c && logs[i].body == Assessment(status, score)
  }

  predicate RecordOk(logs: seq<Log>, records: map<string, Record>, m: Log) {
    m.Id() in records ==>
      var r := records[m.Id()];
      r.claimId == m.claimId && r.score <= 10000
      && (r.processing == Completed ==> Assessed(logs, m.claimId, r.Desired(), r.score))
  }

  /** Every row belongs to a submission of the log, and completion is backed by the chain. */
  predicate RowsOk(logs: seq<Log>, records: map<string, Record>) {
    && (forall id :: id in records ==> exists m :: m in logs && m.body.Submission? && m.Id() == id)
    && (forall m :: m in logs && m.body.Submission? ==> RecordOk(logs, records, m))
  }

  predicate IsCompleted(records: map<string, Record>, m: Log) {
    m.Id() in records && records[m.Id()].processing == Completed
  }

  /** Finished with a message: its assessment is on record, or its rejection is. */
  predicate Finished(records: map<string, Record>, dead: seq<Log>, m: Log) {
    IsCompleted(records, m) || m in dead
  }

  predicate QueueOk(logs: seq<Log>, queue: seq<Log>) {
    forall i :: 0 <= i < |queue| ==> Known(logs, queue[i])
  }

  predicate CommittedOk(records: map<string, Record>, dead: seq<Log>, queue: seq<Log>, committed: nat) {
    committed <= |queue| && forall i :: 0 <= i < committed ==> Finished(records, dead, queue[i])
  }

  /** The transaction carries exactly the decision saved for submission `m`. */
  predicate Carries(records: map<string, Record>, m: Log, tx: Tx) {
    && m.body.Submission? && m.claimId == tx.claimId && m.Id() in records
    && tx.status == records[m.Id()].Desired() && tx.score == records[m.Id()].score
  }

  predicate TxOk(logs: seq<Log>, records: map<string, Record>, tx: Tx) {
    exists m :: m in logs && Carries(records, m, tx)
  }

  predicate SentOk(logs: seq<Log>, records: map<string, Record>, sent: seq<Tx>) {
    forall t :: 0 <= t < |sent| ==> TxOk(logs, records, sent[t])
  }

  predicate WriteOk(logs: seq<Log>, records: map<string, Record>, l: Log) {
    l in logs && l.body.Assessment? && TxOk(logs, records, Tx(l.claimId, l.body.status, l.body.score))
  }

  /** The worker's writes carry saved decisions, at most one to a claim. */
  predicate WroteOk(logs: seq<Log>, records: map<string, Record>, wrote: set<Log>) {
    && (forall l :: l in wrote ==> WriteOk(logs, records, l))
    && (forall a, b :: a in wrote && b in wrote && a.claimId == b.claimId ==> a == b)
  }

  predicate MinedOk(sent: seq<Tx>, mined: map<nat, Option<Log>>, wrote: set<Log>) {
    forall t :: t in mined ==>
      t < |sent| && (mined[t].Some? ==> AssessmentOf(sent[t], mined[t].value) && mined[t].value in wrote)
  }

  predicate FoundOk(records: map<string, Record>, m: Log, found: Option<Record>) {
    match found
    case None => m.Id() !in records
    case Some(r) => Decided(records, m, r.flagged, r.score)
  }

  /** Past reading, the row was not completed, so an already committed copy of the
      message can only have been dead-lettered. */
  predicate NotDoneBefore(dead: seq<Log>, queue: seq<Log>, committed: nat, m: Log) {
    forall i :: 0 <= i < committed && i < |queue| && queue[i] == m ==> m in dead
  }

  /** What the handler's locals must agree with while it works on a message. */
  predicate LocalsOk(logs: seq<Log>, records: map<string, Record>, dead: seq<Log>, sent: seq<Tx>, pc: Pc) {
    match pc
    case Verifying(m, found) => FoundOk(records, m, found)
    case Enriching(m, found) => FoundOk(records, m, found)
    case Scoring(m) => m.Id() !in records
    case Saving(m, r) => m.Id() !in records && r.claimId == m.claimId && r.score <= 10000
    case Deciding(m, r) => Decided(records, m, r.flagged, r.score)
    case Sending(m, r) => Decided(records, m, r.flagged, r.score)
    case Awaiting(m, r, tx) =>
      Decided(records, m, r.flagged, r.score) && tx < |sent| && sent[tx] == Tx(m.claimId, r.Desired(), r.score)
    case Completing(m, r, _) =>
      Decided(records, m, r.flagged, r.score) && Assessed(logs, m.claimId, r.Desired(), r.score)
    case Committing(m) => Finished(records, dead, m)
    case _ => true
  }

  predicate PcOk(w: World) {
    !w.pc.Polling? ==>
      && w.committed < |w.queue| && w.pc.m == w.queue[w.committed] && Known(w.logs, w.pc.m)
      && LocalsOk(w.logs, w.records, w.dead, w.sent, w.pc)
      && (w.pc.Reading? || w.pc.Quarantining? || w.pc.Committing?
          || NotDoneBefore(w.dead, w.queue, w.committed, w.pc.m))
  }

  predicate Inv(w: World) {
    && Valid(w.logs)
    && QueueOk(w.logs, w.queue)
    && RowsOk(w.logs, w.records)
    && CommittedOk(w.records, w.dead, w.queue, w.committed)
    && SentOk(w.logs, w.records, w.sent)
    && MinedOk(w.sent, w.mined, w.wrote)
    && WroteOk(w.logs, w.records, w.wrote)
    && PcOk(w)
  }

  /** Rows are added; a saved decision is never replaced. */
  predicate DecisionsKept(records: map<string, Record>, records': map<string, Record>) {
    forall id :: id in records ==>
      id in records'
      && (records'[id].claimId, records'[id].flagged, records'[id].score)
         == (records[id].claimId, records[id].flagged, records[id].score)
  }

  /** What no action undoes: the chain, the dead letters, and every saved decision. */
  predicate Grows(w: World, w': World) {
    && w.logs <= w'.logs && w.queue <= w'.queue && w.committed <= w'.committed && w.dead <= w'.dead
    && w.sent <= w'.sent && w.wrote <= w'.wrote && DecisionsKept(w.records, w'.records)
  }

  // ------------------------------------------------------------ stability lemmas

  lemma KnownStays(logs: seq<Log>, logs': seq<Log>, m: Log)
    requires Known(logs, m) && logs <= logs'
    ensures Known(logs', m)
  {
    var i :| 0 <= i < |logs| && logs[i] == m;
    assert logs'[i] == m;
  }

  lemma QueueStays(logs: seq<Log>, logs': seq<Log>, queue: seq<Log>)
    requires QueueOk(logs, queue) && logs <= logs'
    ensures QueueOk(logs', queue)
  {
    forall i | 0 <= i < |queue| ensures Known(logs', queue[i]) { KnownStays(logs, logs', queue[i]); }
  }

  lemma KnownIsLogged(logs: seq<Log>, m: Log)
    requires Known(logs, m)
    ensures m in logs && m.body.Submission?
  {
    var i :| 0 <= i < |logs| && logs[i] == m;
  }

  lemma AssessedStays(logs: seq<Log>, logs': seq<Log>, c: nat, status: Status, score: nat)
    requires Assessed(logs, c, status, score) && logs <= logs'
    ensures Assessed(logs', c, status, score)
  {
    var i :| 0 <= i < |logs| && logs[i].claimId == c && logs[i].body == Assessment(status, score);
    assert logs'[i] == logs[i];
  }

  lemma TxStays(logs: seq<Log>, records: map<string, Record>, logs': seq<Log>, records': map<string, Record>, tx: Tx)
    requires TxOk(logs, records, tx) && logs <= logs' && DecisionsKept(records, records')
    ensures TxOk(logs', records', tx)
  {
    var m :| m in logs && Carries(records, m, tx);
    assert m in logs' && Carries(records', m, tx);
  }

  lemma SentStays(logs: seq<Log>, records: map<string, Record>,
                  logs': seq<Log>, records': map<string, Record>, sent: seq<Tx>)
    requires SentOk(logs, records, sent) && logs <= logs' && DecisionsKept(records, records')
    ensures SentOk(logs', records', sent)
  {
    forall t | 0 <= t < |sent| ensures TxOk(logs', records', sent[t]) { TxStays(logs, records, logs', records', sent[t]); }
  }

  lemma WroteStays(logs: seq<Log>, records: map<string, Record>,
                   logs': seq<Log>, records': map<string, Record>, wrote: set<Log>)
    requires WroteOk(logs, records, wrote) && logs <= logs' && DecisionsKept(records, records')
    ensures WroteOk(logs', records', wrote)
  {
    forall l | l in wrote ensures WriteOk(logs', records', l) {
      TxStays(logs, records, logs', records', Tx(l.claimId, l.body.status, l.body.score));
    }
  }

  lemma SubmissionClaimed(logs: seq<Log>, i: nat)
    requires Valid(logs) && i < |logs|
    ensures logs[i].claimId < |State(logs)|
  {
    StateStep(logs, i);
    LifecycleIsMonotone(logs, i + 1, |logs|);
    assert logs[..|logs|] == logs;
  }

  lemma SubmissionsUnique(logs: seq<Log>, a: Log, b: Log)
    requires Valid(logs) && a in logs && b in logs
    requires a.body.Submission? && b.body.Submission? && a.claimId == b.claimId
    ensures a == b
  {
    var i :| 0 <= i < |logs| && logs[i] == a;
    var j :| 0 <= j < |logs| && logs[j] == b;
    SubmissionClaimed(logs, i);
    SubmissionClaimed(logs, j);
    var _ := SubmissionOf(logs, a.claimId);
  }

  lemma SameIdSameLog(logs: seq<Log>, a: Log, b: Log)
    requires Valid(logs) && a in logs && b in logs && a.Id() == b.Id()
    ensures a == b
  {
    var i :| 0 <= i < |logs| && logs[i] == a;
    var j :| 0 <= j < |logs| && logs[j] == b;
    SameIdSameIndex(logs, i, j);
  }

  /** New logs do not touch old rows: their identities are new. */
  lemma RowsStay(logs: seq<Log>, logs': seq<Log>, records: map<string, Record>)
    requires RowsOk(logs, records) && logs <= logs' && Valid(logs')
    ensures RowsOk(logs', records)
  {
    forall id | id in records ensures exists m :: m in logs' && m.body.Submission? && m.Id() == id {
      var m :| m in logs && m.body.Submission? && m.Id() == id;
      assert m in logs';
    }
    forall m | m in logs' && m.body.Submission? ensures RecordOk(logs', records, m) {
      if m.Id() in records {
        var m0 :| m0 in logs && m0.body.Submission? && m0.Id() == m.Id();
        SameIdSameLog(logs', m, m0);
        assert RecordOk(logs, records, m);
        if records[m.Id()].processing == Completed {
          AssessedStays(logs, logs', m.claimId, records[m.Id()].Desired(), records[m.Id()].score);
        }
      }
    }
  }

  // ---------------------------------------------------- the contract's protection

  /** The contract never lets the same decision through twice for one claim: once it
      has been applied, the claim's status can no longer lead back to it. */
  lemma NoSecondWrite(logs: seq<Log>, i: nat, log: Log)
    requires Valid(logs) && i < |logs| && logs[i].body.Assessment?
    requires log.claimId == logs[i].claimId && log.body == logs[i].body
    requires log.body.status == UnderReview || log.body.status == Flagged
    ensures !Accepts(State(logs), log)
  {
    StateStep(logs, i);
    LifecycleIsMonotone(logs, i + 1, |logs|);
    assert logs[..|logs|] == logs;
    NoReturn(State(logs[..i]), logs[i], State(logs), log);
  }

  lemma NoReturn(before: seq<Claim>, first: Log, later: seq<Claim>, log: Log)
    requires Accepts(before, first) && first.body.Assessment? && Keeps(Execute(before, first), later)
    requires log.claimId == first.claimId && log.body == first.body
    requires log.body.status == UnderReview || log.body.status == Flagged
    ensures !Accepts(later, log)
  {
    assert Execute(before, first)[log.claimId].status == log.body.status;
  }

  /** So a new write of the worker is the first for its claim. */
  lemma FirstWrite(logs: seq<Log>, records: map<string, Record>, wrote: set<Log>, log: Log, l: Log)
    requires Valid(logs) && WroteOk(logs, records, wrote) && l in wrote
    requires log.body.Assessment? && TxOk(logs, records, Tx(log.claimId, log.body.status, log.body.score))
    requires Accepts(State(logs), log)
    ensures l.claimId != log.claimId
  {
    assert WriteOk(logs, records, l);
    if l.claimId == log.claimId {
      var a :| a in logs && Carries(records, a, Tx(log.claimId, log.body.status, log.body.score));
      var b :| b in logs && Carries(records, b, Tx(l.claimId, l.body.status, l.body.score));
      SubmissionsUnique(logs, a, b);
      var i :| 0 <= i < |logs| && logs[i] == l;
      NoSecondWrite(logs, i, log);
    }
  }

  lemma WriteIsOnly(logs: seq<Log>, records: map<string, Record>, wrote: set<Log>, log: Log)
    requires Valid(logs) && WroteOk(logs, records, wrote)
    requires log.body.Assessment? && TxOk(logs, records, Tx(log.claimId, log.body.status, log.body.score))
    requires Accepts(State(logs), log)
    ensures WroteOk(logs + [log], records, wrote + {log})
  {
    WroteStays(logs, records, logs + [log], records, wrote);
    TxStays(logs, records, logs + [log], records, Tx(log.claimId, log.body.status, log.body.score));
    assert (logs + [log])[|logs|] == log;
    assert WriteOk(logs + [log], records, log);
    forall a, b | a in wrote + {log} && b in wrote + {log} && a.claimId == b.claimId ensures a == b {
      if a in wrote && b !in wrote { FirstWrite(logs, records, wrote, log, a); }
      if b in wrote && a !in wrote { FirstWrite(logs, records, wrote, log, b); }
    }
  }

  /** A claim past Submitted got its status from an event, and every event carries the
      score fixed by the first one. */
  lemma {:induction false} StatusWasLogged(logs: seq<Log>, c: nat)
    requires Valid(logs) && c < |State(logs)| && State(logs)[c].status != Submitted
    ensures Assessed(logs, c, State(logs)[c].status, State(logs)[c].score)
  {
    var n := |logs| - 1;
    if logs[n].claimId == c && logs[n].body.Assessment? {
      assert logs[n].body == Assessment(State(logs)[c].status, State(logs)[c].score);
    } else {
      StatusWasLogged(logs[..n], c);
      AssessedStays(logs[..n], logs, c, State(logs)[c].status, State(logs)[c].score);
    }
  }

  // ----------------------------------------------------------------- preservation

  lemma LocalsStay(logs: seq<Log>, logs': seq<Log>, records: map<string, Record>, dead: seq<Log>, sent: seq<Tx>, pc: Pc)
    requires LocalsOk(logs, records, dead, sent, pc) && logs <= logs'
    ensures LocalsOk(logs', records, dead, sent, pc)
  {
    if pc.Completing? { AssessedStays(logs, logs', pc.m.claimId, pc.record.Desired(), pc.record.score); }
  }

  /** The chain grows and nothing else but the worker's own bookkeeping of it. */
  lemma ChainGrows(w: World, w': World)
    requires Inv(w) && w.logs <= w'.logs && Valid(w'.logs)
    requires w' == w.(logs := w'.logs, mined := w'.mined, wrote := w'.wrote)
    requires MinedOk(w'.sent, w'.mined, w'.wrote) && WroteOk(w'.logs, w'.records, w'.wrote) && w.wrote <= w'.wrote
    ensures Inv(w') && Grows(w, w')
  {
    QueueStays(w.logs, w'.logs, w.queue);
    RowsStay(w.logs, w'.logs, w.records);
    SentStays(w.logs, w.records, w'.logs, w.records, w.sent);
    LocalsStay(w.logs, w'.logs, w.records, w.dead, w.sent, w.pc);
    if !w.pc.Polling? { KnownStays(w.logs, w'.logs, w.pc.m); }
  }

  lemma GrowKeeps(w: World, more: seq<Log>)
    requires Inv(w) && Valid(w.logs + more)
    ensures Inv(w.(logs := w.logs + more)) && Grows(w, w.(logs := w.logs + more))
  {
    WroteStays(w.logs, w.records, w.logs + more, w.records, w.wrote);
    ChainGrows(w, w.(logs := w.logs + more));
  }

  lemma LogsExtend(logs: seq<Log>, log: Log)
    requires Valid(logs) && Follows(logs, log) && Accepts(State(logs), log)
    ensures Valid(logs + [log])
  {
    assert (logs + [log])[..|logs|] == logs;
  }

  lemma TxIsKnown(w: World, tx: nat)
    requires Inv(w) && tx < |w.sent|
    ensures TxOk(w.logs, w.records, w.sent[tx])
  {
  }

  lemma MinedGrows(sent: seq<Tx>, mined: map<nat, Option<Log>>, wrote: set<Log>, tx: nat, log: Log)
    requires MinedOk(sent, mined, wrote) && tx < |sent| && AssessmentOf(sent[tx], log)
    ensures MinedOk(sent, mined[tx := Some(log)], wrote + {log})
  {
  }

  lemma WriteKeeps(w: World, tx: nat, log: Log)
    requires Inv(w) && Enabled(w, Mine(tx, log)) && Accepts(State(w.logs), log)
    ensures var w' := w.(logs := w.logs + [log], mined := w.mined[tx := Some(log)], wrote := w.wrote + {log});
            Inv(w') && Grows(w, w')
  {
    LogsExtend(w.logs, log);
    TxIsKnown(w, tx);
    WriteIsOnly(w.logs, w.records, w.wrote, log);
    MinedGrows(w.sent, w.mined, w.wrote, tx, log);
    ChainGrows(w, w.(logs := w.logs + [log], mined := w.mined[tx := Some(log)], wrote := w.wrote + {log}));
  }

  lemma MineKeeps(w: World, tx: nat, log: Log)
    requires Inv(w) && Enabled(w, Mine(tx, log))
    ensures Inv(Do(w, Mine(tx, log))) && Grows(w, Do(w, Mine(tx, log)))
  {
    assert log.(claimId := w.sent[tx].claimId, body := Assessment(w.sent[tx].status, w.sent[tx].score)) == log;
    if Reverts(w.logs, w.sent[tx], log) {
      ChainGrows(w, w.(mined := w.mined[tx := None]));
    } else {
      WriteKeeps(w, tx, log);
    }
  }

  lemma EnqueueKeeps(w: World, m: Log)
    requires Inv(w) && Known(w.logs, m)
    ensures Inv(w.(queue := w.queue + [m])) && Grows(w, w.(queue := w.queue + [m]))
  {
  }

  /** One row changes, for the message in hand, and no decision with it. */
  lemma RowChanges(w: World, w': World)
    requires Inv(w) && !w.pc.Polling? && w' == w.(records := w'.records, pc := w'.pc)
    requires DecisionsKept(w.records, w'.records) && RecordOk(w'.logs, w'.records, w.pc.m) && PcOk(w')
    requires forall id :: id in w'.records && id != w.pc.m.Id() ==> id in w.records && w'.records[id] == w.records[id]
    requires IsCompleted(w.records, w.pc.m) ==>
               IsCompleted(w'.records, w.pc.m) || NotDoneBefore(w.dead, w.queue, w.committed, w.pc.m)
    ensures Inv(w') && Grows(w, w')
  {
    var m := w.pc.m;
    KnownIsLogged(w.logs, m);
    forall l | l in w.logs && l.body.Submission? ensures RecordOk(w.logs, w'.records, l) {
      if l.Id() == m.Id() { SameIdSameLog(w.logs, l, m); } else { assert RecordOk(w.logs, w.records, l); }
    }
    forall i | 0 <= i < w.committed ensures Finished(w'.records, w.dead, w.queue[i]) {
      assert Finished(w.records, w.dead, w.queue[i]);
      if w.queue[i].Id() == m.Id() {
        KnownIsLogged(w.logs, w.queue[i]);
        SameIdSameLog(w.logs, w.queue[i], m);
      }
    }
    SentStays(w.logs, w.records, w.logs, w'.records, w.sent);
    WroteStays(w.logs, w.records, w.logs, w'.records, w.wrote);
  }

  lemma SaveKeeps(w: World, replied: bool)
    requires Inv(w) && w.pc.Saving?
    ensures Inv(Do(w, Save(replied))) && Grows(w, Do(w, Save(replied)))
  {
    RowChanges(w, Do(w, Save(replied)));
  }

  lemma CompleteKeeps(w: World, replied: bool)
    requires Inv(w) && w.pc.Completing?
    ensures Inv(Do(w, Complete(replied))) && Grows(w, Do(w, Complete(replied)))
  {
    KnownIsLogged(w.logs, w.pc.m);
    assert RecordOk(w.logs, w.records, w.pc.m);
    CompletedRow(w.logs, w.records, w.pc.m, w.pc.record, w.pc.receipt);
    RowChanges(w, Do(w, Complete(replied)));
  }

  lemma CompletedRow(logs: seq<Log>, records: map<string, Record>, m: Log, r: Record, receipt: Option<Log>)
    requires RecordOk(logs, records, m) && Decided(records, m, r.flagged, r.score)
    requires Assessed(logs, m.claimId, r.Desired(), r.score)
    ensures RecordOk(logs, MarkCompleted(records, m.Id(), receipt), m)
    ensures IsCompleted(MarkCompleted(records, m.Id(), receipt), m)
    ensures DecisionsKept(records, MarkCompleted(records, m.Id(), receipt))
  {
  }

  lemma MarkFailedKeeps(w: World, replied: bool)
    requires Inv(w) && w.pc.Failing?
    ensures Inv(Do(w, MarkFailed(replied))) && Grows(w, Do(w, MarkFailed(replied)))
  {
    KnownIsLogged(w.logs, w.pc.m);
    assert RecordOk(w.logs, w.records, w.pc.m);
    RowChanges(w, Do(w, MarkFailed(replied)));
  }

  lemma QuarantineKeeps(w: World, replied: bool)
    requires Inv(w) && w.pc.Quarantining?
    ensures Inv(Do(w, Quarantine(replied))) && Grows(w, Do(w, Quarantine(replied)))
  {
    var w' := Do(w, Quarantine(replied));
    assert w'.dead[|w.dead|] == w.pc.m;
    assert forall i :: 0 <= i < w.committed ==> Finished(w.records, w.dead, w.queue[i]);
  }

  lemma SendKeeps(w: World)
    requires Inv(w) && w.pc.Sending?
    ensures Inv(Do(w, Send)) && Grows(w, Do(w, Send))
  {
    var w' := Do(w, Send);
    KnownIsLogged(w.logs, w.pc.m);
    assert Carries(w.records, w.pc.m, w'.sent[|w.sent|]);
    assert SentOk(w'.logs, w'.records, w'.sent);
  }

  lemma ReadKeeps(w: World)
    requires Inv(w) && w.pc.Reading?
    ensures Inv(Do(w, Read)) && Grows(w, Do(w, Read))
  {
    assert forall i :: 0 <= i < w.committed ==> Finished(w.records, w.dead, w.queue[i]);
    KnownIsLogged(w.logs, w.pc.m);
    assert RecordOk(w.logs, w.records, w.pc.m);
  }

  lemma LookUpKeeps(w: World)
    requires Inv(w) && Enabled(w, LookUp)
    ensures Inv(Do(w, LookUp)) && Grows(w, Do(w, LookUp))
  {
    if State(w.logs)[w.pc.m.claimId].status != Submitted { StatusWasLogged(w.logs, w.pc.m.claimId); }
  }

  lemma ReceiveKeeps(w: World)
    requires Inv(w) && Enabled(w, Receive)
    ensures Inv(Do(w, Receive)) && Grows(w, Do(w, Receive))
  {
    if w.mined[w.pc.tx].Some? {
      var log := w.mined[w.pc.tx].value;
      WriteAssesses(w.logs, w.records, log);
    }
  }

  lemma WriteAssesses(logs: seq<Log>, records: map<string, Record>, log: Log)
    requires WriteOk(logs, records, log)
    ensures Assessed(logs, log.claimId, log.body.status, log.body.score)
  {
    var i :| 0 <= i < |logs| && logs[i] == log;
  }

  /** The remaining actions move the handler and at most the committed offset. */
  lemma MoveKeeps(w: World, a: Action)
    requires Inv(w) && Enabled(w, a)
    requires a.Stop? || a.Poll? || a.Check? || a.Enrich?
    ensures Inv(Do(w, a)) && Grows(w, Do(w, a))
  {
  }

  lemma ScoreKeeps(w: World, flagged: bool, score: nat)
    requires Inv(w) && w.pc.Scoring? && score <= 10000
    ensures Inv(Do(w, Score(flagged, score))) && Grows(w, Do(w, Score(flagged, score)))
  {
  }

  lemma GiveUpKeeps(w: World)
    requires Inv(w) && Enabled(w, GiveUp)
    ensures Inv(Do(w, GiveUp)) && Grows(w, Do(w, GiveUp))
  {
  }

  lemma OneMoreCommitted(records: map<string, Record>, dead: seq<Log>, queue: seq<Log>, committed: nat)
    requires CommittedOk(records, dead, queue, committed) && committed < |queue|
    requires Finished(records, dead, queue[committed])
    ensures CommittedOk(records, dead, queue, committed + 1)
  {
  }

  lemma CommitKeeps(w: World)
    requires Inv(w) && w.pc.Committing?
    ensures Inv(Do(w, Commit)) && Grows(w, Do(w, Commit))
  {
    OneMoreCommitted(w.records, w.dead, w.queue, w.committed);
  }

  lemma ActionKeeps(w: World, a: Action)
    requires Inv(w) && Enabled(w, a)
    ensures Inv(Do(w, a)) && Grows(w, Do(w, a))
  {
    match a
    case Grow(more) => GrowKeeps(w, more);
    case Enqueue(m) => EnqueueKeeps(w, m);
    case Mine(tx, log) => MineKeeps(w, tx, log);
    case Read => ReadKeeps(w);
    case Save(replied) => SaveKeeps(w, replied);
    case LookUp => LookUpKeeps(w);
    case Send => SendKeeps(w);
    case Receive => ReceiveKeeps(w);
    case Complete(replied) => CompleteKeeps(w, replied);
    case MarkFailed(replied) => MarkFailedKeeps(w, replied);
    case Quarantine(replied) => QuarantineKeeps(w, replied);
    case Score(flagged, score) => ScoreKeeps(w, flagged, score);
    case GiveUp => GiveUpKeeps(w);
    case Commit => CommitKeeps(w);
    case _ => MoveKeeps(w, a);
  }

  lemma NextKeeps(w: World, w': World)
    requires Inv(w) && Next(w, w')
    ensures Inv(w') && Grows(w, w')
  {
    var a :| Enabled(w, a) && w' == Do(w, a);
    ActionKeeps(w, a);
  }

  lemma InitialInv(w: World)
    requires Initial(w)
    ensures Inv(w)
  {
  }

  lemma GrowsTransitive(a: World, b: World, c: World)
    requires Grows(a, b) && Grows(b, c)
    ensures Grows(a, c)
  {
  }

  ghost function Holds(): World -> bool { w => Inv(w) }

  ghost function Order(): (World, World) -> bool { (w, w') => Grows(w, w') }

  lemma InvIsInductive()
    ensures Runs.Inductive(Starts(), Steps(), Holds())
  {
    forall w | Initial(w) ensures Inv(w) { InitialInv(w); }
    forall w, w' | Inv(w) && Next(w, w') ensures Inv(w') { NextKeeps(w, w'); }
  }

  lemma StepsGrow()
    ensures Runs.Monotone(Steps(), Holds(), Order())
  {
    forall w | Inv(w) ensures Grows(w, w) { }
    forall w, w' | Inv(w) && Next(w, w') ensures Grows(w, w') { NextKeeps(w, w'); }
    forall a, b, c | Grows(a, b) && Grows(b, c) ensures Grows(a, c) { GrowsTransitive(a, b, c); }
  }

  lemma RunInv(trace: seq<World>, n: nat)
    requires Run(trace) && n < |trace|
    ensures Inv(trace[n])
  {
    InvIsInductive();
    Runs.RunKeeps(Starts(), Steps(), Holds(), trace, n);
  }

  lemma RunGrows(trace: seq<World>, m: nat, n: nat)
    requires Run(trace) && m <= n < |trace|
    ensures Grows(trace[m], trace[n])
  {
    InvIsInductive();
    StepsGrow();
    Runs.RunGrows(Starts(), Steps(), Holds(), Order(), trace, m, n);
  }

  lemma ReachableInv(trace: seq<World>, w: World)
    requires Reachable(trace, w)
    ensures Inv(w)
  {
    RunInv(trace, |trace| - 1);
  }

  lemma StepExtends(trace: seq<World>, w: World, a: Action)
    requires Reachable(trace, w) && Enabled(w, a)
    ensures Reachable(trace + [Do(w, a)], Do(w, a)) && Grows(w, Do(w, a))
  {
    ReachableInv(trace, w);
    ActionKeeps(w, a);
    assert Next(w, Do(w, a));
    Runs.RunExtends(Starts(), Steps(), trace, Do(w, a));
  }
}
