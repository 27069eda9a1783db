/** The scoring process: consume, handle, quarantine, commit. Run against the shared
    world while the environment interferes, or undisturbed (`quiet`). */
module ScoringWorker {
  import opened Text
  import opened ChainLog
  import opened ClaimIndex
  import opened ScoringSystem

  // ----------------------------------------------- what holds in every reachable state

  /** Once saved, a score never changes, however often the event is redelivered and
      whatever the scorer answers the next time. */
  lemma SavedScoreNeverChanges(trace: seq<World>, i: nat, j: nat, id: string)
    requires Run(trace) && i <= j < |trace| && id in trace[i].records
    ensures id in trace[j].records
    ensures trace[j].records[id].flagged == trace[i].records[id].flagged
    ensures trace[j].records[id].score == trace[i].records[id].score
  {
    RunGrows(trace, i, j);
  }

  /** Every write of the worker carries exactly the saved status and score of the
      claim's submission. */
  lemma WritesCarryTheSavedDecision(trace: seq<World>, w: World, l: Log) returns (m: Log)
    requires Reachable(trace, w) && l in w.wrote
    ensures l in w.logs && m in w.logs && m.body.Submission? && m.claimId == l.claimId
    ensures m.Id() in w.records
    ensures l.body == Assessment(w.records[m.Id()].Desired(), w.records[m.Id()].score)
  {
    ReachableInv(trace, w);
    assert WriteOk(w.logs, w.records, l);
    m :| m in w.logs && Carries(w.records, m, Tx(l.claimId, l.body.status, l.body.score));
  }

  /** However many copies of an event Kafka holds and however many transactions the
      worker sent, the contract executed at most one of them for a claim. */
  lemma AtMostOneWritePerClaim(trace: seq<World>, w: World, a: Log, b: Log)
    requires Reachable(trace, w) && a in w.wrote && b in w.wrote && a.claimId == b.claimId
    ensures a == b
  {
    ReachableInv(trace, w);
  }

  /** A completed row is backed by chain history. */
  lemma CompletedIsOnChain(trace: seq<World>, w: World, m: Log)
    requires Reachable(trace, w) && m in w.logs && m.body.Submission? && IsCompleted(w.records, m)
    ensures Assessed(w.logs, m.claimId, w.records[m.Id()].Desired(), w.records[m.Id()].score)
    ensures w.records[m.Id()].claimId == m.claimId
  {
    ReachableInv(trace, w);
    assert RecordOk(w.logs, w.records, m);
  }

  /** The store alone protects a decision exactly from completion on: while a row is
      unfinished, a second save with another answer replaces it. That no run of one
      handler does so is because it saves only where it read no row. */
  lemma StoreProtectsExactlyCompleted(records: map<string, Record>, id: string)
    requires id in records
    ensures (forall r :: Desired(SaveScored(records, id, r), id) == Desired(records, id))
            <==> records[id].processing == Completed
  {
    var other := Record(records[id].claimId, !records[id].flagged, 0, Scored, None);
    assert id in SaveScored(records, id, other);
    assert Desired(SaveScored(records, id, other), id) == Desired(records, id) ==> records[id].processing == Completed;
  }

  /** The decision stored under an identity. */
  function Desired(records: map<string, Record>, id: string): Option<(bool, nat)> {
    if id in records then Some((records[id].flagged, records[id].score)) else None
  }

  /** Every committed message is completed or dead-lettered, and stays so. */
  lemma CommittedIsFinished(trace: seq<World>, w: World, i: nat)
    requires Reachable(trace, w) && i < w.committed
    ensures i < |w.queue| && Finished(w.records, w.dead, w.queue[i])
  {
    ReachableInv(trace, w);
  }

  // ---------------------------------------------------- the next block of the chain

  function Longest(logs: seq<Log>): (n: nat)
    ensures forall i :: 0 <= i < |logs| ==> |logs[i].tx| <= n
  {
    if logs == [] then 0
    else
      var n, last := Longest(logs[..|logs| - 1]), |logs[|logs| - 1].tx|;
      if n < last then last else n
  }

  function TopBlock(logs: seq<Log>): (n: nat)
    ensures forall i :: 0 <= i < |logs| ==> logs[i].pos.block <= n
  {
    if logs == [] then 0
    else
      var n, last := TopBlock(logs[..|logs| - 1]), logs[|logs| - 1].pos.block;
      if n < last then last else n
  }

  /** The log a transaction emits when it is mined alone in the next block. */
  function NextLog(logs: seq<Log>, tx: Tx): Log {
    Log(0, Position(TopBlock(logs) + 1, 0), seq(Longest(logs) + 1, _ => 'f'), tx.claimId, 0,
        Assessment(tx.status, tx.score))
  }

  lemma NextLogFollows(logs: seq<Log>, tx: Tx)
    ensures Follows(logs, NextLog(logs, tx)) && AssessmentOf(tx, NextLog(logs, tx))
  {
    var log := NextLog(logs, tx);
    forall i | 0 <= i < |logs| ensures Lower(logs[i].tx) != Lower(log.tx) {
      assert |Lower(logs[i].tx)| < |Lower(log.tx)|;
    }
  }

  /** The claim still waits for its first assessment. */
  predicate Open(logs: seq<Log>, c: nat) {
    ChainLog.Valid(logs) && c < |State(logs)| && State(logs)[c].status == Submitted
  }

  /** A transaction of the worker for claim `c` was sent and not yet executed. */
  predicate Pending(sent: seq<Tx>, mined: map<nat, Option<Log>>, c: nat) {
    exists i :: 0 <= i < |sent| && i !in mined && sent[i].claimId == c
  }

  /** Nothing stands between message `m` and its commit: it is completed already, or
      rejected, or its claim is assessed, or no earlier transaction comes first. */
  predicate Clear(w: World, m: Log, good: bool) {
    IsCompleted(w.records, m) || !good || !Open(w.logs, m.claimId) || !Pending(w.sent, w.mined, m.claimId)
  }

  lemma PendingStep(sent: seq<Tx>, mined: map<nat, Option<Log>>, c: nat, i: nat)
    requires i < |sent|
    ensures Pending(sent[..i + 1], mined, c) <==> Pending(sent[..i], mined, c) || (i !in mined && sent[i].claimId == c)
  {
    var longer, shorter := sent[..i + 1], sent[..i];
    assert forall j :: 0 <= j < i ==> longer[j] == shorter[j];
    assert longer[i] == sent[i];
    if Pending(shorter, mined, c) {
      var j :| 0 <= j < |shorter| && j !in mined && shorter[j].claimId == c;
      assert longer[j].claimId == c;
    }
  }

  /** Every transaction for a claim carries the one decision saved for it. */
  lemma SameClaimSameTx(w: World, i: nat, j: nat)
    requires Inv(w) && i < |w.sent| && j < |w.sent| && w.sent[i].claimId == w.sent[j].claimId
    ensures w.sent[i] == w.sent[j]
  {
    TxIsKnown(w, i);
    TxIsKnown(w, j);
    var a :| a in w.logs && Carries(w.records, a, w.sent[i]);
    var b :| b in w.logs && Carries(w.records, b, w.sent[j]);
    SubmissionsUnique(w.logs, a, b);
  }

  /** A transaction carries one of the two decisions of the automated model. */
  lemma TxIsBounded(w: World, i: nat)
    requires Inv(w) && i < |w.sent|
    ensures w.sent[i].score <= 10000 && (w.sent[i].status == UnderReview || w.sent[i].status == Flagged)
  {
    TxIsKnown(w, i);
    var m :| m in w.logs && Carries(w.records, m, w.sent[i]);
    assert RecordOk(w.logs, w.records, m);
  }

  lemma AppliedTo(logs: seq<Log>, log: Log, c: nat)
    requires ChainLog.Valid(logs) && Follows(logs, log) && Accepts(State(logs), log)
    requires log.body.Assessment? && c < |State(logs)|
    ensures ChainLog.Valid(logs + [log]) && c < |State(logs + [log])|
    ensures log.claimId != c ==> State(logs + [log])[c] == State(logs)[c]
    ensures log.claimId == c ==> State(logs + [log])[c].status == log.body.status
  {
    LogsExtend(logs, log);
    assert (logs + [log])[..|logs|] == logs;
  }

  /** What executing transaction `i` does to claim `c`: nothing if it is for another
      claim, the assessment if the claim is open, a revert if it was applied before. */
  lemma MineEffect(w: World, i: nat, log: Log, c: nat)
    requires Inv(w) && Enabled(w, Mine(i, log)) && c < |State(w.logs)|
    ensures var w' := Do(w, Mine(i, log));
            && ChainLog.Valid(w'.logs) && c < |State(w'.logs)|
            && (w.sent[i].claimId != c ==> State(w'.logs)[c] == State(w.logs)[c])
            && (w.sent[i].claimId == c && State(w.logs)[c].status == Submitted ==>
                  w'.mined[i].Some? && State(w'.logs)[c].status == w.sent[i].status)
            && (w.sent[i].claimId == c && State(w.logs)[c].status == w.sent[i].status ==>
                  w'.mined[i].None? && w'.logs == w.logs)
  {
    TxIsBounded(w, i);
    AcceptedIff(State(w.logs), w.sent[i], log, c);
    if Accepts(State(w.logs), log) {
      AppliedTo(w.logs, log, c);
    }
  }

  lemma AcceptedIff(claims: seq<Claim>, tx: Tx, log: Log, c: nat)
    requires AssessmentOf(tx, log) && c < |claims| && tx.score <= 10000
    requires tx.status == UnderReview || tx.status == Flagged
    ensures log.(claimId := tx.claimId, body := Assessment(tx.status, tx.score)) == log
    ensures tx.claimId == c && claims[c].status == Submitted ==> Accepts(claims, log)
    ensures tx.claimId == c && claims[c].status == tx.status ==> !Accepts(claims, log)
  {
  }

  /** Where the chain stands with claim `c` in `now`, having executed the transactions
      below `i` that `w` had left. */
  predicate Executed(w: World, now: World, i: nat, c: nat, status: Status)
    requires i <= |w.sent|
  {
    && now == w.(logs := now.logs, mined := now.mined, wrote := now.wrote)
    && (forall j :: i <= j < |w.sent| ==> (j in now.mined <==> j in w.mined))
    && ChainLog.Valid(now.logs) && c < |State(now.logs)|
    && State(now.logs)[c].status == if Pending(w.sent[..i], w.mined, c) then status else Submitted
  }

  lemma ExecutedStep(w: World, now: World, i: nat, log: Log, c: nat, tx: nat)
    requires i <= tx < |w.sent| && w.sent[tx].claimId == c && i !in w.mined
    requires Inv(now) && Executed(w, now, i, c, w.sent[tx].status) && Enabled(now, Mine(i, log))
    ensures Executed(w, Do(now, Mine(i, log)), i + 1, c, w.sent[tx].status)
    ensures w.sent[i].claimId == c ==> (Do(now, Mine(i, log)).mined[i].Some? <==> !Pending(w.sent[..i], w.mined, c))
  {
    PendingStep(w.sent, w.mined, c, i);
    TxIsBounded(now, tx);
    MineEffect(now, i, log, c);
    if w.sent[i].claimId == c {
      SameClaimSameTx(now, i, tx);
    }
  }

  // ------------------------------------------------------------------- the process

  /** What decides where consumption stands. */
  function Offsets(w: World): (seq<Log>, nat, seq<Log>) { (w.queue, w.committed, w.dead) }

  datatype Outcome = Succeeded | PermanentError | RetryableError

  /** What the scorer would answer now: whether to flag the claim, and its score. */
  datatype Answer = Answer(flagged: bool, score: nat)

  /** The decision on record for `m` after a turn: the old one if there was one, and the
      scorer's answer if there was not. */
  predicate DecidedAs(before: map<string, Record>, after: map<string, Record>, m: Log, answer: Answer) {
    m.Id() in after &&
    if m.Id() in before then
      after[m.Id()].flagged == before[m.Id()].flagged && after[m.Id()].score == before[m.Id()].score
    else after[m.Id()].flagged == answer.flagged && after[m.Id()].score == answer.score
  }

  class Worker {
    var world: World
    ghost var trace: seq<World>

    ghost predicate Valid()
      reads this
    {
      Reachable(trace, world)
    }

    constructor (world: World)
      requires Initial(world)
      ensures Valid() && this.world == world
    {
      this.world, this.trace := world, [world];
    }

    method Step(a: Action)
      requires Valid() && Enabled(world, a)
      modifies this
      ensures Valid() && world == Do(old(world), a) && old(trace) <= trace
    {
      StepExtends(trace, world, a);
      world := Do(world, a);
      trace := trace + [world];
    }

    /** Other assessors, new submissions and late transactions: unless the run is
        quiet, a caller knows no more of the world afterwards than this says. */
    method Others(quiet: bool)
      requires Valid()
      modifies this
      ensures Valid() && old(trace) <= trace && world.pc == old(world).pc
      ensures quiet ==> world == old(world)
    {
    }

    /** An effect that can fail before it happens, unless the run is quiet. */
    method Survives(quiet: bool) returns (ok: bool)
      ensures quiet ==> ok
    {
      ok := *;
      ok := ok || quiet;
    }

    /** A durable effect: done and acknowledged, done with the acknowledgement lost, or
        not done at all. */
    method Attempt(quiet: bool, done: Action, lost: Action, skipped: Action) returns (ok: bool)
      requires Valid() && Enabled(world, done) && Enabled(world, lost) && Enabled(world, skipped)
      modifies this
      ensures Valid() && old(trace) <= trace && (quiet ==> ok)
      ensures ok ==> world == Do(old(world), done)
      ensures !ok ==> world == Do(old(world), lost) || world == Do(old(world), skipped)
    {
      ok := Survives(quiet);
      if ok {
        Step(done);
      } else {
        var reached: bool := *;
        Step(if reached then lost else skipped);
      }
    }

    /** The exception path of the chain-write block: `mark_failed`, then re-raise. A
        conflict is reported as permanent only if the row could be marked. */
    method FailWrite(quiet: bool) returns (r: Outcome)
      requires Valid() && world.pc.Failing?
      modifies this
      ensures Valid() && old(trace) <= trace
      ensures r != Succeeded
      ensures r.PermanentError? ==> old(world).pc.permanent && world.pc == Quarantining(old(world).pc.m)
      ensures r.RetryableError? ==> world.pc == Polling
      ensures quiet ==>
                (r.PermanentError? <==> old(world).pc.permanent)
                && world == old(world).(records := MarkedFailed(old(world).records, old(world).pc.m.Id()), pc := world.pc)
    {
      var permanent := world.pc.permanent;
      var replied := Attempt(quiet, MarkFailed(true), MarkFailed(false), Stop);
      r := if replied && permanent then PermanentError else RetryableError;
    }

    lemma FreshTransaction()
      requires Valid()
      ensures |world.sent| !in world.mined
    {
      ReachableInv(trace, world);
    }

    /** Transaction `i` is executed: in any later block, next to anything, with any
        hash, by whatever log the contract emits there for it. */
    method MineNext(i: nat) returns (log: Log)
      requires Valid() && i < |world.sent| && i !in world.mined
      modifies this
      ensures Valid() && old(trace) <= trace
      ensures Enabled(old(world), Mine(i, log)) && world == Do(old(world), Mine(i, log))
    {
      ReachableInv(trace, world);
      log := *;
      if !(Follows(world.logs, log) && AssessmentOf(world.sent[i], log)) {
        log := NextLog(world.logs, world.sent[i]);
        NextLogFollows(world.logs, world.sent[i]);
      }
      Step(Mine(i, log));
    }

    /** An account's transactions are executed in nonce order. */
    method MineInOrder(i: nat, ghost w: World, ghost c: nat, ghost tx: nat)
      requires Valid() && i <= tx < |w.sent| && w.sent[tx].claimId == c && Executed(w, world, i, c, w.sent[tx].status)
      modifies this
      ensures Valid() && old(trace) <= trace && Executed(w, world, i + 1, c, w.sent[tx].status) && i in world.mined
      ensures i !in w.mined && w.sent[i].claimId == c ==>
                (world.mined[i].Some? <==> !Pending(w.sent[..i], w.mined, c))
    {
      PendingStep(w.sent, w.mined, c, i);
      ReachableInv(trace, world);
      if i !in world.mined {
        ghost var before := world;
        var log := MineNext(i);
        ExecutedStep(w, before, i, log, c, tx);
      }
    }

    /** The chain's turn: in a quiet run it executes the transaction just sent, after
        every transaction sent before it. */
    method Confirm(quiet: bool)
      requires Valid() && world.pc.Awaiting? && world.pc.tx + 1 == |world.sent| && world.pc.tx !in world.mined
      requires world.sent[world.pc.tx].claimId == world.pc.m.claimId
      requires quiet ==> Open(world.logs, world.pc.m.claimId)
      modifies this
      ensures Valid() && old(trace) <= trace && world.pc == old(world).pc
      ensures quiet ==> Offsets(world) == Offsets(old(world)) && world.records == old(world).records
      ensures quiet ==>
                world.pc.tx in world.mined
                && (world.mined[world.pc.tx].Some?
                    <==> !Pending(old(world).sent[..world.pc.tx], old(world).mined, world.pc.m.claimId))
      ensures quiet ==> !Open(world.logs, world.pc.m.claimId)
    {
      Others(quiet);
      if quiet {
        ghost var w, c := world, world.pc.m.claimId;
        var tx := world.pc.tx;
        ReachableInv(trace, world);
        TxIsBounded(world, tx);
        for i := 0 to tx
          invariant Valid() && old(trace) <= trace && Executed(w, world, i, c, w.sent[tx].status)
        {
          MineInOrder(i, w, c, tx);
        }
        MineInOrder(tx, w, c, tx);
        PendingStep(w.sent, w.mined, c, tx);
      }
    }

    /** `assess_claim`: sign, send, wait for the receipt. A timeout leaves the
        transaction behind, to be executed whenever the chain pleases, and always
        before any transaction the worker sends later. */
    method AssessClaim(quiet: bool) returns (ok: bool)
      requires Valid() && world.pc.Sending?
      requires quiet ==> Open(world.logs, world.pc.m.claimId)
      modifies this
      ensures Valid() && old(trace) <= trace
      ensures ok ==> world.pc.Completing? && world.pc.m == old(world).pc.m && world.pc.record == old(world).pc.record
      ensures ok ==> world.pc.receipt.Some? && world.pc.receipt.value in world.wrote
      ensures !ok ==> world.pc == Failing(old(world).pc.m, false)
      ensures quiet ==> Offsets(world) == Offsets(old(world)) && world.records == old(world).records
      ensures quiet ==> (ok <==> !Pending(old(world).sent, old(world).mined, old(world).pc.m.claimId))
      ensures quiet ==> !Open(world.logs, old(world).pc.m.claimId)
    {
      var signed := Survives(quiet);
      if !signed {
        Step(GiveUp);
        return false;
      }
      FreshTransaction();
      Step(Send);
      assert world.sent[..|old(world).sent|] == old(world).sent;
      Confirm(quiet);
      if world.pc.tx !in world.mined {
        Step(GiveUp);
        return false;
      }
      ReceiptIsOwn(world.pc.tx);
      Step(Receive);
      ok := world.pc.Completing?;
    }

    lemma ReceiptIsOwn(tx: nat)
      requires Valid() && tx in world.mined
      ensures world.mined[tx].Some? ==> world.mined[tx].value in world.wrote
    {
      ReachableInv(trace, world);
    }

    /** Before the chain write: authorization, duplicate check, features, and a score
        that is durable before any transaction is signed. Whether the bytes behind the
        message pass is `good`. */
    method Prepare(quiet: bool, good: bool, answer: Answer) returns (r: Outcome)
      requires Valid() && world.pc.Verifying? && answer.score <= 10000
      modifies this
      ensures Valid() && old(trace) <= trace
      ensures r.Succeeded? ==> world.pc.Deciding? && world.pc.m == old(world).pc.m
      ensures r.PermanentError? ==> world.pc == Quarantining(old(world).pc.m) && !good
      ensures r.RetryableError? ==> world.pc == Polling
      ensures quiet ==> (r.PermanentError? <==> !good) && (r.Succeeded? <==> good)
      ensures quiet ==> world == old(world).(records := world.records, pc := world.pc)
      ensures quiet && !good ==> world.records == old(world).records
      ensures quiet && good ==> DecidedAs(old(world).records, world.records, old(world).pc.m, answer)
    {
      FoundAsRead();
      var hashMatches := Survives(quiet);
      if !hashMatches {
        Step(Stop);
        return RetryableError;
      }
      Step(Check(good));
      if !good {
        return PermanentError;
      }
      Others(quiet);
      var enriched := Survives(quiet);
      if !enriched {
        Step(Stop);
        return RetryableError;
      }
      Step(Enrich);
      if world.pc.Scoring? {
        var saved := ScoreAndSave(quiet, answer);
        if !saved {
          return RetryableError;
        }
      }
      r := Succeeded;
    }

    /** The handler read a row exactly if there is one. */
    lemma FoundAsRead()
      requires Valid() && world.pc.Verifying?
      ensures world.pc.found.Some? <==> world.pc.m.Id() in world.records
    {
      ReachableInv(trace, world);
    }

    lemma NotYetScored()
      requires Valid() && world.pc.Scoring?
      ensures world.pc.m.Id() !in world.records
    {
      ReachableInv(trace, world);
    }

    /** The scorer may answer anything, and differently on every attempt; what it answers
        is what is saved. */
    method ScoreAndSave(quiet: bool, answer: Answer) returns (saved: bool)
      requires Valid() && world.pc.Scoring? && answer.score <= 10000
      modifies this
      ensures Valid() && old(trace) <= trace
      ensures saved ==> world.pc.Deciding? && world.pc.m == old(world).pc.m
      ensures saved ==> DecidedAs(map[], world.records, old(world).pc.m, answer)
                        && world.pc.record.flagged == answer.flagged && world.pc.record.score == answer.score
      ensures !saved ==> world.pc == Polling
      ensures quiet ==> saved && world == old(world).(records := world.records, pc := world.pc)
      ensures old(world).pc.m.Id() !in old(world).records
    {
      NotYetScored();
      Step(Score(answer.flagged, answer.score));
      saved := Attempt(quiet, Save(true), Save(false), Stop);
    }

    /** The handler: every durable effect in the order the worker performs it. */
    method Handle(quiet: bool, good: bool, answer: Answer) returns (r: Outcome)
      requires Valid() && world.pc.Reading? && answer.score <= 10000
      modifies this
      ensures Valid() && old(trace) <= trace
      ensures r.Succeeded? ==> world.pc == Committing(old(world).pc.m)
      ensures r.PermanentError? ==> world.pc == Quarantining(old(world).pc.m)
      ensures r.RetryableError? ==> world.pc == Polling
      ensures quiet ==> Offsets(world) == Offsets(old(world))
      ensures quiet ==> (r.RetryableError? <==> !Clear(old(world), old(world).pc.m, good))
      ensures quiet && r.RetryableError? ==>
                !IsCompleted(world.records, old(world).pc.m) && !Open(world.logs, old(world).pc.m.claimId)
      ensures quiet && good ==> DecidedAs(old(world).records, world.records, old(world).pc.m, answer)
    {
      var answered := Survives(quiet);
      if !answered {
        Step(Stop);
        return RetryableError;
      }
      Step(Read);
      if world.pc.Committing? {
        return Succeeded;
      }
      Others(quiet);
      r := HandleUnfinished(quiet, good, answer);
    }

    /** The rest of the handler, for a row that is not completed. */
    method HandleUnfinished(quiet: bool, good: bool, answer: Answer) returns (r: Outcome)
      requires Valid() && world.pc.Verifying? && answer.score <= 10000
      modifies this
      ensures Valid() && old(trace) <= trace
      ensures r.Succeeded? ==> world.pc == Committing(old(world).pc.m)
      ensures r.PermanentError? ==> world.pc == Quarantining(old(world).pc.m)
      ensures r.RetryableError? ==> world.pc == Polling
      ensures quiet ==> Offsets(world) == Offsets(old(world))
      ensures quiet ==>
                (r.RetryableError?
                 <==> good && Open(old(world).logs, old(world).pc.m.claimId)
                      && Pending(old(world).sent, old(world).mined, old(world).pc.m.claimId))
      ensures quiet && r.RetryableError? ==>
                !IsCompleted(world.records, old(world).pc.m) && !Open(world.logs, old(world).pc.m.claimId)
      ensures quiet && good ==> DecidedAs(old(world).records, world.records, old(world).pc.m, answer)
    {
      r := Prepare(quiet, good, answer);
      if r == Succeeded {
        Others(quiet);
        r := WriteBack(quiet);
      }
    }

    /** The chain-write block: look the claim up, then assess, reconcile or refuse. */
    method WriteBack(quiet: bool) returns (r: Outcome)
      requires Valid() && world.pc.Deciding?
      modifies this
      ensures Valid() && old(trace) <= trace
      ensures r.Succeeded? ==> world.pc == Committing(old(world).pc.m)
      ensures r.PermanentError? ==> world.pc == Quarantining(old(world).pc.m)
      ensures r.RetryableError? ==> world.pc == Polling
      ensures quiet ==> Offsets(world) == Offsets(old(world))
      ensures quiet ==>
                ChainLog.Valid(old(world).logs) && old(world).pc.m.claimId < |State(old(world).logs)| &&
                var c, record := State(old(world).logs)[old(world).pc.m.claimId], old(world).pc.record;
                var pending := Pending(old(world).sent, old(world).mined, old(world).pc.m.claimId);
                && (r.RetryableError? <==> c.status == Submitted && pending)
                && (r.PermanentError? <==> c.status != Submitted && !(c.status == record.Desired() && c.score == record.score))
                && (r.Succeeded? ==>
                      IsCompleted(world.records, old(world).pc.m) &&
                      var receipt := world.records[old(world).pc.m.Id()].receipt;
                      if c.status == Submitted then receipt.Some? && receipt.value in world.wrote
                      else receipt == record.receipt)
      ensures quiet && r.RetryableError? ==>
                !IsCompleted(world.records, old(world).pc.m) && !Open(world.logs, old(world).pc.m.claimId)
      ensures quiet ==> DecisionsKept(old(world).records, world.records)
    {
      ClaimExists();
      var answered := Survives(quiet);
      if !answered {
        Step(GiveUp);
        r := FailWrite(quiet);
        return;
      }
      Step(LookUp);
      r := Settle(quiet);
    }

    /** What follows from the claim just read: refuse, or assess if need be and complete. */
    method Settle(quiet: bool) returns (r: Outcome)
      requires Valid() && (world.pc.Failing? || world.pc.Sending? || world.pc.Completing?)
      requires quiet && world.pc.Failing? ==> world.pc.permanent
      requires quiet && world.pc.Sending? ==> Open(world.logs, world.pc.m.claimId)
      modifies this
      ensures Valid() && old(trace) <= trace
      ensures r.Succeeded? ==> world.pc == Committing(old(world).pc.m)
      ensures r.PermanentError? ==> world.pc == Quarantining(old(world).pc.m)
      ensures r.RetryableError? ==> world.pc == Polling
      ensures quiet ==> Offsets(world) == Offsets(old(world))
      ensures quiet ==> (r.PermanentError? <==> old(world).pc.Failing?)
      ensures quiet ==>
                (r.RetryableError?
                 <==> old(world).pc.Sending? && Pending(old(world).sent, old(world).mined, old(world).pc.m.claimId))
      ensures quiet && r.RetryableError? ==>
                !IsCompleted(world.records, old(world).pc.m) && !Open(world.logs, old(world).pc.m.claimId)
      ensures quiet ==> DecisionsKept(old(world).records, world.records)
      ensures r.Succeeded? ==> IsCompleted(world.records, old(world).pc.m)
      ensures r.Succeeded? && old(world).pc.Sending? ==>
                var receipt := world.records[old(world).pc.m.Id()].receipt;
                receipt.Some? && receipt.value in world.wrote
      ensures r.Succeeded? && old(world).pc.Completing? ==>
                world.records[old(world).pc.m.Id()].receipt == old(world).pc.receipt
    {
      if world.pc.Failing? {
        r := FailWrite(quiet);
        return;
      }
      if world.pc.Sending? {
        var ok := AssessClaim(quiet);
        if !ok {
          r := FailWrite(quiet);
          return;
        }
      }
      r := CompleteRow(quiet);
    }

    lemma RowIsThere()
      requires Valid() && world.pc.Completing?
      ensures world.pc.m.Id() in world.records
    {
      ReachableInv(trace, world);
    }

    /** `mark_completed`, with the receipt in hand. */
    method CompleteRow(quiet: bool) returns (r: Outcome)
      requires Valid() && world.pc.Completing?
      modifies this
      ensures Valid() && old(trace) <= trace && (quiet ==> r.Succeeded?) && !r.PermanentError?
      ensures r.Succeeded? ==>
                && world == old(world).(records := world.records, pc := Committing(old(world).pc.m))
                && IsCompleted(world.records, old(world).pc.m)
                && world.records[old(world).pc.m.Id()].receipt == old(world).pc.receipt
                && DecisionsKept(old(world).records, world.records)
      ensures r.RetryableError? ==> world.pc == Polling
    {
      RowIsThere();
      var completed := Attempt(quiet, Complete(true), Complete(false), GiveUp);
      if !completed {
        r := FailWrite(quiet);
        return;
      }
      r := Succeeded;
    }

    lemma ClaimExists()
      requires Valid() && !world.pc.Polling?
      ensures ChainLog.Valid(world.logs) && world.pc.m.claimId < |State(world.logs)|
    {
      ReachableInv(trace, world);
      var i :| 0 <= i < |world.logs| && world.logs[i] == world.pc.m;
      SubmissionClaimed(world.logs, i);
    }

    lemma ReadyToCommit()
      requires Valid() && world.pc.Committing?
      ensures world.committed < |world.queue| && world.pc.m == world.queue[world.committed]
      ensures Finished(world.records, world.dead, world.pc.m)
    {
      ReachableInv(trace, world);
    }

    /** `process_next` around the quarantining handler: commit only after the handler
        returned, and let it return on a permanent error only after recording it. An
        undisturbed turn gets past the next message exactly when the message is clear,
        from whatever state earlier crashes and assessors left. A turn that does not
        leaves the message clear for the next one. */
    method ProcessNext(quiet: bool, good: bool, answer: Answer) returns (polled: bool)
      requires Valid() && world.pc.Polling? && answer.score <= 10000
      modifies this
      ensures Valid() && old(trace) <= trace && world.pc.Polling?
      ensures quiet && old(world).committed < |old(world).queue| ==>
                var m := old(world).queue[old(world).committed];
                if Clear(old(world), m, good) then
                  world.queue == old(world).queue && world.committed == old(world).committed + 1
                  && Finished(world.records, world.dead, m)
                else
                  Offsets(world) == Offsets(old(world)) && !IsCompleted(world.records, m)
                  && !Open(world.logs, m.claimId)
      ensures quiet && good && old(world).committed < |old(world).queue| ==>
                DecidedAs(old(world).records, world.records, old(world).queue[old(world).committed], answer)
    {
      Others(quiet);
      if world.committed >= |world.queue| {
        return false;
      }
      Step(Poll);
      var r := Handle(quiet, good, answer);
      Finish(quiet, r);
      return true;
    }

    /** Quarantine what was refused, and commit what is finished. */
    method Finish(quiet: bool, r: Outcome)
      requires Valid()
      requires r.Succeeded? ==> world.pc.Committing?
      requires r.PermanentError? ==> world.pc.Quarantining?
      requires r.RetryableError? ==> world.pc == Polling
      modifies this
      ensures Valid() && old(trace) <= trace && world.pc.Polling?
      ensures r.RetryableError? ==> world == old(world)
      ensures quiet && !r.RetryableError? ==>
                world.queue == old(world).queue && world.committed == old(world).committed + 1 <= |world.queue|
                && Finished(world.records, world.dead, world.queue[old(world).committed])
      ensures quiet ==> world.records == old(world).records
    {
      if r == PermanentError {
        var recorded := Attempt(quiet, ScoringSystem.Action.Quarantine(true), ScoringSystem.Action.Quarantine(false), Stop);
      }
      if world.pc.Committing? {
        ReadyToCommit();
        var committed := Survives(quiet);
        Step(if committed then Commit else Stop);
      }
    }

    /** From every reachable state two undisturbed turns get past the next message. */
    method RecoverInTwo(good: bool, answer: Answer)
      requires Valid() && world.pc.Polling? && world.committed < |world.queue| && answer.score <= 10000
      modifies this
      ensures Valid() && old(trace) <= trace && world.pc.Polling? && world.queue == old(world).queue
      ensures world.committed == old(world).committed + 1
      ensures Finished(world.records, world.dead, old(world).queue[old(world).committed])
    {
      var committed := world.committed;
      var polled := ProcessNext(true, good, answer);
      if world.committed == committed {
        polled := ProcessNext(true, good, answer);
      }
    }

    /** Restarting and consuming, for as many polls as come before shutdown. */
    method RunUntilShutdown(polls: nat)
      requires Valid()
      modifies this
      ensures Valid() && old(trace) <= trace
    {
      Step(Stop);
      for i := 0 to polls
        invariant Valid() && old(trace) <= trace && world.pc.Polling?
      {
        var good: bool, flagged: bool, score: nat := *, *, *;
        var _ := ProcessNext(false, good, Answer(flagged, if score > 10000 then 10000 else score));
      }
    }
  }
}
