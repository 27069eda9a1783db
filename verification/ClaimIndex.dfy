/** The PostgreSQL projection of the confirmed log: the append-only audit table, the
    mutable claims table guarded by position comparisons, and the checkpoint. */
module ClaimIndex {
  import opened Text
  import opened ChainLog

  datatype Option<+T> = None | Some(value: T)

  datatype AuditRow = AuditRow(claimId: nat, submission: bool, pos: Position, tx: string,
                               time: nat, status: Status, score: nat)

  datatype ClaimRow = ClaimRow(claimant: string, claimHash: string, pointer: string,
                               status: Status, score: nat, submittedAt: nat, updatedAt: nat,
                               submissionBlock: nat, submissionTx: string,
                               stateBlock: nat, stateIndex: nat, stateEventId: string)

  datatype Tables = Tables(events: map<string, AuditRow>, claims: map<nat, ClaimRow>,
                           checkpoint: Option<nat>)

  const EMPTY := Tables(map[], map[], None)

  function StatusOf(log: Log): Status {
    if log.body.Submission? then Submitted else log.body.status
  }

  function ScoreOf(log: Log): nat {
    if log.body.Submission? then 0 else log.body.score
  }

  function AuditOf(log: Log): AuditRow {
    AuditRow(log.claimId, log.body.Submission?, log.pos, Lower(log.tx), log.time, StatusOf(log), ScoreOf(log))
  }

  /** `INSERT ... ON CONFLICT (event_id) DO NOTHING`. */
  function RecordEvent(events: map<string, AuditRow>, log: Log): map<string, AuditRow> {
    if log.Id() in events then events else events[log.Id() := AuditOf(log)]
  }

  /** SQL's row comparison `(b1, i1) >= (b2, i2)`. */
  predicate AtOrAfter(b1: nat, i1: nat, b2: nat, i2: nat) {
    b1 > b2 || (b1 == b2 && i1 >= i2)
  }

  function NewRow(log: Log): ClaimRow
    requires log.body.Submission?
  {
    ClaimRow(log.body.claimant, Lower(log.body.claimHash), log.body.pointer, Submitted, 0, log.time, log.time,
             log.pos.block, Lower(log.tx), log.pos.block, log.pos.index, log.Id())
  }

  /** The `DO UPDATE` arm, column by column, of the submission upsert. */
  function MergeRow(row: ClaimRow, new_: ClaimRow): ClaimRow {
    var newer := AtOrAfter(new_.stateBlock, new_.stateIndex, row.stateBlock, row.stateIndex);
    ClaimRow(
      new_.claimant, new_.claimHash, new_.pointer,
      if newer then new_.status else row.status,
      if newer then new_.score else row.score,
      new_.submittedAt,
      if newer then new_.updatedAt else row.updatedAt,
      new_.submissionBlock, new_.submissionTx,
      if row.stateBlock >= new_.stateBlock then row.stateBlock else new_.stateBlock,
      if new_.stateBlock > row.stateBlock then new_.stateIndex
      else if new_.stateBlock == row.stateBlock then
        if row.stateIndex >= new_.stateIndex then row.stateIndex else new_.stateIndex
      else row.stateIndex,
      if newer then new_.stateEventId else row.stateEventId)
  }

  function IndexSubmitted(t: Tables, log: Log): Tables
    requires log.body.Submission?
  {
    var c := log.claimId;
    var row := if c in t.claims then MergeRow(t.claims[c], NewRow(log)) else NewRow(log);
    t.(events := RecordEvent(t.events, log), claims := t.claims[c := row])
  }

  /** None is the "missing an earlier ClaimSubmitted" error, which rolls back. */
  function IndexAssessed(t: Tables, log: Log): Option<Tables>
    requires log.body.Assessment?
  {
    var c := log.claimId;
    var events := RecordEvent(t.events, log);
    if c !in t.claims then None
    else if AtOrAfter(log.pos.block, log.pos.index, t.claims[c].stateBlock, t.claims[c].stateIndex) then
      Some(t.(events := events, claims := t.claims[c := Reassess(t.claims[c], log)]))
    else Some(t.(events := events))
  }

  function Reassess(row: ClaimRow, log: Log): ClaimRow
    requires log.body.Assessment?
  {
    row.(status := log.body.status, score := log.body.score, updatedAt := log.time,
         stateBlock := log.pos.block, stateIndex := log.pos.index, stateEventId := log.Id())
  }

  function Index(t: Tables, log: Log): Option<Tables> {
    if log.body.Submission? then Some(IndexSubmitted(t, log)) else IndexAssessed(t, log)
  }

  function SaveCheckpoint(t: Tables, block: nat): Tables {
    if t.checkpoint == None || t.checkpoint.value <= block then t.(checkpoint := Some(block)) else t
  }

  /** `load`: the saved block, or the caller's default. */
  function Loaded(t: Tables, default: int): int {
    if t.checkpoint == None then default else t.checkpoint.value
  }

  /** The tables after a run of saves, whichever blocks they are called with. */
  function AfterSaves(t: Tables, blocks: seq<nat>): Tables {
    if blocks == [] then t
    else SaveCheckpoint(AfterSaves(t, blocks[..|blocks| - 1]), blocks[|blocks| - 1])
  }

  /** What is loaded is the highest block ever saved, and the default only if nothing was;
      the indexed tables are not touched. */
  lemma {:induction false} LoadReturnsHighestSaved(t: Tables, blocks: seq<nat>, default: int)
    requires t.checkpoint == None
    ensures var t' := AfterSaves(t, blocks);
            && t' == t.(checkpoint := t'.checkpoint)
            && (if blocks == [] then Loaded(t', default) == default
                else Loaded(t', default) in blocks && forall b :: b in blocks ==> b <= Loaded(t', default))
  {
    if blocks != [] {
      var n := |blocks| - 1;
      LoadReturnsHighestSaved(t, blocks[..n], default);
      assert blocks == blocks[..n] + [blocks[n]];
    }
  }

  // ---------------------------------------------------------------- the plain fold

  /** What the claims table should hold: each event applied once, in chain order,
      with no comparison of positions. */
  function PlainRows(logs: seq<Log>): map<nat, ClaimRow> {
    if logs == [] then map[]
    else
      var rows, last := PlainRows(logs[..|logs| - 1]), logs[|logs| - 1];
      if last.body.Submission? then rows[last.claimId := NewRow(last)]
      else if last.claimId in rows then rows[last.claimId := Reassess(rows[last.claimId], last)]
      else rows
  }

  function PlainAudit(logs: seq<Log>): map<string, AuditRow> {
    if logs == [] then map[]
    else
      var last := logs[|logs| - 1];
      PlainAudit(logs[..|logs| - 1])[last.Id() := AuditOf(last)]
  }

  /** The tables are the plain fold of the first `n` logs. */
  predicate Mirrors(t: Tables, logs: seq<Log>, n: nat) {
    n <= |logs| && t.events == PlainAudit(logs[..n]) && t.claims == PlainRows(logs[..n])
  }

  lemma {:induction false} AuditHolds(logs: seq<Log>, i: nat)
    requires Valid(logs) && i < |logs|
    ensures logs[i].Id() in PlainAudit(logs) && PlainAudit(logs)[logs[i].Id()] == AuditOf(logs[i])
  {
    var n := |logs| - 1;
    if i < n {
      AuditHolds(logs[..n], i);
      IdsDistinct(logs, i, n);
    }
  }

  /** An audit row says what the log said: a submission enters as Submitted with score 0,
      an assessment with its own status and score. */
  lemma AuditRowMeaning(logs: seq<Log>, i: nat)
    requires Valid(logs) && i < |logs|
    ensures logs[i].Id() in PlainAudit(logs)
    ensures var row, log := PlainAudit(logs)[logs[i].Id()], logs[i];
            && row.claimId == log.claimId && row.pos == log.pos && row.time == log.time && row.tx == Lower(log.tx)
            && match log.body
               case Submission(_, _, _) => row.submission && row.status == Submitted && row.score == 0
               case Assessment(status, score) => !row.submission && row.status == status && row.score == score
  {
    AuditHolds(logs, i);
  }

  lemma {:induction false} AuditOnly(logs: seq<Log>, id: string) returns (i: nat)
    requires id in PlainAudit(logs)
    ensures i < |logs| && logs[i].Id() == id
  {
    var n := |logs| - 1;
    if logs[n].Id() == id {
      i := n;
    } else {
      i := AuditOnly(logs[..n], id);
    }
  }

  lemma LastIsNew(logs: seq<Log>, n: nat)
    requires Valid(logs) && n < |logs|
    ensures logs[n].Id() !in PlainAudit(logs[..n])
  {
    if logs[n].Id() in PlainAudit(logs[..n]) {
      var i := AuditOnly(logs[..n], logs[n].Id());
      IdsDistinct(logs, i, n);
    }
  }

  /** The audit table holds every log once. */
  lemma {:induction false} AuditSize(logs: seq<Log>)
    requires Valid(logs)
    ensures |PlainAudit(logs)| == |logs|
  {
    if logs != [] {
      AuditSize(logs[..|logs| - 1]);
      LastIsNew(logs, |logs| - 1);
    }
  }

  function RowFrom(first: Log, last: Log): ClaimRow
    requires first.body.Submission?
  {
    ClaimRow(first.body.claimant, Lower(first.body.claimHash), first.body.pointer,
             StatusOf(last), ScoreOf(last), first.time, last.time,
             first.pos.block, Lower(first.tx), last.pos.block, last.pos.index, last.Id())
  }

  /** A folded row carries the submitted facts of the claim's submission and the
      state of the claim's last event. */
  lemma {:induction false} RowMeaning(logs: seq<Log>, c: nat) returns (last: nat)
    requires Valid(logs) && c < |State(logs)|
    ensures SubmissionOf(logs, c) <= last < |logs| && logs[last].claimId == c
    ensures forall j :: last < j < |logs| ==> logs[j].claimId != c
    ensures c in PlainRows(logs) && PlainRows(logs)[c] == RowFrom(logs[SubmissionOf(logs, c)], logs[last])
  {
    var n := |logs| - 1;
    var init := logs[..n];
    assert forall j :: 0 <= j < n ==> init[j] == logs[j];
    if logs[n].claimId == c {
      last := n;
      if logs[n].body.Assessment? { var _ := RowMeaning(init, c); }
    } else {
      last := RowMeaning(init, c);
    }
  }

  /** The same, column by column. */
  lemma RowColumns(logs: seq<Log>, c: nat) returns (first: Log, last: Log)
    requires Valid(logs) && c < |State(logs)|
    ensures first in logs && first.body.Submission? && first.claimId == c
    ensures last in logs && last.claimId == c
    ensures forall log :: log in logs && log.claimId == c ==> log == last || Before(log.pos, last.pos)
    ensures c in PlainRows(logs)
    ensures var row := PlainRows(logs)[c];
            && row.claimant == first.body.claimant && row.claimHash == Lower(first.body.claimHash)
            && row.pointer == first.body.pointer && row.submittedAt == first.time
            && row.submissionBlock == first.pos.block && row.submissionTx == Lower(first.tx)
            && row.updatedAt == last.time && row.stateBlock == last.pos.block && row.stateIndex == last.pos.index
            && row.stateEventId == last.Id()
            && match last.body
               case Submission(_, _, _) => last == first && row.status == Submitted && row.score == 0
               case Assessment(status, score) => row.status == status && row.score == score
  {
    var n := RowMeaning(logs, c);
    first, last := logs[SubmissionOf(logs, c)], logs[n];
    forall log | log in logs && log.claimId == c ensures log == last || Before(log.pos, last.pos) {
      var i :| 0 <= i < |logs| && logs[i] == log;
      if i < n { ChainOrder(logs, i, n); }
    }
  }

  lemma {:induction false} RowsAreTheClaims(logs: seq<Log>)
    requires Valid(logs)
    ensures forall c: nat :: c in PlainRows(logs) <==> c < |State(logs)|
  {
    if logs != [] { RowsAreTheClaims(logs[..|logs| - 1]); }
  }

  /** A row at or past a log's position is left alone by that log's upsert. */
  lemma RowIgnoresReplay(first: Log, last: Log, log: Log)
    requires first.body.Submission? && (log == last || Before(log.pos, last.pos))
    ensures log == first ==> MergeRow(RowFrom(first, last), NewRow(log)) == RowFrom(first, last)
    ensures log.body.Assessment? && AtOrAfter(log.pos.block, log.pos.index, last.pos.block, last.pos.index) ==>
              log == last && Reassess(RowFrom(first, last), log) == RowFrom(first, last)
  {
  }

  /** Whatever is logged is about a claim that exists. */
  lemma LoggedIsClaimed(logs: seq<Log>, i: nat)
    requires Valid(logs) && i < |logs|
    ensures logs[i].claimId < |State(logs)|
  {
    StateStep(logs, i);
    LifecycleIsMonotone(logs, i + 1, |logs|);
    assert logs[..|logs|] == logs;
  }

  /** Where a replayed log's claim stands in the fold. */
  lemma ReplayedRow(logs: seq<Log>, i: nat) returns (first: Log, last: Log)
    requires Valid(logs) && i < |logs|
    ensures first.body.Submission? && (logs[i].body.Submission? ==> first == logs[i])
    ensures logs[i] == last || Before(logs[i].pos, last.pos)
    ensures logs[i].claimId in PlainRows(logs) && PlainRows(logs)[logs[i].claimId] == RowFrom(first, last)
  {
    LoggedIsClaimed(logs, i);
    var n := RowMeaning(logs, logs[i].claimId);
    if i < n { ChainOrder(logs, i, n); }
    first, last := logs[SubmissionOf(logs, logs[i].claimId)], logs[n];
  }

  /** A replayed log finds its own audit row and a claim row at or past its position. */
  lemma ReplayIsNoOp(t: Tables, logs: seq<Log>, n: nat, i: nat)
    requires Valid(logs) && Mirrors(t, logs, n) && i < n
    ensures Index(t, logs[i]) == Some(t)
  {
    var log, seen := logs[i], logs[..n];
    PrefixValid(logs, n);
    AuditHolds(seen, i);
    var first, last := ReplayedRow(seen, i);
    RowIgnoresReplay(first, last, log);
    assert t.claims[log.claimId := t.claims[log.claimId]] == t.claims;
  }

  lemma NextExtends(t: Tables, logs: seq<Log>, n: nat)
    requires Valid(logs) && n < |logs| && Mirrors(t, logs, n)
    ensures Index(t, logs[n]).Some? && Mirrors(Index(t, logs[n]).value, logs, n + 1)
    ensures Index(t, logs[n]).value.checkpoint == t.checkpoint
  {
    var log, seen := logs[n], logs[..n];
    assert logs[..n + 1][..n] == seen;
    StateStep(logs, n);
    RowsAreTheClaims(seen);
    LastIsNew(logs, n);
    if log.body.Assessment? {
      var last := RowMeaning(seen, log.claimId);
      ChainOrder(logs, last, n);
    }
  }

  /** Indexing the next log extends the fold by one; indexing any earlier log again
      changes nothing. Neither ever reports a missing submission. */
  lemma IndexKeepsMirror(t: Tables, logs: seq<Log>, n: nat, i: nat)
    requires Valid(logs) && Mirrors(t, logs, n) && i <= n && i < |logs|
    ensures Index(t, logs[i]).Some?
    ensures i < n ==> Index(t, logs[i]).value == t
    ensures i == n ==> Mirrors(Index(t, logs[i]).value, logs, n + 1)
    ensures Index(t, logs[i]).value.checkpoint == t.checkpoint
  {
    if i < n { ReplayIsNoOp(t, logs, n, i); } else { NextExtends(t, logs, n); }
  }

  /** The "missing an earlier ClaimSubmitted" error is raised exactly when the claim
      has no submission among the indexed logs. */
  lemma MissingSubmissionIffNotIndexed(t: Tables, logs: seq<Log>, n: nat, log: Log)
    requires Valid(logs) && Mirrors(t, logs, n) && log.body.Assessment?
    ensures IndexAssessed(t, log) == None
      <==> forall j :: 0 <= j < n ==> !(logs[j].body.Submission? && logs[j].claimId == log.claimId)
  {
    var seen := logs[..n];
    PrefixValid(logs, n);
    RowsAreTheClaims(seen);
    assert forall j :: 0 <= j < n ==> seen[j] == logs[j];
    if log.claimId < |State(seen)| {
      assert seen[SubmissionOf(seen, log.claimId)].body.Submission?;
    } else {
      NoneYet(seen, log.claimId);
    }
  }

  /** Equality of a contract claim and an indexed row, hexadecimal case aside. */
  predicate SamePublicState(c: Claim, row: ClaimRow) {
    && Lower(c.claimant) == Lower(row.claimant)
    && Lower(c.claimHash) == Lower(row.claimHash)
    && c.pointer == row.pointer
    && c.status == row.status
    && c.score == row.score
    && c.submittedAt == row.submittedAt
    && c.updatedAt == row.updatedAt
  }

  /** The folded table agrees with `getClaim` after the same logs. */
  lemma {:induction false} RowsAgreeWithContract(logs: seq<Log>)
    requires Valid(logs)
    ensures forall c: nat :: c in PlainRows(logs) <==> c < |State(logs)|
    ensures forall c :: 0 <= c < |State(logs)| ==> SamePublicState(State(logs)[c], PlainRows(logs)[c])
  {
    RowsAreTheClaims(logs);
    if logs != [] {
      var init, last := logs[..|logs| - 1], logs[|logs| - 1];
      RowsAgreeWithContract(init);
      if last.body.Submission? { LowerTwice(last.body.claimHash); }
    }
  }

  // ------------------------------------------------------------- the repository

  class ClaimIndexRepository {
    var events: map<string, AuditRow>
    var claims: map<nat, ClaimRow>
    var checkpoint: Option<nat>

    ghost function View(): Tables
      reads this
    {
      Tables(events, claims, checkpoint)
    }

    constructor ()
      ensures View() == EMPTY
    {
      events, claims, checkpoint := map[], map[], None;
    }

    method IndexClaimSubmitted(log: Log)
      requires log.body.Submission?
      modifies this
      ensures View() == IndexSubmitted(old(View()), log)
    {
      var eventId := log.Id();
      if eventId !in events {
        events := events[eventId := AuditOf(log)];
      }
      var row := NewRow(log);
      if log.claimId in claims {
        var current := claims[log.claimId];
        var newer := AtOrAfter(row.stateBlock, row.stateIndex, current.stateBlock, current.stateIndex);
        if !newer {
          row := row.(status := current.status, score := current.score, updatedAt := current.updatedAt,
                      stateBlock := current.stateBlock, stateIndex := current.stateIndex,
                      stateEventId := current.stateEventId);
        }
      }
      claims := claims[log.claimId := row];
    }

    /** False is the storage error; the transaction then leaves no trace. */
    method IndexClaimAssessed(log: Log) returns (indexed: bool)
      requires log.body.Assessment?
      modifies this
      ensures indexed == IndexAssessed(old(View()), log).Some?
      ensures View() == if indexed then IndexAssessed(old(View()), log).value else old(View())
    {
      if log.claimId !in claims {
        return false;
      }
      var eventId := log.Id();
      if eventId !in events {
        events := events[eventId := AuditOf(log)];
      }
      var current := claims[log.claimId];
      if AtOrAfter(log.pos.block, log.pos.index, current.stateBlock, current.stateIndex) {
        claims := claims[log.claimId := Reassess(current, log)];
      }
      return true;
    }

    /** `save`: never backwards, and nothing else moves. */
    method Save(block: nat)
      modifies this`checkpoint
      ensures View() == SaveCheckpoint(old(View()), block)
      ensures checkpoint.Some? && block <= checkpoint.value
      ensures old(checkpoint).Some? ==> old(checkpoint).value <= checkpoint.value
      ensures checkpoint.value == block || checkpoint == old(checkpoint)
    {
      if checkpoint == None || checkpoint.value <= block {
        checkpoint := Some(block);
      }
    }

    method Load(default: int) returns (block: int)
      ensures block == Loaded(View(), default)
    {
      match checkpoint
      case None => block := default;
      case Some(saved) => block := saved;
    }
  }
}
