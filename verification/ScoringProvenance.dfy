/** Where the worker's decisions, receipts and dead letters come from: facts about whole
    runs together with the actions taken in them. */
module ScoringProvenance {
  import opened ChainLog
  import opened ClaimIndex
  import opened ScoringSystem
  import opened ScoringWorker
  import Runs

  ghost predicate Does(w: World, a: Action, w': World) { Enabled(w, a) && w' == Do(w, a) }

  ghost function Doing(): (World, Action, World) -> bool { (w, a, w') => Does(w, a, w') }

  /** A run and its actions. Every run has such actions. */
  ghost predicate Labelled(trace: seq<World>, acts: seq<Action>) {
    Runs.Labelled(Starts(), Doing(), trace, acts)
  }

  lemma LabelsTheSteps()
    ensures Runs.Labels(Steps(), Doing())
  {
    forall w, a, w' | Does(w, a, w') ensures Next(w, w') { }
    forall w, w' | Next(w, w') ensures exists a :: Doing()(w, a, w') {
      var a :| Enabled(w, a) && w' == Do(w, a);
      assert Doing()(w, a, w');
    }
  }

  lemma LabelledIsRun(trace: seq<World>, acts: seq<Action>)
    requires Labelled(trace, acts)
    ensures Run(trace)
  {
    LabelsTheSteps();
    Runs.LabelledIsRun(Starts(), Steps(), Doing(), trace, acts);
  }

  lemma RunHasActions(trace: seq<World>) returns (acts: seq<Action>)
    requires Run(trace)
    ensures Labelled(trace, acts)
  {
    LabelsTheSteps();
    acts := Runs.RunIsLabelled(Starts(), Steps(), Doing(), trace);
  }

  lemma StepOf(trace: seq<World>, acts: seq<Action>, i: nat)
    requires Labelled(trace, acts) && i < |acts|
    ensures Enabled(trace[i], acts[i]) && trace[i + 1] == Do(trace[i], acts[i])
  {
    assert Runs.LabelAt(Doing(), trace, acts, i);
  }

  lemma StartIsEmpty(trace: seq<World>, acts: seq<Action>)
    requires Labelled(trace, acts)
    ensures trace[0].pc.Polling? && trace[0].records == map[] && trace[0].dead == []
  {
    assert Starts()(trace[0]);
  }

  // ------------------------------------------------------------------ the first answer

  /** Action `i` is the scorer's answer for message `m`. */
  predicate Answers(trace: seq<World>, acts: seq<Action>, i: nat, m: Log, flagged: bool, score: nat) {
    i < |acts| <= |trace| && acts[i] == Score(flagged, score) && trace[i].pc == Scoring(m)
  }

  /** From `i` until `n` the handler does nothing but hold on to its record. */
  predicate Holding(trace: seq<World>, i: nat, n: nat) {
    n < |trace| && forall h :: i < h <= n ==> trace[h].pc == trace[n].pc
  }

  lemma SavingArises(w: World, a: Action)
    requires Enabled(w, a) && Do(w, a).pc.Saving?
    ensures Do(w, a).pc == w.pc
            || (a.Score? && w.pc.Scoring?
                && Do(w, a).pc == Saving(w.pc.m, Record(w.pc.m.claimId, a.flagged, a.score, Scored, None)))
  {
  }

  /** A record waiting to be saved is the scorer's answer of this very attempt. */
  lemma {:induction false} HeldIsAnswered(trace: seq<World>, acts: seq<Action>, n: nat) returns (i: nat)
    requires Labelled(trace, acts) && n < |trace| && trace[n].pc.Saving?
    ensures i < n && Holding(trace, i, n)
    ensures Answers(trace, acts, i, trace[n].pc.m, trace[n].pc.record.flagged, trace[n].pc.record.score)
  {
    StartIsEmpty(trace, acts);
    if n > 0 {
      StepOf(trace, acts, n - 1);
      SavingArises(trace[n - 1], acts[n - 1]);
      if trace[n - 1].pc == trace[n].pc {
        i := HeldIsAnswered(trace, acts, n - 1);
      } else {
        i := n - 1;
      }
    }
  }

  /** The answer at `i` is the first one saved for message `m`, at `j`. */
  predicate FirstSaved(trace: seq<World>, acts: seq<Action>, m: Log, flagged: bool, score: nat, i: nat, j: nat) {
    && i < j < |acts| && |trace| == |acts| + 1
    && Answers(trace, acts, i, m, flagged, score) && Holding(trace, i, j) && trace[j].pc.Saving? && acts[j].Save?
    && m.Id() !in trace[j].records && m.Id() in trace[j + 1].records
  }

  lemma RowArises(w: World, a: Action, id: string)
    requires Enabled(w, a) && id in Do(w, a).records && id !in w.records
    ensures a.Save? && w.pc.Saving? && w.pc.m.Id() == id
    ensures Do(w, a).records[id].flagged == w.pc.record.flagged && Do(w, a).records[id].score == w.pc.record.score
  {
  }

  lemma {:induction false} RowIsBorn(trace: seq<World>, acts: seq<Action>, n: nat, id: string)
      returns (m: Log, i: nat, j: nat)
    requires Labelled(trace, acts) && n < |trace| && id in trace[n].records
    ensures m.Id() == id && Known(trace[n].logs, m) && j < n
    ensures FirstSaved(trace, acts, m, trace[n].records[id].flagged, trace[n].records[id].score, i, j)
  {
    LabelledIsRun(trace, acts);
    StartIsEmpty(trace, acts);
    if n > 0 {
      RunGrows(trace, n - 1, n);
      if id in trace[n - 1].records {
        m, i, j := RowIsBorn(trace, acts, n - 1, id);
        KnownStays(trace[n - 1].logs, trace[n].logs, m);
      } else {
        j := n - 1;
        StepOf(trace, acts, j);
        RowArises(trace[j], acts[j], id);
        i := HeldIsAnswered(trace, acts, j);
        m := trace[j].pc.m;
        HandledIsKnown(trace, j);
        KnownStays(trace[j].logs, trace[n].logs, m);
      }
    }
  }

  lemma HandledIsKnown(trace: seq<World>, n: nat)
    requires Run(trace) && n < |trace| && !trace[n].pc.Polling?
    ensures Known(trace[n].logs, trace[n].pc.m)
  {
    RunInv(trace, n);
  }

  /** On every run a saved decision is the scorer's answer for that event, and the first
      one that was saved, whatever the scorer answered before or after. */
  lemma DecisionIsTheFirstAnswer(trace: seq<World>, acts: seq<Action>, m: Log) returns (i: nat, j: nat)
    requires Labelled(trace, acts)
    requires var w := trace[|trace| - 1]; m in w.logs && m.body.Submission? && m.Id() in w.records
    ensures var row := trace[|trace| - 1].records[m.Id()];
            FirstSaved(trace, acts, m, row.flagged, row.score, i, j)
  {
    var n := |trace| - 1;
    LabelledIsRun(trace, acts);
    var m';
    m', i, j := RowIsBorn(trace, acts, n, m.Id());
    RunInv(trace, n);
    KnownIsLogged(trace[n].logs, m');
    SameIdSameLog(trace[n].logs, m, m');
  }

  /** And every assessment the worker wrote is that answer: flagged if it was flagged, up
      for review if it was not, with its score. */
  lemma WritesCarryTheFirstAnswer(trace: seq<World>, acts: seq<Action>, l: Log)
      returns (m: Log, i: nat, j: nat, flagged: bool, score: nat)
    requires Labelled(trace, acts) && l in trace[|trace| - 1].wrote
    ensures m in trace[|trace| - 1].logs && m.body.Submission? && m.claimId == l.claimId
    ensures FirstSaved(trace, acts, m, flagged, score, i, j)
    ensures l.body == Assessment(if flagged then Flagged else UnderReview, score)
  {
    var w := trace[|trace| - 1];
    LabelledIsRun(trace, acts);
    m := WritesCarryTheSavedDecision(trace, w, l);
    flagged, score := w.records[m.Id()].flagged, w.records[m.Id()].score;
    i, j := DecisionIsTheFirstAnswer(trace, acts, m);
  }

  // ------------------------------------------------------------------ the dead letters

  /** Action `i` found the bytes behind message `m` unacceptable, or its claim assessed
      otherwise than decided. */
  predicate Condemns(trace: seq<World>, acts: seq<Action>, i: nat, m: Log) {
    i < |acts| <= |trace| &&
    var w := trace[i];
    || (acts[i] == Check(false) && w.pc.Verifying? && w.pc.m == m)
    || (acts[i].LookUp? && w.pc.Deciding? && w.pc.m == m && Valid(w.logs) && m.claimId < |State(w.logs)|
        && State(w.logs)[m.claimId].status != Submitted
        && !(State(w.logs)[m.claimId].status == (if w.pc.record.flagged then Flagged else UnderReview)
             && State(w.logs)[m.claimId].score == w.pc.record.score))
  }

  lemma FailingArises(w: World, a: Action)
    requires Enabled(w, a) && Do(w, a).pc.Failing? && Do(w, a).pc.permanent
    ensures Do(w, a).pc == w.pc
            || (a.LookUp? && w.pc.Deciding? && Do(w, a).pc.m == w.pc.m && State(w.logs)[w.pc.m.claimId].status != Submitted
                && !(State(w.logs)[w.pc.m.claimId].status == (if w.pc.record.flagged then Flagged else UnderReview)
                     && State(w.logs)[w.pc.m.claimId].score == w.pc.record.score))
  {
  }

  lemma QuarantiningArises(w: World, a: Action)
    requires Enabled(w, a) && Do(w, a).pc.Quarantining?
    ensures Do(w, a).pc == w.pc
            || (a == Check(false) && w.pc.Verifying? && w.pc.m == Do(w, a).pc.m)
            || (a.MarkFailed? && w.pc == Failing(Do(w, a).pc.m, true))
  {
  }

  lemma {:induction false} RefusalIsFound(trace: seq<World>, acts: seq<Action>, n: nat) returns (i: nat)
    requires Labelled(trace, acts) && n < |trace|
    requires trace[n].pc.Quarantining? || (trace[n].pc.Failing? && trace[n].pc.permanent)
    ensures i < n && Condemns(trace, acts, i, trace[n].pc.m)
  {
    StartIsEmpty(trace, acts);
    if n > 0 {
      i := n - 1;
      StepOf(trace, acts, i);
      if trace[n].pc.Failing? {
        FailingArises(trace[i], acts[i]);
      } else {
        QuarantiningArises(trace[i], acts[i]);
      }
      if trace[i].pc == trace[n].pc || acts[i].MarkFailed? {
        i := RefusalIsFound(trace, acts, n - 1);
      }
    }
  }

  lemma DeadArises(w: World, a: Action, m: Log)
    requires Enabled(w, a) && m in Do(w, a).dead && m !in w.dead
    ensures a.Quarantine? && w.pc == Quarantining(m)
  {
  }

  /** On every run an event is dead-lettered only after its bytes were found unacceptable
      or its claim was found assessed otherwise: no failure of a store, of the chain or of
      a reply dead-letters anything. */
  lemma {:induction false} DeadLettersAreRefusals(trace: seq<World>, acts: seq<Action>, n: nat, m: Log) returns (i: nat)
    requires Labelled(trace, acts) && n < |trace| && m in trace[n].dead
    ensures i < n && Condemns(trace, acts, i, m)
  {
    StartIsEmpty(trace, acts);
    if n > 0 && m in trace[n - 1].dead {
      i := DeadLettersAreRefusals(trace, acts, n - 1, m);
    } else if n > 0 {
      StepOf(trace, acts, n - 1);
      DeadArises(trace[n - 1], acts[n - 1], m);
      i := RefusalIsFound(trace, acts, n - 1);
    }
  }

  // ----------------------------------------------------------------------- the receipts

  predicate OwnReceipt(wrote: set<Log>, c: nat, receipt: Option<Log>) {
    receipt.Some? ==> receipt.value in wrote && receipt.value.claimId == c
  }

  predicate LocalReceipt(wrote: set<Log>, pc: Pc) {
    match pc
    case Verifying(m, found) => found.Some? ==> OwnReceipt(wrote, m.claimId, found.value.receipt)
    case Enriching(m, found) => found.Some? ==> OwnReceipt(wrote, m.claimId, found.value.receipt)
    case Saving(m, r) => OwnReceipt(wrote, m.claimId, r.receipt)
    case Deciding(m, r) => OwnReceipt(wrote, m.claimId, r.receipt)
    case Sending(m, r) => OwnReceipt(wrote, m.claimId, r.receipt)
    case Awaiting(m, r, _) => OwnReceipt(wrote, m.claimId, r.receipt)
    case Completing(m, r, receipt) => OwnReceipt(wrote, m.claimId, r.receipt) && OwnReceipt(wrote, m.claimId, receipt)
    case _ => true
  }

  /** Every receipt on record, or in the handler's hands, is of an own write for the claim. */
  predicate ReceiptsOwn(w: World) {
    && (forall id :: id in w.records ==> OwnReceipt(w.wrote, w.records[id].claimId, w.records[id].receipt))
    && LocalReceipt(w.wrote, w.pc)
  }

  lemma ReceiptStays(wrote: set<Log>, wrote': set<Log>, c: nat, receipt: Option<Log>)
    requires OwnReceipt(wrote, c, receipt) && wrote <= wrote'
    ensures OwnReceipt(wrote', c, receipt)
  {
  }

  /** Events of the chain and the topic. */
  lemma ReceiptsKeptElsewhere(w: World, a: Action)
    requires ReceiptsOwn(w) && Enabled(w, a) && (a.Grow? || a.Enqueue? || a.Mine?)
    ensures ReceiptsOwn(Do(w, a))
  {
    assert Do(w, a).records == w.records && Do(w, a).pc == w.pc && w.wrote <= Do(w, a).wrote;
  }

  lemma ReceivedIsOwn(w: World)
    requires Inv(w) && ReceiptsOwn(w) && Enabled(w, Receive)
    ensures ReceiptsOwn(Do(w, Receive))
  {
  }

  /** The handler's own updates of the row. */
  lemma ReceiptsKeptInRow(w: World, a: Action)
    requires ReceiptsOwn(w) && Enabled(w, a) && (a.Save? || a.Complete? || a.MarkFailed?)
    requires w.pc.Completing? && w.pc.m.Id() in w.records ==> w.records[w.pc.m.Id()].claimId == w.pc.m.claimId
    ensures ReceiptsOwn(Do(w, a))
  {
  }

  lemma ReceiptsKeptByMoves(w: World, a: Action)
    requires ReceiptsOwn(w) && Enabled(w, a)
    requires !a.Grow? && !a.Enqueue? && !a.Mine? && !a.Receive? && !a.Save? && !a.Complete? && !a.MarkFailed?
    requires w.pc.Reading? && w.pc.m.Id() in w.records ==> w.records[w.pc.m.Id()].claimId == w.pc.m.claimId
    ensures ReceiptsOwn(Do(w, a))
  {
  }

  lemma RowNamesClaim(w: World)
    requires Inv(w) && !w.pc.Polling? && w.pc.m.Id() in w.records
    ensures w.records[w.pc.m.Id()].claimId == w.pc.m.claimId
  {
    KnownIsLogged(w.logs, w.pc.m);
    assert RecordOk(w.logs, w.records, w.pc.m);
  }

  lemma ReceiptsKept(w: World, a: Action)
    requires Inv(w) && ReceiptsOwn(w) && Enabled(w, a)
    ensures ReceiptsOwn(Do(w, a))
  {
    if !w.pc.Polling? && w.pc.m.Id() in w.records { RowNamesClaim(w); }
    if a.Grow? || a.Enqueue? || a.Mine? {
      ReceiptsKeptElsewhere(w, a);
    } else if a.Receive? {
      ReceivedIsOwn(w);
    } else if a.Save? || a.Complete? || a.MarkFailed? {
      ReceiptsKeptInRow(w, a);
    } else {
      ReceiptsKeptByMoves(w, a);
    }
  }

  /** On every run a receipt on record is of the one write the worker made to the claim. */
  lemma ReceiptIsTheWrite(trace: seq<World>, w: World, id: string)
    requires Reachable(trace, w) && id in w.records && w.records[id].receipt.Some?
    ensures var l := w.records[id].receipt.value;
            && l in w.wrote && l.claimId == w.records[id].claimId
            && forall other :: other in w.wrote && other.claimId == l.claimId ==> other == l
  {
    var inv := (v: World) => Inv(v) && ReceiptsOwn(v);
    forall v, v' | inv(v) && Next(v, v') ensures inv(v') {
      var a :| Enabled(v, a) && v' == Do(v, a);
      ActionKeeps(v, a);
      ReceiptsKept(v, a);
    }
    forall v | Initial(v) ensures inv(v) { InitialInv(v); }
    Runs.RunKeeps(Starts(), Steps(), inv, trace, |trace| - 1);
    ReachableInv(trace, w);
  }
}
