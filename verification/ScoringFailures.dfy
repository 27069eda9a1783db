/** Where the scoring worker does less than it is meant to, each with a run that shows
    it and the exact condition for it. */
module ScoringFailures {
  import opened ChainLog
  import opened ClaimIndex
  import opened ScoringSystem
  import opened ScoringWorker
  import Runs
  import Text

  // ------------------------------------------------------- completion and its undoing

  /** The row of message `m` stops being completed. */
  predicate Uncompletes(w: World, w': World, m: Log) {
    IsCompleted(w.records, m) && !IsCompleted(w'.records, m)
  }

  /** The handler is about to mark a completed row failed. */
  predicate Undoing(w: World) {
    w.pc.Failing? && IsCompleted(w.records, w.pc.m)
  }

  /** Between reading the row and completing it, the row is not completed. */
  predicate Unfinished(w: World) {
    (w.pc.Verifying? || w.pc.Enriching? || w.pc.Scoring? || w.pc.Saving? || w.pc.Deciding?
     || w.pc.Sending? || w.pc.Awaiting? || w.pc.Completing?) ==> !IsCompleted(w.records, w.pc.m)
  }

  /** Everyone else leaves the rows and the handler alone. */
  lemma Elsewhere(w: World, a: Action)
    requires Enabled(w, a) && (a.Grow? || a.Enqueue? || a.Mine?)
    ensures Do(w, a).records == w.records && Do(w, a).pc == w.pc
  {
  }

  lemma LookUpMoves(w: World)
    requires Enabled(w, LookUp)
    ensures var v := Do(w, LookUp);
            v.records == w.records && v.pc.m == w.pc.m && (v.pc.Sending? || v.pc.Completing? || v.pc.Failing?)
  {
  }

  lemma UnfinishedKept(w: World, a: Action)
    requires Unfinished(w) && Enabled(w, a)
    ensures Unfinished(Do(w, a))
  {
    if a.Grow? || a.Enqueue? || a.Mine? {
      Elsewhere(w, a);
    } else if a.LookUp? {
      LookUpMoves(w);
    } else {
      HandlerUnfinished(w, a);
    }
  }

  lemma HandlerUnfinished(w: World, a: Action)
    requires Unfinished(w) && Enabled(w, a) && !(a.Grow? || a.Enqueue? || a.Mine? || a.LookUp?)
    ensures Unfinished(Do(w, a))
  {
  }

  lemma ReachableUnfinished(trace: seq<World>, w: World)
    requires Reachable(trace, w)
    ensures Inv(w) && Unfinished(w)
  {
    var inv := (v: World) => Inv(v) && Unfinished(v);
    forall v, v' | inv(v) && Next(v, v') ensures inv(v') {
      var a :| Enabled(v, a) && v' == Do(v, a);
      ActionKeeps(v, a);
      UnfinishedKept(v, a);
    }
    forall v | Initial(v) ensures inv(v) { InitialInv(v); }
    Runs.RunKeeps(Starts(), Steps(), inv, trace, |trace| - 1);
  }

  /** A completed row is un-completed by exactly one action: the failure path's update,
      reaching the row of the message in hand. */
  lemma UncompletedByMarkFailed(w: World, a: Action)
    requires Enabled(w, a)
    ensures (exists m :: Uncompletes(w, Do(w, a), m)) <==> a.MarkFailed? && Undoing(w)
  {
    if a.MarkFailed? && Undoing(w) {
      assert Uncompletes(w, Do(w, a), w.pc.m);
    }
  }

  /** A step in which `mark_completed` does not lose its reply. */
  ghost predicate Acknowledged(w: World, w': World) {
    exists a :: a != Complete(false) && Enabled(w, a) && w' == Do(w, a)
  }

  ghost function AcknowledgedSteps(): (World, World) -> bool { (w, w') => Acknowledged(w, w') }

  predicate CompletionsKept(w: World, w': World) {
    forall id :: id in w.records && w.records[id].processing == Completed ==>
      id in w'.records && w'.records[id].processing == Completed
  }

  predicate Sound(w: World) { Unfinished(w) && !Undoing(w) }

  lemma AcknowledgedKeeps(w: World, a: Action)
    requires Sound(w) && Enabled(w, a) && a != Complete(false)
    ensures Sound(Do(w, a)) && CompletionsKept(w, Do(w, a))
  {
    UnfinishedKept(w, a);
    if a.Grow? || a.Enqueue? || a.Mine? {
      Elsewhere(w, a);
    } else if a.LookUp? {
      LookUpMoves(w);
    } else {
      HandlerAcknowledged(w, a);
    }
  }

  lemma HandlerAcknowledged(w: World, a: Action)
    requires Sound(w) && Enabled(w, a) && a != Complete(false)
    requires !(a.Grow? || a.Enqueue? || a.Mine? || a.LookUp?)
    ensures !Undoing(Do(w, a)) && CompletionsKept(w, Do(w, a))
  {
  }

  /** And the handler gets into that position by exactly one step: completing a row and
      losing the reply. */
  lemma UndoingBegins(trace: seq<World>, w: World, a: Action)
    requires Reachable(trace, w) && Enabled(w, a) && !Undoing(w)
    ensures Undoing(Do(w, a)) <==> a == Complete(false)
  {
    ReachableUnfinished(trace, w);
    if a == Complete(false) {
      HasRow(w);
      LostReply(w);
    } else {
      AcknowledgedKeeps(w, a);
    }
  }

  lemma HasRow(w: World)
    requires PcOk(w) && w.pc.Completing?
    ensures w.pc.m.Id() in w.records
  {
  }

  lemma LostReply(w: World)
    requires w.pc.Completing? && w.pc.m.Id() in w.records
    ensures Undoing(Do(w, Complete(false)))
  {
  }

  /** So on every run that loses no such reply, completed rows stay completed. */
  lemma CompletionIsPermanent(trace: seq<World>, i: nat, j: nat)
    requires Runs.Run(Starts(), AcknowledgedSteps(), trace) && i <= j < |trace|
    ensures CompletionsKept(trace[i], trace[j])
  {
    var inv, grows := (w: World) => Sound(w), (w: World, w': World) => CompletionsKept(w, w');
    forall w, w' | inv(w) && Acknowledged(w, w') ensures inv(w') && grows(w, w') {
      var a :| a != Complete(false) && Enabled(w, a) && w' == Do(w, a);
      AcknowledgedKeeps(w, a);
    }
    Runs.RunGrows(Starts(), AcknowledgedSteps(), inv, grows, trace, i, j);
  }

  // ------------------------------------------------- a decision executed and refused

  /** How far along its lifecycle a claim is. */
  function Rank(status: Status): nat {
    match status
    case Submitted => 0
    case UnderReview => 1
    case Flagged => 2
    case _ => 3
  }

  /** Once the worker's write for the claim of the message in hand is on chain, the
      handler refuses the message for good exactly when the contract has assessed the
      claim again since. */
  lemma RefusedThoughExecuted(trace: seq<World>, w: World, i: nat)
    requires Reachable(trace, w) && w.pc.Deciding? && i < |w.logs|
    requires w.logs[i] in w.wrote && w.logs[i].claimId == w.pc.m.claimId
    ensures Enabled(w, LookUp)
    ensures Do(w, LookUp).pc == Failing(w.pc.m, true)
            <==> exists j :: i < j < |w.logs| && w.logs[j].claimId == w.pc.m.claimId
    ensures Do(w, LookUp).pc == Failing(w.pc.m, true) || Do(w, LookUp).pc.Completing?
  {
    ReachableInv(trace, w);
    WriteIsTheDecision(w, w.logs[i]);
    MovedOnIff(w.logs, w.pc.m.claimId, i);
  }

  /** A claim has left the status an assessment gave it exactly when another follows;
      the score stays. */
  lemma MovedOnIff(logs: seq<Log>, c: nat, i: nat)
    requires Valid(logs) && i < |logs| && logs[i].claimId == c && logs[i].body.Assessment?
    ensures c < |State(logs)| && State(logs)[c].status != Submitted && State(logs)[c].score == logs[i].body.score
    ensures State(logs)[c].status != logs[i].body.status
            <==> exists j :: i < j < |logs| && logs[j].claimId == c
  {
    StateStep(logs, i);
    LifecycleIsMonotone(logs, i + 1, |logs|);
    assert logs[..|logs|] == logs;
    if j :| i < j < |logs| && logs[j].claimId == c {
      RankRises(logs, c, i, j);
    } else {
      UnchangedSince(logs, c, i + 1);
    }
  }

  lemma WriteIsTheDecision(w: World, log: Log)
    requires Inv(w) && w.pc.Deciding? && log in w.wrote && log.claimId == w.pc.m.claimId
    ensures log.body == Assessment(w.pc.record.Desired(), w.pc.record.score)
  {
    assert WriteOk(w.logs, w.records, log);
    var m :| m in w.logs && Carries(w.records, m, Tx(log.claimId, log.body.status, log.body.score));
    KnownIsLogged(w.logs, w.pc.m);
    SubmissionsUnique(w.logs, m, w.pc.m);
  }

  lemma RankKept(logs: seq<Log>, c: nat, m: nat)
    requires Valid(logs) && m <= |logs| && Valid(logs[..m]) && c < |State(logs[..m])|
    ensures c < |State(logs)| && Rank(State(logs[..m])[c].status) <= Rank(State(logs)[c].status)
  {
    LifecycleIsMonotone(logs, m, |logs|);
    assert logs[..|logs|] == logs;
  }

  /** An assessment raises the claim to the rank of its status. */
  lemma AssessmentRaises(logs: seq<Log>, i: nat)
    requires Valid(logs) && i < |logs| && logs[i].body.Assessment?
    ensures Valid(logs[..i]) && Valid(logs[..i + 1])
    ensures logs[i].claimId < |State(logs[..i])| == |State(logs[..i + 1])|
    ensures State(logs[..i + 1])[logs[i].claimId].status == logs[i].body.status
    ensures Rank(State(logs[..i])[logs[i].claimId].status) < Rank(logs[i].body.status)
  {
    StateStep(logs, i);
  }

  /** A claim's first log is its submission, so a later one is an assessment. */
  lemma LaterIsAssessment(logs: seq<Log>, i: nat, j: nat)
    requires Valid(logs) && i < j < |logs| && logs[i].claimId == logs[j].claimId && logs[i].body.Assessment?
    ensures logs[j].body.Assessment?
  {
    StateStep(logs, j);
    assert logs[..j][i] == logs[i];
    SubmissionClaimed(logs[..j], i);
  }

  lemma RankRises(logs: seq<Log>, c: nat, i: nat, j: nat)
    requires Valid(logs) && i < j < |logs| && logs[i].claimId == c == logs[j].claimId && logs[i].body.Assessment?
    ensures c < |State(logs)| && Rank(State(logs)[c].status) > Rank(logs[i].body.status)
  {
    LaterIsAssessment(logs, i, j);
    AssessmentRaises(logs, i);
    AssessmentRaises(logs, j);
    assert logs[..j][..i + 1] == logs[..i + 1];
    RankKept(logs[..j], c, i + 1);
    RankKept(logs, c, j + 1);
  }

  lemma {:induction false} UnchangedSince(logs: seq<Log>, c: nat, m: nat)
    requires Valid(logs) && m <= |logs| && Valid(logs[..m]) && c < |State(logs[..m])|
    requires forall j :: m <= j < |logs| ==> logs[j].claimId != c
    ensures c < |State(logs)| && State(logs)[c] == State(logs[..m])[c]
  {
    if m == |logs| {
      assert logs[..m] == logs;
    } else {
      var init := logs[..|logs| - 1];
      assert init[..m] == logs[..m];
      UnchangedSince(init, c, m);
    }
  }

  // ----------------------------------------------------------------------- the runs

  /** Some run ends in `w`. */
  ghost predicate Arrives(w: World) { exists trace :: Reachable(trace, w) }

  lemma Take(w: World, a: Action)
    requires Arrives(w) && Enabled(w, a)
    ensures Arrives(Do(w, a))
  {
    var trace :| Reachable(trace, w);
    StepExtends(trace, w, a);
  }

  /** A step in which nothing fails and nobody else interferes: no error, no crash, no
      lost reply, no foreign event. */
  predicate Undisturbed(a: Action) {
    match a
    case Grow(_) => false
    case Enqueue(_) => false
    case Stop => false
    case GiveUp => false
    case Save(replied) => replied
    case Complete(replied) => replied
    case MarkFailed(replied) => replied
    case Quarantine(replied) => replied
    case _ => true
  }

  ghost predicate QuietNext(w: World, w': World) {
    exists a :: Undisturbed(a) && Enabled(w, a) && w' == Do(w, a)
  }

  ghost function QuietSteps(): (World, World) -> bool { (w, w') => QuietNext(w, w') }

  ghost function Only(w: World): World -> bool { v => v == w }

  /** Undisturbed steps lead from `w` to `w'`. */
  ghost predicate LeadsTo(w: World, w': World) {
    exists trace :: Runs.Run(Only(w), QuietSteps(), trace) && trace[|trace| - 1] == w'
  }

  lemma Stay(w: World)
    ensures LeadsTo(w, w)
  {
    assert Runs.Run(Only(w), QuietSteps(), [w]);
  }

  lemma Quietly(w: World, v: World, a: Action)
    requires Arrives(v) && LeadsTo(w, v) && Undisturbed(a) && Enabled(v, a)
    ensures Arrives(Do(v, a)) && LeadsTo(w, Do(v, a))
  {
    Take(v, a);
    var trace :| Runs.Run(Only(w), QuietSteps(), trace) && trace[|trace| - 1] == v;
    assert QuietNext(v, Do(v, a));
    Runs.RunExtends(Only(w), QuietSteps(), trace, Do(v, a));
    assert (trace + [Do(v, a)])[|trace|] == Do(v, a);
  }

  /** A turn up to the chain-write block, for a message whose row waits there. */
  lemma Redelivered(w: World)
    requires Arrives(w) && w.pc.Polling? && w.committed < |w.queue|
    requires w.queue[w.committed].Id() in w.records && w.records[w.queue[w.committed].Id()].processing != Completed
    ensures var m := w.queue[w.committed];
            var v := w.(pc := Deciding(m, w.records[m.Id()]));
            Arrives(v) && LeadsTo(w, v)
  {
    var m := w.queue[w.committed];
    var r := w.records[m.Id()];
    Stay(w);
    Quietly(w, w, Poll);
    Quietly(w, w.(pc := Reading(m)), Read);
    Quietly(w, w.(pc := Verifying(m, Some(r))), Check(true));
    Quietly(w, w.(pc := Enriching(m, Some(r))), Enrich);
  }

  /** The first turn of the first message, up to the transaction: one submission on
      chain, scored as ordinary and sent. */
  function Submitted0(): Log { Log(0, Position(1, 0), "a", 0, 0, Submission("p", "h", "c")) }

  function Row0(processing: Processing, receipt: Option<Log>): Record { Record(0, false, 0, processing, receipt) }

  function At(logs: seq<Log>, row: Record, dead: seq<Log>, sent: seq<Tx>, mined: map<nat, Option<Log>>,
              wrote: set<Log>, pc: Pc): World {
    World(logs, [Submitted0()], 0, map[Submitted0().Id() := row], dead, sent, mined, wrote, pc)
  }

  function Tx0(): Tx { Tx(0, UnderReview, 0) }

  function Sent0(sent: seq<Tx>, pc: Pc): World {
    At([Submitted0()], Row0(Scored, None), [], sent, map[], {}, pc)
  }

  lemma FirstLogValid()
    ensures Valid([Submitted0()]) && |State([Submitted0()])| == 1
    ensures State([Submitted0()])[0] == Claim("p", "h", "c", Submitted, 0, 0, 0)
  {
    assert [Submitted0()][..0] == [];
  }

  lemma FirstSave()
    ensures Arrives(Sent0([], Deciding(Submitted0(), Row0(Scored, None))))
  {
    var s := Submitted0();
    FirstLogValid();
    var w := World([s], [], 0, map[], [], [], map[], {}, Polling);
    assert Reachable([w], w);
    assert Known(w.logs, s) by { assert w.logs[0] == s; }
    Take(w, Enqueue(s));
    var w1 := w.(queue := [s]);
    assert [] + [s] == [s];
    Take(w1, Poll);
    Take(w1.(pc := Reading(s)), Read);
    Take(w1.(pc := Verifying(s, None)), Check(true));
    Take(w1.(pc := Enriching(s, None)), Enrich);
    Take(w1.(pc := Scoring(s)), Score(false, 0));
    Take(w1.(pc := Saving(s, Row0(Scored, None))), Save(true));
  }

  lemma FirstSend()
    ensures Arrives(Sent0([Tx0()], Awaiting(Submitted0(), Row0(Scored, None), 0)))
  {
    var s, r := Submitted0(), Row0(Scored, None);
    FirstSave();
    FirstLogValid();
    Take(Sent0([], Deciding(s, r)), LookUp);
    assert [] + [Tx0()] == [Tx0()];
    Take(Sent0([], Sending(s, r)), Send);
  }

  /** The contract's answer to the worker's transaction, in the next block. */
  function Wrote0(): Log { Log(0, Position(2, 0), "b", 0, 0, Assessment(UnderReview, 0)) }

  lemma SecondLogValid()
    ensures Valid([Submitted0(), Wrote0()]) && |State([Submitted0(), Wrote0()])| == 1
    ensures State([Submitted0(), Wrote0()])[0] == Claim("p", "h", "c", UnderReview, 0, 0, 0)
    ensures Follows([Submitted0()], Wrote0()) && Accepts(State([Submitted0()]), Wrote0())
  {
    FirstLogValid();
    assert Text.Lower("a")[0] == 'a' && Text.Lower("b")[0] == 'b';
    assert [Submitted0(), Wrote0()][..1] == [Submitted0()];
  }

  function After(row: Record, sent: seq<Tx>, mined: map<nat, Option<Log>>, pc: Pc): World {
    At([Submitted0(), Wrote0()], row, [], sent, mined, {Wrote0()}, pc)
  }

  lemma Rewritten(id: string, r: Record, r': Record)
    ensures map[id := r][id := r'] == map[id := r']
  {
  }

  /** The receipt does not come in time, and the worker starts over. */
  lemma FirstTimeout()
    ensures Arrives(At([Submitted0()], Row0(Failed, None), [], [Tx0()], map[], {}, Polling))
  {
    var s, r := Submitted0(), Row0(Scored, None);
    FirstSend();
    Take(Sent0([Tx0()], Awaiting(s, r, 0)), GiveUp);
    Rewritten(s.Id(), r, Row0(Failed, None));
    Take(Sent0([Tx0()], Failing(s, false)), MarkFailed(true));
  }

  lemma WriteExecutes(w: World)
    requires w.logs == [Submitted0()] && w.mined == map[] && w.wrote == {} && |w.sent| > 0 && w.sent[0] == Tx0()
    ensures Enabled(w, Mine(0, Wrote0()))
    ensures Do(w, Mine(0, Wrote0()))
            == w.(logs := [Submitted0(), Wrote0()], mined := map[0 := Some(Wrote0())], wrote := {Wrote0()})
  {
    FirstLogValid();
    SecondLogValid();
    assert [Submitted0()] + [Wrote0()] == [Submitted0(), Wrote0()];
    assert {} + {Wrote0()} == {Wrote0()};
  }

  lemma SecondReverts(w: World, log: Log)
    requires w.logs == [Submitted0(), Wrote0()] && w.mined == map[0 := Some(Wrote0())] && w.sent == [Tx0(), Tx0()]
    requires log == Wrote0().(pos := Position(3, 0), tx := "d")
    ensures Enabled(w, Mine(1, log)) && Do(w, Mine(1, log)) == w.(mined := map[0 := Some(Wrote0()), 1 := None])
  {
    SecondLogValid();
    assert Text.Lower("a")[0] == 'a' && Text.Lower("b")[0] == 'b' && Text.Lower("d")[0] == 'd';
    assert w.mined[1 := None] == map[0 := Some(Wrote0()), 1 := None];
  }

  /** Executing a transaction for an open claim, and then another one for it. */
  lemma ExecutedThenReverted(w: World, v: World)
    requires v.logs == [Submitted0()] && v.sent == [Tx0(), Tx0()] && v.mined == map[] && v.wrote == {}
    requires Arrives(v) && LeadsTo(w, v)
    ensures var done := v.(logs := [Submitted0(), Wrote0()], mined := map[0 := Some(Wrote0()), 1 := None],
                           wrote := {Wrote0()});
            Arrives(done) && LeadsTo(w, done)
  {
    var again := Wrote0().(pos := Position(3, 0), tx := "d");
    WriteExecutes(v);
    Quietly(w, v, Mine(0, Wrote0()));
    var mid := v.(logs := [Submitted0(), Wrote0()], mined := map[0 := Some(Wrote0())], wrote := {Wrote0()});
    SecondReverts(mid, again);
    Quietly(w, mid, Mine(1, again));
  }

  /** One undisturbed turn may not be enough. After a receipt timeout the first
      transaction is still waiting; the turn sends a second one, the chain executes
      them in order, the second reverts, and the turn ends where it began. */
  lemma OneTurnMayNotSuffice() returns (w: World, w': World)
    ensures Arrives(w) && LeadsTo(w, w') && w.pc.Polling? && w'.pc.Polling?
    ensures w.committed < |w.queue| && !Clear(w, w.queue[w.committed], true)
    ensures Offsets(w') == Offsets(w) && !IsCompleted(w'.records, w.queue[w.committed])
    ensures w'.sent == w.sent + [Tx0()] && |w.sent| in w'.mined && w'.mined[|w.sent|].None?
  {
    var s, r := Submitted0(), Row0(Failed, None);
    FirstTimeout();
    FirstLogValid();
    w := At([s], r, [], [Tx0()], map[], {}, Polling);
    assert Pending(w.sent, w.mined, 0) by { assert w.sent[0].claimId == 0; }
    Redelivered(w);
    Quietly(w, w.(pc := Deciding(s, r)), LookUp);
    assert [Tx0()] + [Tx0()] == [Tx0(), Tx0()];
    Quietly(w, w.(pc := Sending(s, r)), Send);
    SecondTurnFails(w, w.(sent := [Tx0(), Tx0()], pc := Awaiting(s, r, 1)));
    w' := After(r, [Tx0(), Tx0()], map[0 := Some(Wrote0()), 1 := None], Polling);
  }

  lemma SecondTurnFails(w: World, v: World)
    requires v == At([Submitted0()], Row0(Failed, None), [], [Tx0(), Tx0()], map[], {},
                     Awaiting(Submitted0(), Row0(Failed, None), 1))
    requires Arrives(v) && LeadsTo(w, v)
    ensures var end := After(Row0(Failed, None), [Tx0(), Tx0()], map[0 := Some(Wrote0()), 1 := None], Polling);
            Arrives(end) && LeadsTo(w, end)
  {
    var s, r, mined := Submitted0(), Row0(Failed, None), map[0 := Some(Wrote0()), 1 := None];
    ExecutedThenReverted(w, v);
    Quietly(w, After(r, [Tx0(), Tx0()], mined, Awaiting(s, r, 1)), Receive);
    Rewritten(s.Id(), r, r);
    Quietly(w, After(r, [Tx0(), Tx0()], mined, Failing(s, false)), MarkFailed(true));
  }

  lemma FirstReceipt()
    ensures Arrives(After(Row0(Scored, None), [Tx0()], map[0 := Some(Wrote0())],
                          Completing(Submitted0(), Row0(Scored, None), Some(Wrote0()))))
  {
    var s, r := Submitted0(), Row0(Scored, None);
    FirstSend();
    WriteExecutes(Sent0([Tx0()], Awaiting(s, r, 0)));
    Take(Sent0([Tx0()], Awaiting(s, r, 0)), Mine(0, Wrote0()));
    Take(After(r, [Tx0()], map[0 := Some(Wrote0())], Awaiting(s, r, 0)), Receive);
  }

  /** A reply to `mark_completed` is lost and the failure path un-completes the row. */
  lemma CompletionCanBeUndone() returns (w: World, m: Log)
    ensures Arrives(w) && Enabled(w, MarkFailed(true)) && Uncompletes(w, Do(w, MarkFailed(true)), m)
    ensures Do(w, MarkFailed(true)) == After(Row0(Failed, Some(Wrote0())), [Tx0()], map[0 := Some(Wrote0())], Polling)
  {
    m := Submitted0();
    FirstReceipt();
    var mined := map[0 := Some(Wrote0())];
    Rewritten(m.Id(), Row0(Scored, None), Row0(Completed, Some(Wrote0())));
    Take(After(Row0(Scored, None), [Tx0()], mined, Completing(m, Row0(Scored, None), Some(Wrote0()))), Complete(false));
    Rewritten(m.Id(), Row0(Completed, Some(Wrote0())), Row0(Failed, Some(Wrote0())));
    w := After(Row0(Completed, Some(Wrote0())), [Tx0()], mined, Failing(m, false));
  }

  /** A person's approval of the claim, in a later block. */
  function Approved0(): Log { Log(0, Position(3, 0), "d", 0, 0, Assessment(Approved, 0)) }

  lemma ThirdLogValid()
    ensures Valid([Submitted0(), Wrote0(), Approved0()]) && |State([Submitted0(), Wrote0(), Approved0()])| == 1
    ensures State([Submitted0(), Wrote0(), Approved0()])[0].status == Approved
  {
    var logs := [Submitted0(), Wrote0(), Approved0()];
    SecondLogValid();
    assert Text.Lower("a")[0] == 'a' && Text.Lower("b")[0] == 'b' && Text.Lower("d")[0] == 'd';
    assert logs[..2] == [Submitted0(), Wrote0()];
  }

  function Approved1(row: Record, dead: seq<Log>, pc: Pc): World {
    At([Submitted0(), Wrote0(), Approved0()], row, dead, [Tx0()], map[0 := Some(Wrote0())], {Wrote0()}, pc)
  }

  /** Between the failed turn and the next one a person approves the claim. */
  lemma ApprovedMeanwhile()
    ensures Arrives(Approved1(Row0(Failed, Some(Wrote0())), [], Polling))
  {
    var undone, _ := CompletionCanBeUndone();
    Take(undone, MarkFailed(true));
    ThirdLogValid();
    assert [Submitted0(), Wrote0()] + [Approved0()] == [Submitted0(), Wrote0(), Approved0()];
    Take(Do(undone, MarkFailed(true)), Grow([Approved0()]));
  }

  lemma RefusedMeanwhile()
    ensures Arrives(Approved1(Row0(Failed, Some(Wrote0())), [], Quarantining(Submitted0())))
  {
    var m, r := Submitted0(), Row0(Failed, Some(Wrote0()));
    ApprovedMeanwhile();
    ThirdLogValid();
    Redelivered(Approved1(r, [], Polling));
    Take(Approved1(r, [], Deciding(m, r)), LookUp);
    Rewritten(m.Id(), r, r);
    Take(Approved1(r, [], Failing(m, true)), MarkFailed(true));
  }

  /** The handler then finds neither an open claim nor its own decision, and
      dead-letters the event of a claim whose decision the contract executed. */
  lemma DeadLetteredThoughExecuted() returns (w: World, m: Log, l: Log)
    ensures Arrives(w) && m in w.logs && m.body.Submission? && m in w.dead && w.committed == 1 && w.queue == [m]
    ensures l in w.wrote && l.claimId == m.claimId && l in w.logs
  {
    m, l := Submitted0(), Wrote0();
    var r := Row0(Failed, Some(l));
    RefusedMeanwhile();
    assert [] + [m] == [m];
    Take(Approved1(r, [], Quarantining(m)), ScoringSystem.Action.Quarantine(true));
    Take(Approved1(r, [m], Committing(m)), Commit);
    w := Approved1(r, [m], Polling).(committed := 1);
  }
}
