/** What each settlement of a submission rests on: facts about whole runs together with
    the actions taken in them. */
module ListenerProvenance {
  import opened ChainLog
  import opened ClaimIndex
  import opened ListenerSystem
  import opened ListenerGuarantees
  import Runs

  ghost predicate Does(cfg: Config, w: World, a: Action, w': World) { Enabled(cfg, w, a) && w' == Do(cfg, w, a) }

  ghost function Doing(cfg: Config): (World, Action, World) -> bool { (w, a, w') => Does(cfg, w, a, w') }

  /** A run and its actions. Every run has such actions. */
  ghost predicate Labelled(cfg: Config, trace: seq<World>, acts: seq<Action>) {
    Runs.Labelled(Starts(cfg), Doing(cfg), trace, acts)
  }

  lemma LabelsTheSteps(cfg: Config)
    ensures Runs.Labels(Steps(cfg), Doing(cfg))
  {
    forall w, a, w' | Does(cfg, w, a, w') ensures Next(cfg, w, w') { }
    forall w, w' | Next(cfg, w, w') ensures exists a :: Doing(cfg)(w, a, w') {
      var a :| Enabled(cfg, w, a) && w' == Do(cfg, w, a);
      assert Doing(cfg)(w, a, w');
    }
  }

  lemma LabelledIsRun(cfg: Config, trace: seq<World>, acts: seq<Action>)
    requires Labelled(cfg, trace, acts)
    ensures Run(cfg, trace)
  {
    LabelsTheSteps(cfg);
    Runs.LabelledIsRun(Starts(cfg), Steps(cfg), Doing(cfg), trace, acts);
  }

  lemma RunHasActions(cfg: Config, trace: seq<World>) returns (acts: seq<Action>)
    requires Run(cfg, trace)
    ensures Labelled(cfg, trace, acts)
  {
    LabelsTheSteps(cfg);
    acts := Runs.RunIsLabelled(Starts(cfg), Steps(cfg), Doing(cfg), trace);
  }

  lemma StepOf(cfg: Config, trace: seq<World>, acts: seq<Action>, i: nat)
    requires Labelled(cfg, trace, acts) && i < |acts|
    ensures Enabled(cfg, trace[i], acts[i]) && trace[i + 1] == Do(cfg, trace[i], acts[i])
  {
    assert Runs.LabelAt(Doing(cfg), trace, acts, i);
  }

  lemma StartIsEmpty(cfg: Config, trace: seq<World>, acts: seq<Action>)
    requires Labelled(cfg, trace, acts)
    ensures trace[0].journal == [] && trace[0].inflight == {} && trace[0].listeners == map[]
  {
    assert Starts(cfg)(trace[0]);
  }

  /** Action `i` is some listener's verification of the bytes behind `log`, with this result. */
  predicate Verifies(trace: seq<World>, acts: seq<Action>, i: nat, log: Log, good: bool) {
    i < |acts| <= |trace| && acts[i].Verify? && acts[i].good == good &&
    var w, k := trace[i], acts[i].k;
    Active(w, k) && w.listeners[k].task.pc.Verifying?
    && w.listeners[k].task.pc.next < |w.logs| && w.logs[w.listeners[k].task.pc.next] == log
  }

  /** Listener `k` is about to publish, or to quarantine, `log`. */
  predicate Handles(w: World, k: nat, log: Log, publish: bool) {
    Active(w, k) &&
    var pc := w.listeners[k].task.pc;
    (if publish then pc.Publishing? else pc.Quarantining?) && pc.next < |w.logs| && w.logs[pc.next] == log
  }

  /** Everyone else leaves listener `k` and the logs it has seen alone. */
  lemma LeftAlone(cfg: Config, w: World, a: Action, k: nat)
    requires Enabled(cfg, w, a) && (a.Mine? || a.Deliver? || a.k != k)
    ensures w.logs <= Do(cfg, w, a).logs
    ensures k in Do(cfg, w, a).listeners ==> k in w.listeners && Do(cfg, w, a).listeners[k] == w.listeners[k]
  {
  }

  lemma OwnHandling(cfg: Config, w: World, a: Action, k: nat, log: Log, publish: bool)
    requires Enabled(cfg, w, a) && !a.Mine? && !a.Deliver? && a.k == k && Handles(Do(cfg, w, a), k, log, publish)
    ensures a == Verify(k, publish) && w.listeners[k].task.pc.Verifying?
            && w.listeners[k].task.pc.next < |w.logs| && w.logs[w.listeners[k].task.pc.next] == log
  {
  }

  /** A listener's next log is one of the log. */
  lemma NextIsLogged(cfg: Config, w: World, k: nat)
    requires Inv(cfg, w) && Active(w, k) && (w.listeners[k].task.pc.Publishing? || w.listeners[k].task.pc.Quarantining?)
    ensures w.listeners[k].task.pc.next < |w.logs|
  {
    assert ListenerOk(cfg, w, w.listeners[k]);
  }

  lemma HandlingArises(cfg: Config, w: World, a: Action, k: nat, log: Log, publish: bool)
    requires Inv(cfg, w) && Enabled(cfg, w, a) && Handles(Do(cfg, w, a), k, log, publish)
    ensures Handles(w, k, log, publish)
            || (a == Verify(k, publish) && w.listeners[k].task.pc.Verifying?
                && w.listeners[k].task.pc.next < |w.logs| && w.logs[w.listeners[k].task.pc.next] == log)
  {
    if a.Mine? || a.Deliver? || a.k != k {
      LeftAlone(cfg, w, a, k);
      NextIsLogged(cfg, w, k);
    } else {
      OwnHandling(cfg, w, a, k, log, publish);
    }
  }

  lemma JournalArises(cfg: Config, w: World, a: Action, m: nat)
    requires Inv(cfg, w) && Enabled(cfg, w, a) && |w.journal| <= m < |Do(cfg, w, a).journal|
    ensures var s := Do(cfg, w, a).journal[m];
            || (a.Deliver? && s == Published(a.log) && a.log in w.inflight)
            || (a.Perform? && a.effect == PublishNext && s.Published? && Handles(w, a.k, s.log, true))
            || (a.Perform? && a.effect == QuarantineNext && s.Quarantined? && Handles(w, a.k, s.log, false))
  {
  }

  lemma FlightArises(cfg: Config, w: World, a: Action, log: Log)
    requires Enabled(cfg, w, a) && log in Do(cfg, w, a).inflight && log !in w.inflight
    ensures a.TimeOut? && Handles(w, a.k, log, true)
  {
  }

  /** A listener that is about to publish or quarantine has verified the bytes. */
  lemma {:induction false} HandledAsVerified(cfg: Config, trace: seq<World>, acts: seq<Action>, n: nat,
                                             k: nat, log: Log, publish: bool) returns (i: nat)
    requires Labelled(cfg, trace, acts) && n < |trace| && Handles(trace[n], k, log, publish)
    ensures i < n && Verifies(trace, acts, i, log, publish)
  {
    StartIsEmpty(cfg, trace, acts);
    if n > 0 {
      i := n - 1;
      StepOf(cfg, trace, acts, i);
      LabelledIsRun(cfg, trace, acts);
      RunInv(cfg, trace, i);
      HandlingArises(cfg, trace[i], acts[i], k, log, publish);
      if Handles(trace[i], k, log, publish) {
        i := HandledAsVerified(cfg, trace, acts, n - 1, k, log, publish);
      }
    }
  }

  /** What may still reach Kafka late was verified good. */
  lemma {:induction false} FlyingWasVerified(cfg: Config, trace: seq<World>, acts: seq<Action>, n: nat, log: Log)
      returns (i: nat)
    requires Labelled(cfg, trace, acts) && n < |trace| && log in trace[n].inflight
    ensures i < n && Verifies(trace, acts, i, log, true)
  {
    StartIsEmpty(cfg, trace, acts);
    if n > 0 {
      if log in trace[n - 1].inflight {
        i := FlyingWasVerified(cfg, trace, acts, n - 1, log);
      } else {
        StepOf(cfg, trace, acts, n - 1);
        FlightArises(cfg, trace[n - 1], acts[n - 1], log);
        i := HandledAsVerified(cfg, trace, acts, n - 1, acts[n - 1].k, log, true);
      }
    }
  }

  lemma NewEntryVerified(cfg: Config, trace: seq<World>, acts: seq<Action>, n: nat, m: nat) returns (i: nat)
    requires Labelled(cfg, trace, acts) && 0 < n < |trace| && |trace[n - 1].journal| <= m < |trace[n].journal|
    ensures i < n && Verifies(trace, acts, i, trace[n].journal[m].log, trace[n].journal[m].Published?)
  {
    var a := acts[n - 1];
    LabelledIsRun(cfg, trace, acts);
    StepOf(cfg, trace, acts, n - 1);
    RunInv(cfg, trace, n - 1);
    JournalArises(cfg, trace[n - 1], a, m);
    if a.Deliver? {
      i := FlyingWasVerified(cfg, trace, acts, n - 1, a.log);
    } else {
      i := HandledAsVerified(cfg, trace, acts, n - 1, a.k, trace[n].journal[m].log, trace[n].journal[m].Published?);
    }
  }

  /** On every run, for any number of listeners: what is published was found good before,
      and what is quarantined was found bad before. */
  lemma {:induction false} SettledAsVerified(cfg: Config, trace: seq<World>, acts: seq<Action>, n: nat, m: nat)
      returns (i: nat)
    requires Labelled(cfg, trace, acts) && n < |trace| && m < |trace[n].journal|
    ensures i < n && Verifies(trace, acts, i, trace[n].journal[m].log, trace[n].journal[m].Published?)
  {
    StartIsEmpty(cfg, trace, acts);
    if n > 0 {
      LabelledIsRun(cfg, trace, acts);
      RunGrows(cfg, trace, n - 1, n);
      if m < |trace[n - 1].journal| {
        i := SettledAsVerified(cfg, trace, acts, n - 1, m);
      } else {
        i := NewEntryVerified(cfg, trace, acts, n, m);
      }
    }
  }

  /** So a submission up to the checkpoint whose bytes were never found bad is in Kafka,
      and one whose bytes were never found good is in the dead-letter file. */
  lemma SettledWhereItBelongs(cfg: Config, trace: seq<World>, acts: seq<Action>, j: nat)
    requires Labelled(cfg, trace, acts)
    requires var w := trace[|trace| - 1];
             && w.tables.checkpoint.Some? && j < |w.logs| && w.logs[j].body.Submission?
             && w.logs[j].pos.block <= w.tables.checkpoint.value
    ensures var w := trace[|trace| - 1];
            && ((forall i :: 0 <= i < |acts| ==> !Verifies(trace, acts, i, w.logs[j], false))
                ==> Published(w.logs[j]) in w.journal)
            && ((forall i :: 0 <= i < |acts| ==> !Verifies(trace, acts, i, w.logs[j], true))
                ==> Quarantined(w.logs[j]) in w.journal)
  {
    var w := trace[|trace| - 1];
    LabelledIsRun(cfg, trace, acts);
    NoSubmissionLost(cfg, trace, w, j);
    var m :| 0 <= m < |w.journal| && (w.journal[m] == Published(w.logs[j]) || w.journal[m] == Quarantined(w.logs[j]));
    var i := SettledAsVerified(cfg, trace, acts, |trace| - 1, m);
    assert w.journal[m] in w.journal;
  }
}
