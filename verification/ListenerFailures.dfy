/** A failed drain does not resume at the saved checkpoint: a run that shows it, and when
    it does. */
module ListenerFailures {
  import opened ChainLog
  import opened ClaimIndex
  import opened ListenerSystem
  import Runs

  /** Where a process that starts now would begin. */
  function Checkpoint(cfg: Config, w: World): int {
    if w.tables.checkpoint == None then cfg.start - 1 else w.tables.checkpoint.value
  }

  /** The loop variable of listener `k` is the saved checkpoint. */
  predicate AtCheckpoint(cfg: Config, w: World, k: nat) {
    k in w.listeners && w.listeners[k].cursor == Checkpoint(cfg, w)
  }

  /** A range of listener `k` is saved in this step, with or without a reply. */
  predicate Saves(cfg: Config, w: World, w': World, k: nat) {
    Ready(w, k, SaveEnd)
    && (w' == Do(cfg, w, Perform(k, SaveEnd, true)) || w' == Do(cfg, w, Perform(k, SaveEnd, false)))
  }

  /** An exception ends the drain of listener `k` in this step. */
  predicate Fails(cfg: Config, w: World, a: Action, k: nat) {
    a == Fail(k) || a == TimeOut(k) || (a.Perform? && a.k == k && !a.replied)
  }

  ghost predicate FailsAt(cfg: Config, w: World, w': World, k: nat) {
    exists a :: Enabled(cfg, w, a) && w' == Do(cfg, w, a) && Fails(cfg, w, a, k)
  }

  /** One failed drain of the only process, from just after the poll to the exception. */
  ghost predicate FailedDrain(cfg: Config, trace: seq<World>, i: nat, j: nat, k: nat) {
    && Run(cfg, trace) && i < j < |trace|
    && (forall n :: i <= n <= j ==> trace[n].listeners.Keys == {k})
    && (forall n :: i <= n < j ==> Active(trace[n], k))
    && FailsAt(cfg, trace[j - 1], trace[j], k)
  }

  /** A listener that goes on, or fails, keeps its loop variable. */
  lemma CursorKept(cfg: Config, w: World, a: Action, k: nat)
    requires Enabled(cfg, w, a) && Active(w, k) && k in Do(cfg, w, a).listeners
    requires Active(Do(cfg, w, a), k) || Fails(cfg, w, a, k)
    ensures Do(cfg, w, a).listeners[k].cursor == w.listeners[k].cursor
  {
  }

  /** Only a save moves the checkpoint. */
  lemma CheckpointKept(cfg: Config, w: World, a: Action)
    requires Enabled(cfg, w, a) && !(a.Perform? && a.effect.SaveEnd?)
    ensures Do(cfg, w, a).tables.checkpoint == w.tables.checkpoint
  {
    if a.Perform? && a.effect.IndexNext? {
      IndexKeepsCheckpoint(w.tables, w.logs[w.listeners[a.k].task.pc.next]);
    }
  }

  lemma IndexKeepsCheckpoint(t: Tables, log: Log)
    ensures Index(t, log).Some? ==> Index(t, log).value.checkpoint == t.checkpoint
  {
  }

  /** And a save of a drain moves it beyond the loop variable. */
  lemma SaveOvertakes(cfg: Config, w: World, k: nat, replied: bool)
    requires Inv(cfg, w) && Ready(w, k, SaveEnd)
    ensures var w' := Do(cfg, w, Perform(k, SaveEnd, replied));
            w'.tables.checkpoint.Some? && w'.tables.checkpoint.value > w.listeners[k].cursor
  {
    assert ListenerOk(cfg, w, w.listeners[k]);
  }

  lemma SoloStep(cfg: Config, w: World, w': World, k: nat)
    requires Inv(cfg, w) && Next(cfg, w, w') && w.listeners.Keys == {k} && k in w'.listeners
    ensures Saves(cfg, w, w', k) ==> w'.tables.checkpoint.Some? && w'.tables.checkpoint.value > w.listeners[k].cursor
    ensures !Saves(cfg, w, w', k) ==> w'.tables.checkpoint == w.tables.checkpoint
  {
    var a :| Enabled(cfg, w, a) && w' == Do(cfg, w, a);
    if a.Perform? && a.effect.SaveEnd? {
      assert a.k in w.listeners;
      SaveOvertakes(cfg, w, k, a.replied);
    } else {
      CheckpointKept(cfg, w, a);
    }
    if Saves(cfg, w, w', k) {
      SaveOvertakes(cfg, w, k, true);
      SaveOvertakes(cfg, w, k, false);
    }
  }

  /** Whether some range was saved between `i` and `n`. */
  ghost predicate SavedBetween(cfg: Config, trace: seq<World>, i: nat, n: nat, k: nat)
    requires n <= |trace|
  {
    exists m :: i < m < n && Saves(cfg, trace[m - 1], trace[m], k)
  }

  lemma SavedNext(cfg: Config, trace: seq<World>, i: nat, n: nat, k: nat)
    requires i < n < |trace|
    ensures SavedBetween(cfg, trace, i, n + 1, k)
            <==> SavedBetween(cfg, trace, i, n, k) || Saves(cfg, trace[n - 1], trace[n], k)
  {
    if SavedBetween(cfg, trace, i, n, k) {
      var m :| i < m < n && Saves(cfg, trace[m - 1], trace[m], k);
      assert i < m < n + 1;
    }
    if Saves(cfg, trace[n - 1], trace[n], k) {
      assert i < n < n + 1;
    }
  }

  /** From `w0` to `w` the loop variable stayed, and the checkpoint moved past it exactly
      if a range was saved. */
  predicate Progress(w0: World, w: World, saved: bool, k: nat) {
    && k in w0.listeners && k in w.listeners && w.listeners[k].cursor == w0.listeners[k].cursor
    && if saved then w.tables.checkpoint.Some? && w.tables.checkpoint.value > w0.listeners[k].cursor
       else w.tables.checkpoint == w0.tables.checkpoint
  }

  lemma CursorNext(cfg: Config, w: World, w': World, k: nat)
    requires Next(cfg, w, w') && Active(w, k) && k in w'.listeners && (Active(w', k) || FailsAt(cfg, w, w', k))
    ensures w'.listeners[k].cursor == w.listeners[k].cursor
  {
    var a :| Enabled(cfg, w, a) && w' == Do(cfg, w, a) && (Active(w', k) || Fails(cfg, w, a, k));
    CursorKept(cfg, w, a, k);
  }

  /** One step of a drain of the only process. */
  ghost predicate DrainStep(cfg: Config, w: World, w': World, k: nat) {
    && Next(cfg, w, w') && w.listeners.Keys == {k} && k in w'.listeners && Active(w, k)
    && (Active(w', k) || FailsAt(cfg, w, w', k))
  }

  lemma ProgressNext(cfg: Config, w0: World, w: World, w': World, saved: bool, k: nat)
    requires Progress(w0, w, saved, k) && Inv(cfg, w) && DrainStep(cfg, w, w', k)
    ensures Progress(w0, w', saved || Saves(cfg, w, w', k), k)
  {
    NextKeeps(cfg, w, w');
    CursorNext(cfg, w, w', k);
    SoloStep(cfg, w, w', k);
  }

  lemma DrainSteps(cfg: Config, trace: seq<World>, i: nat, j: nat, k: nat, n: nat)
    requires FailedDrain(cfg, trace, i, j, k) && i < n <= j
    ensures DrainStep(cfg, trace[n - 1], trace[n], k)
  {
    assert Runs.StepAt(Steps(cfg), trace, n);
    assert k in trace[n].listeners.Keys;
  }

  lemma DrainNext(cfg: Config, trace: seq<World>, i: nat, j: nat, k: nat, n: nat, w0: World, saved: bool)
    requires FailedDrain(cfg, trace, i, j, k) && i < n <= j && Progress(w0, trace[n - 1], saved, k)
    ensures Progress(w0, trace[n], saved || Saves(cfg, trace[n - 1], trace[n], k), k)
  {
    DrainSteps(cfg, trace, i, j, k, n);
    RunInv(cfg, trace, n - 1);
    ProgressNext(cfg, w0, trace[n - 1], trace[n], saved, k);
  }

  lemma {:induction false} DrainSoFar(cfg: Config, trace: seq<World>, i: nat, j: nat, k: nat, n: nat)
      returns (saved: bool)
    requires FailedDrain(cfg, trace, i, j, k) && i <= n <= j
    ensures saved == SavedBetween(cfg, trace, i, n + 1, k) && Progress(trace[i], trace[n], saved, k)
    decreases n
  {
    if i == n {
      saved := false;
      assert k in trace[i].listeners.Keys;
    } else {
      saved := DrainSoFar(cfg, trace, i, j, k, n - 1);
      DrainNext(cfg, trace, i, j, k, n, trace[i], saved);
      SavedNext(cfg, trace, i, n, k);
      saved := saved || Saves(cfg, trace[n - 1], trace[n], k);
    }
  }

  /** A failed drain leaves the loop variable as it was. It then is the saved checkpoint,
      as the comment beside the retry says, exactly when it was so when the drain began
      and the drain saved no range. */
  lemma ResumesAtCheckpointIff(cfg: Config, trace: seq<World>, i: nat, j: nat, k: nat)
    requires FailedDrain(cfg, trace, i, j, k)
    ensures k in trace[i].listeners && k in trace[j].listeners
    ensures trace[j].listeners[k].cursor == trace[i].listeners[k].cursor
    ensures AtCheckpoint(cfg, trace[j], k)
            <==> AtCheckpoint(cfg, trace[i], k) && !SavedBetween(cfg, trace, i, j + 1, k)
  {
    var saved := DrainSoFar(cfg, trace, i, j, k, j);
    assert k in trace[i].listeners.Keys;
    RunGrows(cfg, trace, i, j);
    CursorWithin(cfg, trace, i, k);
  }

  /** No loop variable is beyond the checkpoint. */
  lemma CursorWithin(cfg: Config, trace: seq<World>, i: nat, k: nat)
    requires Run(cfg, trace) && i < |trace| && k in trace[i].listeners
    ensures trace[i].listeners[k].cursor <= Checkpoint(cfg, trace[i])
  {
    RunInv(cfg, trace, i);
    assert ListenerOk(cfg, trace[i], trace[i].listeners[k]);
  }

  // ------------------------------------------------------------------------ the run

  /** Some run ends in `w`. */
  ghost predicate Arrives(cfg: Config, w: World) { exists trace :: Reachable(cfg, trace, w) }

  lemma Take(cfg: Config, w: World, a: Action)
    requires Arrives(cfg, w) && Enabled(cfg, w, a)
    ensures Arrives(cfg, Do(cfg, w, a))
  {
    var trace :| Reachable(cfg, trace, w);
    StepExtends(cfg, trace, w, a);
  }

  /** Ranges of one block from block 1 on, and three blocks without logs. */
  const CONFIG := Config(1, 0, Some(1))

  function Quiet(checkpoint: Option<nat>, l: Listener): World {
    World([], 3, Tables(map[], map[], checkpoint), [], {}, map[0 := l])
  }

  lemma Moves(checkpoint: Option<nat>, l: Listener, a: Action, checkpoint': Option<nat>, l': Listener)
    requires Arrives(CONFIG, Quiet(checkpoint, l)) && Enabled(CONFIG, Quiet(checkpoint, l), a)
    requires Do(CONFIG, Quiet(checkpoint, l), a)
             == Quiet(checkpoint, l).(tables := Tables(map[], map[], checkpoint'), listeners := map[0 := l][0 := l'])
    ensures Arrives(CONFIG, Quiet(checkpoint', l'))
  {
    Take(CONFIG, Quiet(checkpoint, l), a);
    assert map[0 := l][0 := l'] == map[0 := l'];
  }

  lemma Started()
    ensures Arrives(CONFIG, Quiet(None, Listener(0, Idle)))
  {
    var w := World([], 3, EMPTY, [], {}, map[]);
    assert Reachable(CONFIG, [w], w);
    Take(CONFIG, w, Boot(0));
  }

  /** One empty range of a drain, up to its save. */
  lemma NextRange(checkpoint: Option<nat>, cursor: int, local: int)
    requires 0 <= local < 3
    requires Arrives(CONFIG, Quiet(checkpoint, Listener(cursor, Draining(3, local, Between))))
    ensures Arrives(CONFIG, Quiet(checkpoint, Listener(cursor, Draining(3, local, Saving(local + 1)))))
  {
    var l := Listener(cursor, Draining(3, local, Between));
    Moves(checkpoint, l, Fetch(0), checkpoint, l.(task := l.task.(pc := Indexing(0, local + 1))));
    Moves(checkpoint, l.(task := l.task.(pc := Indexing(0, local + 1))), EndOfRange(0), checkpoint,
          l.(task := l.task.(pc := Saving(local + 1))));
  }

  lemma SaveNext(checkpoint: Option<nat>, cursor: int, local: int)
    requires 0 <= local < 3 && (checkpoint.Some? ==> checkpoint.value <= local)
    requires Arrives(CONFIG, Quiet(checkpoint, Listener(cursor, Draining(3, local, Between))))
    ensures Arrives(CONFIG, Quiet(Some(local + 1), Listener(cursor, Draining(3, local + 1, Between))))
  {
    NextRange(checkpoint, cursor, local);
    Moves(checkpoint, Listener(cursor, Draining(3, local, Saving(local + 1))), Perform(0, SaveEnd, true),
          Some(local + 1), Listener(cursor, Draining(3, local + 1, Between)));
  }

  /** Two ranges are saved and the third query fails: the loop variable stays two blocks
      behind the checkpoint, ... */
  lemma LeftBehind()
    ensures Arrives(CONFIG, Quiet(Some(2), Listener(0, Idle)))
    ensures !AtCheckpoint(CONFIG, Quiet(Some(2), Listener(0, Idle)), 0)
  {
    Started();
    Moves(None, Listener(0, Idle), Poll(0, 3), None, Listener(0, Draining(3, 0, Between)));
    SaveNext(None, 0, 0);
    SaveNext(Some(1), 0, 1);
    Moves(Some(2), Listener(0, Draining(3, 2, Between)), Fetch(0), Some(2), Listener(0, Draining(3, 2, Indexing(0, 3))));
    Moves(Some(2), Listener(0, Draining(3, 2, Indexing(0, 3))), Fail(0), Some(2), Listener(0, Idle));
  }

  /** ... and the next turn processes the saved blocks again and calls `save` with an
      older one, which the store ignores. */
  lemma SavedRangesAreReplayed() returns (w: World)
    ensures Arrives(CONFIG, w) && Ready(w, 0, SaveEnd) && w.tables.checkpoint.Some?
    ensures w.listeners[0].task.pc.end < w.tables.checkpoint.value
    ensures Do(CONFIG, w, Perform(0, SaveEnd, true)).tables == w.tables
  {
    LeftBehind();
    Moves(Some(2), Listener(0, Idle), Poll(0, 3), Some(2), Listener(0, Draining(3, 0, Between)));
    NextRange(Some(2), 0, 0);
    w := Quiet(Some(2), Listener(0, Draining(3, 0, Saving(1))));
  }
}
