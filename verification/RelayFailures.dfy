/** Where the relay does less than it is meant to, each with a run that shows it and the
    exact condition for it. */
module RelayFailures {
  import opened ClaimIndex
  import opened Fees
  import opened RelayReceipts
  import opened RelaySystem
  import opened RelayGuarantees
  import Runs

  // ------------------------------------------- broadcast rows whose bytes never left

  /** The row says `broadcast` and its newest bytes were never sent. */
  predicate Uncovered(w: World, s: nat) {
    s in w.rows && w.rows[s].state == Broadcast && w.rows[s].attempts != [] && Newest(w.rows[s]) !in w.network
  }

  predicate DeliveredPc(network: set<Tx>, b: Pc) {
    b.Busy? && b.stage.Sent? ==> b.row.attempts != [] && Newest(b.row) in network
  }

  /** A worker about to mark a row has sent the newest attempt of its own copy. */
  predicate Delivered(w: World) {
    forall k :: k in w.workers ==> DeliveredPc(w.network, w.workers[k])
  }

  lemma DeliveredKept(policy: Policy, w: World, a: Action)
    requires Delivered(w) && Enabled(policy, w, a)
    ensures Delivered(Do(policy, w, a))
  {
    var w' := Do(policy, w, a);
    forall k | k in w'.workers ensures DeliveredPc(w'.network, w'.workers[k]) {
      if k in w.workers { assert DeliveredPc(w.network, w.workers[k]); }
    }
  }

  lemma ReachableDelivered(policy: Policy, trace: seq<World>, w: World)
    requires Reachable(policy, trace, w)
    ensures Delivered(w)
  {
    var inv := (v: World) => Delivered(v);
    forall v, v' | inv(v) && Next(policy, v, v') ensures inv(v') {
      var a :| Enabled(policy, v, a) && v' == Do(policy, v, a);
      DeliveredKept(policy, v, a);
    }
    Runs.RunKeeps(Starts(policy), Steps(policy), inv, trace, |trace| - 1);
  }

  /** `a` runs `mark_broadcast` on row `s`. */
  predicate Marks(policy: Policy, w: World, a: Action, s: nat)
    requires Enabled(policy, w, a)
  {
    (a.Mark? || a.Repair?) && w.workers[a.k].s == s
  }

  lemma OnlyMarksUncover(policy: Policy, w: World, a: Action, s: nat)
    requires Enabled(policy, w, a) && s in w.rows && !Uncovered(w, s) && !Marks(policy, w, a, s)
    ensures !Uncovered(Do(policy, w, a), s)
  {
  }

  lemma MarkLeavesNewest(policy: Policy, w: World, a: Action, s: nat)
    requires Enabled(policy, w, a) && s in w.rows && w.rows[s].attempts != [] && Marks(policy, w, a, s)
    ensures var w' := Do(policy, w, a);
            w'.rows[s] == MarkRow(w.rows[s]) && w'.network == w.network
  {
  }

  /** A row gets into that position by exactly one kind of step: `mark_broadcast` on a
      signed row whose newest attempt was not sent. After sending, that takes a caller
      whose copy has fewer attempts than the row; on the repair path it takes a receipt
      of some attempt. */
  lemma UncoveredIff(policy: Policy, trace: seq<World>, w: World, a: Action, s: nat)
    requires Reachable(policy, trace, w) && Enabled(policy, w, a) && s in w.rows && !Uncovered(w, s)
    ensures Uncovered(Do(policy, w, a), s)
            <==> && Marks(policy, w, a, s) && w.rows[s].state == Signed
                 && w.rows[s].attempts != [] && Newest(w.rows[s]) !in w.network
                 && (a.Mark? ==> |w.workers[a.k].row.attempts| < |w.rows[s].attempts|)
                 && (a.Repair? ==> Visible(w.chain, w.rows[s].attempts))
  {
    if Marks(policy, w, a, s) {
      MarkCircumstances(policy, trace, w, a, s);
      MarkUncoversIff(policy, w, a, s);
    } else {
      OnlyMarksUncover(policy, w, a, s);
    }
  }

  lemma MarkUncoversIff(policy: Policy, w: World, a: Action, s: nat)
    requires Enabled(policy, w, a) && s in w.rows && !Uncovered(w, s) && Marks(policy, w, a, s)
    requires w.rows[s].attempts != []
    ensures Uncovered(Do(policy, w, a), s) <==> w.rows[s].state == Signed && Newest(w.rows[s]) !in w.network
  {
    MarkLeavesNewest(policy, w, a, s);
  }

  lemma MarkCircumstances(policy: Policy, trace: seq<World>, w: World, a: Action, s: nat)
    requires Reachable(policy, trace, w) && Enabled(policy, w, a) && s in w.rows && Marks(policy, w, a, s)
    ensures w.rows[s].attempts != []
    ensures a.Mark? ==>
              |w.workers[a.k].row.attempts| < |w.rows[s].attempts| || Newest(w.rows[s]) in w.network
    ensures a.Repair? ==> Visible(w.chain, w.rows[s].attempts)
  {
    ReachableInv(policy, trace, w);
    assert PcOk(policy, w.rows, w.chain, w.head, w.workers[a.k]);
    if a.Mark? {
      ReachableDelivered(policy, trace, w);
      CurrentCopySent(w, a.k);
    } else {
      ReceiptIsVisible(policy, w, s, w.workers[a.k].stage.receipt);
    }
  }

  lemma CurrentCopySent(w: World, k: nat)
    requires Delivered(w) && Active(w, k) && w.workers[k].stage.Sent? && w.workers[k].s in w.rows
    requires w.workers[k].row.attempts <= w.rows[w.workers[k].s].attempts
    ensures w.rows[w.workers[k].s].attempts != []
    ensures |w.workers[k].row.attempts| < |w.rows[w.workers[k].s].attempts|
            || Newest(w.rows[w.workers[k].s]) in w.network
  {
    assert DeliveredPc(w.network, w.workers[k]);
  }

  lemma ReceiptIsVisible(policy: Policy, w: World, s: nat, r: Receipt)
    requires ChainOk(w.network, w.chain, w.head) && s in w.rows && OwnReceipt(w.chain, w.rows[s].attempts, r)
    ensures Visible(w.chain, w.rows[s].attempts)
  {
    var i :| 0 <= i < |w.chain| && w.chain[i] == r;
    assert Mined(w.chain, r.tx.value);
  }

  /** With one worker: whenever a row is in that position, one of its attempts is mined. */
  predicate Excused(w: World) {
    forall s :: s in w.rows && Uncovered(w, s) ==> Visible(w.chain, w.rows[s].attempts)
  }

  lemma ExcusedKept(policy: Policy, trace: seq<World>, w: World, a: Action)
    requires Reachable(policy, trace, w) && Enabled(policy, w, a) && Excused(w) && Solo(w)
    ensures Excused(Do(policy, w, a))
  {
    var w' := Do(policy, w, a);
    ReachableInv(policy, trace, w);
    ActionKeeps(policy, w, a);
    forall s | Uncovered(w', s) ensures Visible(w'.chain, w'.rows[s].attempts) {
      if s in w.rows {
        assert RowGrows(w.rows[s], w'.rows[s]);
        if !Uncovered(w, s) {
          UncoveredIff(policy, trace, w, a, s);
          SoloIsCurrent(policy, w, a, s);
        }
        VisibleStays(w.chain, w'.chain, w.rows[s].attempts, w'.rows[s].attempts);
      } else {
        NewRowIsBare(policy, w, a, s);
      }
    }
  }

  lemma SoloIsCurrent(policy: Policy, w: World, a: Action, s: nat)
    requires Solo(w) && Enabled(policy, w, a) && Marks(policy, w, a, s) && s in w.rows
    ensures w.workers[a.k].row.attempts == w.rows[s].attempts
  {
    assert a.k == 0;
  }

  lemma NewRowIsBare(policy: Policy, w: World, a: Action, s: nat)
    requires Enabled(policy, w, a) && s !in w.rows && s in Do(policy, w, a).rows
    ensures Do(policy, w, a).rows[s].attempts == []
  {
  }

  lemma PrefixRun(policy: Policy, trace: seq<World>, n: nat)
    requires Run(policy, trace) && n < |trace|
    ensures Reachable(policy, trace[..n + 1], trace[n])
  {
    var prefix := trace[..n + 1];
    forall i | 0 < i < |prefix| ensures Runs.StepAt(Steps(policy), prefix, i) {
      assert Runs.StepAt(Steps(policy), trace, i);
    }
  }

  lemma {:induction false} OneReplicaExcused(policy: Policy, trace: seq<World>, n: nat)
    requires Run(policy, trace) && n < |trace|
    requires forall i, k :: 0 <= i < |trace| && k in trace[i].workers ==> k == 0
    ensures Excused(trace[n])
  {
    if n > 0 {
      OneReplicaExcused(policy, trace, n - 1);
      SoloRun(policy, trace, n - 1);
      PrefixRun(policy, trace, n - 1);
      assert Runs.StepAt(Steps(policy), trace, n);
      ExcusedNext(policy, trace[..n], trace[n - 1], trace[n]);
    }
  }

  lemma ExcusedNext(policy: Policy, trace: seq<World>, w: World, w': World)
    requires Reachable(policy, trace, w) && Next(policy, w, w') && Excused(w) && Solo(w)
    ensures Excused(w')
  {
    var a :| Enabled(policy, w, a) && w' == Do(policy, w, a);
    ExcusedKept(policy, trace, w, a);
  }

  /** With a single relay worker a broadcast row whose newest bytes never left has a
      mined attempt, so nothing that still needed sending is lost. */
  lemma OneReplicaLosesNothing(policy: Policy, trace: seq<World>, w: World, s: nat) returns (t: Tx)
    requires Reachable(policy, trace, w) && Uncovered(w, s)
    requires forall i, j :: 0 <= i < |trace| && j in trace[i].workers ==> j == 0
    ensures t in w.rows[s].attempts && Mined(w.chain, t)
  {
    OneReplicaExcused(policy, trace, |trace| - 1);
    t :| t in w.rows[s].attempts && Mined(w.chain, t);
  }

  // ----------------------------------------------------------------------- the runs

  /** Some run ends in `w`. */
  ghost predicate Arrives(policy: Policy, w: World) { exists trace :: Reachable(policy, trace, w) }

  lemma Take(policy: Policy, w: World, a: Action)
    requires Arrives(policy, w) && Enabled(policy, w, a)
    ensures Arrives(policy, Do(policy, w, a))
  {
    var trace :| Reachable(policy, trace, w);
    StepExtends(policy, trace, w, a);
  }

  lemma Overwritten(workers: map<nat, Pc>, k: nat, a: Pc, b: Pc)
    ensures workers[k := a][k := b] == workers[k := b]
  {
  }

  lemma Moved(w: World, k: nat, a: Pc, b: Pc)
    ensures Goto(Goto(w, k, a), k, b) == Goto(w, k, b)
  {
    Overwritten(w.workers, k, a, b);
  }

  /** A step that only moves worker `k`. */
  lemma Moves(policy: Policy, w: World, k: nat, from: Pc, a: Action, to: Pc)
    requires Arrives(policy, Goto(w, k, from)) && Enabled(policy, Goto(w, k, from), a)
    requires Do(policy, Goto(w, k, from), a) == Goto(Goto(w, k, from), k, to)
    ensures Arrives(policy, Goto(w, k, to))
  {
    Take(policy, Goto(w, k, from), a);
    Moved(w, k, from, to);
  }

  /** An idle worker takes up a relayable row. */
  lemma PicksUp(policy: Policy, w: World, k: nat, s: nat)
    requires Arrives(policy, w) && k in w.workers && w.workers[k].Idle? && s in w.rows && Relayable(w.rows[s].state)
    ensures Arrives(policy, Goto(w, k, Busy(s, w.rows[s], Visible(w.chain, w.rows[s].attempts), Called(false))))
  {
    Take(policy, w, List(k, s));
    Take(policy, Goto(w, k, Busy(s, w.rows[s], false, Listed)), Call(k));
    Moved(w, k, Busy(s, w.rows[s], false, Listed),
          Busy(s, w.rows[s], Visible(w.chain, w.rows[s].attempts), Called(false)));
  }

  /** Asking for hashes of which none is mined. */
  lemma {:induction false} LooksThrough(policy: Policy, w: World, k: nat, b: Pc, unseen: seq<Tx>, second: bool)
    requires b.Busy? && Arrives(policy, Goto(w, k, At(b, Looking(unseen, second))))
    requires forall t :: t in unseen ==> !Mined(w.chain, t)
    ensures Arrives(policy, Goto(w, k, At(b, Looking([], second))))
    decreases |unseen|
  {
    if unseen != [] {
      var n := |unseen| - 1;
      Take(policy, Goto(w, k, At(b, Looking(unseen, second))), Look(k));
      Moved(w, k, At(b, Looking(unseen, second)), At(b, Looking(unseen[..n], second)));
      LooksThrough(policy, w, k, b, unseen[..n], second);
    }
  }

  /** A call that finds no receipt goes on to send, or to replace what it sent. */
  lemma FindsNothing(policy: Policy, w: World, k: nat, b: Pc)
    requires b.Busy? && b.stage.Called? && Relayable(b.row.state) && b.s in w.rows
    requires Arrives(policy, Goto(w, k, b)) && forall t :: t in w.rows[b.s].attempts ==> !Mined(w.chain, t)
    ensures Arrives(policy, Goto(w, k, At(b, if b.row.state == Signed then Unsent(false) else Unmined)))
  {
    var attempts, again := w.rows[b.s].attempts, b.stage.again;
    Take(policy, Goto(w, k, b), ReadHashes(k));
    Moved(w, k, b, At(b, Looking(attempts, again)));
    LooksThrough(policy, w, k, b, attempts, again);
    Take(policy, Goto(w, k, At(b, Looking([], again))), NoReceipt(k));
    Moved(w, k, At(b, Looking([], again)), At(b, if b.row.state == Signed then Unsent(false) else Unmined));
  }

  const POLICY := Policy(Caps(2000, 200), 1000, 0)
  const AUTH := Authorization("c", "h", "p", Private)

  /** The attempts of the runs: the first, its next rung, and one a wei above that. */
  const T0 := Tx(0, 0, 1000, 100, 120)
  const T1 := Tx(0, 0, 1125, 113, 120)
  const T2 := Tx(0, 0, 1126, 114, 120)

  function Row0(state: State, attempts: seq<Tx>, basis: seq<nat>): Row { Row(state, AUTH, attempts, basis, None) }

  function One(state: State): Row { Row0(state, [T0], [0]) }

  function Two(state: State): Row { Row0(state, [T0, T1], [0, 1]) }

  /** One submission, numbered 0, with nonce 0. */
  function W(row: Row, network: set<Tx>, chain: seq<Receipt>, workers: map<nat, Pc>): World {
    World(map[0 := row], 1, network, chain, 0, workers)
  }

  lemma FirstQuote()
    ensures Prepare(POLICY, Market(450, 100), Quote(0, 0), 100) == (Some(Quote(1000, 100)), Some(120))
  {
  }

  lemma NextQuote(market: Market)
    requires market == Market(0, 0) || market == Market(506, 114)
    ensures Prepare(POLICY, market, Quote(1000, 100), 100)
            == (Some(if market == Market(0, 0) then Quote(1125, 113) else Quote(1126, 114)), Some(120))
  {
  }

  /** The new submission, before anyone took it up. */
  const NEW := Row0(Authorized, [], [])
  const FRESH := World(map[0 := NEW], 0, {}, [], 0, map[])

  lemma Started()
    ensures Arrives(POLICY, Goto(FRESH, 0, Idle))
  {
    var w := World(map[], 0, {}, [], 0, map[]);
    assert Reachable(POLICY, [w], w);
    Take(POLICY, w, Authorize(0, AUTH));
    assert w.rows[0 := NEW] == FRESH.rows;
    Take(POLICY, FRESH, Start(0));
  }

  /** Worker 0 takes up the new submission and signs its first attempt. */
  lemma FirstSigned()
    ensures Arrives(POLICY, Goto(W(One(Signed), {}, [], map[]), 0, Busy(0, One(Signed), false, Called(false))))
  {
    var b := Busy(0, NEW, false, Listed);
    var signing := At(b, Signing(Quote(1000, 100), 120));
    Started();
    Moves(POLICY, FRESH, 0, Idle, List(0, 0), b);
    Moves(POLICY, FRESH, 0, b, Call(0), At(b, Called(false)));
    FirstQuote();
    Moves(POLICY, FRESH, 0, At(b, Called(false)), QuoteFirst(0, Market(450, 100), 100), signing);
    Take(POLICY, Goto(FRESH, 0, signing), Persist(0, 0, true));
    Moved(FRESH, 0, signing, Busy(0, One(Signed), false, Called(false)));
    assert FRESH.rows[0 := One(Signed)] == map[0 := One(Signed)];
  }

  /** And sends it. */
  lemma FirstSent()
    ensures Arrives(POLICY, Goto(W(One(Signed), {T0}, [], map[]), 0, Busy(0, One(Signed), false, Sent(false))))
  {
    var b := Busy(0, One(Signed), false, Called(false));
    var w := W(One(Signed), {}, [], map[]);
    FirstSigned();
    FindsNothing(POLICY, w, 0, b);
    Sends(w, 0, At(b, Unsent(false)));
    assert {} + {T0} == {T0};
  }

  lemma Sends(w: World, k: nat, b: Pc)
    requires b.Busy? && b.stage.Unsent? && b.row.attempts != [] && Arrives(POLICY, Goto(w, k, b))
    ensures Arrives(POLICY, Goto(w.(network := w.network + {Newest(b.row)}), k, At(b, Sent(b.stage.last))))
  {
    Take(POLICY, Goto(w, k, b), Send(k, true, true));
    Moved(w, k, b, At(b, Sent(b.stage.last)));
  }

  /** A sent attempt is marked in the table. */
  lemma Marked(w: World, k: nat, b: Pc)
    requires b.Busy? && b.stage.Sent? && b.s == 0 && 0 in w.rows && w.rows == map[0 := w.rows[0]]
    requires Relayable(w.rows[0].state)
    requires Arrives(POLICY, Goto(w, k, b))
    ensures var row := w.rows[0].(state := Broadcast);
            var next := if b.stage.final then Idle else b.(row := row, stage := Called(true));
            Arrives(POLICY, Goto(w.(rows := map[0 := row]), k, next))
  {
    var row := w.rows[0].(state := Broadcast);
    Take(POLICY, Goto(w, k, b), Mark(k, true));
    Moved(w, k, b, if b.stage.final then Idle else b.(row := row, stage := Called(true)));
    assert w.rows[0 := row] == map[0 := row];
  }

  /** Worker `k` marks, finds no receipt and quotes a replacement for the first attempt. */
  lemma Requoted(w: World, k: nat, market: Market)
    requires w.rows == map[0 := One(Broadcast)] && w.chain == []
    requires market == Market(0, 0) || market == Market(506, 114)
    requires exists again :: Arrives(POLICY, Goto(w, k, Busy(0, One(Broadcast), false, Called(again))))
    ensures var q := if market == Market(0, 0) then Quote(1125, 113) else Quote(1126, 114);
            Arrives(POLICY, Goto(w, k, Busy(0, One(Broadcast), false, Bumping(q, 120))))
  {
    var again :| Arrives(POLICY, Goto(w, k, Busy(0, One(Broadcast), false, Called(again))));
    var b := Busy(0, One(Broadcast), false, Called(again));
    FindsNothing(POLICY, w, k, b);
    NextQuote(market);
    var q := if market == Market(0, 0) then Quote(1125, 113) else Quote(1126, 114);
    Moves(POLICY, w, k, At(b, Unmined), Requote(k, market, 100), At(b, Bumping(q, 120)));
  }

  /** The replacement is stored; the reply may be lost. */
  lemma Replaced(w: World, k: nat, replied: bool)
    requires w.rows == map[0 := One(Broadcast)]
    requires Arrives(POLICY, Goto(w, k, Busy(0, One(Broadcast), false, Bumping(Quote(1125, 113), 120))))
    ensures var next := if replied then Busy(0, Two(Signed), false, Unsent(true)) else Idle;
            Arrives(POLICY, Goto(w.(rows := map[0 := Two(Signed)]), k, next))
  {
    var b := Busy(0, One(Broadcast), false, Bumping(Quote(1125, 113), 120));
    Take(POLICY, Goto(w, k, b), Replace(k, replied));
    assert BumpRow(One(Broadcast), T1, 1) == Two(Signed);
    Moved(w, k, b, if replied then Busy(0, Two(Signed), false, Unsent(true)) else Idle);
    assert w.rows[0 := Two(Signed)] == map[0 := Two(Signed)];
  }

  /** Worker 0 alone: the reply to storing a replacement is lost, the first attempt is
      mined, and the repair after the next listing marks the row. */
  lemma RepairMayCoverUnsentBytes() returns (w: World)
    ensures Arrives(POLICY, w) && Uncovered(w, 0) && w.workers.Keys == {0} && w.rows[0] == Two(Broadcast)
  {
    var w0 := W(One(Broadcast), {T0}, [], map[]);
    var receipt := Receipt(Some(T0), 0, Events(true, [], []));
    FirstSent();
    Marked(W(One(Signed), {T0}, [], map[]), 0, Busy(0, One(Signed), false, Sent(false)));
    Requoted(w0, 0, Market(0, 0));
    Replaced(w0, 0, false);
    var w1 := W(Two(Signed), {T0}, [receipt], map[]);
    Take(POLICY, Goto(W(Two(Signed), {T0}, [], map[]), 0, Idle), MineOwn(T0, 0, Events(true, [], [])));
    assert [] + [receipt] == [receipt];
    RepairedLate(w1);
    w := Goto(W(Two(Broadcast), {T0}, [receipt], map[]), 0, Busy(0, Two(Broadcast), true, Found(receipt)));
  }

  lemma RepairedLate(w: World)
    requires w == W(Two(Signed), {T0}, [Receipt(Some(T0), 0, Events(true, [], []))], map[])
    requires Arrives(POLICY, Goto(w, 0, Idle))
    ensures Arrives(POLICY, Goto(w.(rows := map[0 := Two(Broadcast)]), 0,
                                 Busy(0, Two(Broadcast), true, Found(w.chain[0]))))
  {
    var b := Busy(0, Two(Signed), true, Called(false));
    assert T0 in Two(Signed).attempts && Mined(w.chain, T0);
    PicksUp(POLICY, Goto(w, 0, Idle), 0, 0);
    Moved(w, 0, Idle, b);
    Moves(POLICY, w, 0, b, ReadHashes(0), At(b, Looking([T0, T1], false)));
    assert [T0, T1][..1] == [T0];
    Moves(POLICY, w, 0, At(b, Looking([T0, T1], false)), Look(0), At(b, Looking([T0], false)));
    Moves(POLICY, w, 0, At(b, Looking([T0], false)), Look(0), At(b, Found(w.chain[0])));
    Take(POLICY, Goto(w, 0, At(b, Found(w.chain[0]))), Repair(0, true));
    Moved(w, 0, At(b, Found(w.chain[0])), Busy(0, Two(Broadcast), true, Found(w.chain[0])));
    assert w.rows[0 := Two(Broadcast)] == map[0 := Two(Broadcast)];
  }

  lemma Swapped(w: World, j: nat, k: nat, a: Pc, b: Pc)
    requires j != k
    ensures Goto(Goto(w, j, a), k, b) == Goto(Goto(w, k, b), j, a)
  {
    assert w.workers[j := a][k := b] == w.workers[k := b][j := a];
  }

  /** A second worker starts and takes up row 0. */
  lemma SecondPicksUp(w: World, k: nat)
    requires Arrives(POLICY, w) && k !in w.workers && w.chain == []
    requires 0 in w.rows && w.rows == map[0 := w.rows[0]] && Relayable(w.rows[0].state)
    ensures Arrives(POLICY, Goto(w, k, Busy(0, w.rows[0], false, Called(false))))
  {
    assert !Visible(w.chain, w.rows[0].attempts);
    Take(POLICY, w, Start(k));
    PicksUp(POLICY, Goto(w, k, Idle), k, 0);
    Moved(w, k, Idle, Busy(0, w.rows[0], false, Called(false)));
  }

  /** Two workers: worker 0 has sent the first attempt; worker 1 sends it too, marks,
      finds no receipt and stores a replacement; then worker 0 marks the row. */
  lemma MarkMayCoverUnsentBytes() returns (w: World)
    ensures Arrives(POLICY, w) && Uncovered(w, 0) && w.chain == [] && w.rows[0] == Two(Broadcast)
  {
    var sent, b := Busy(0, One(Signed), false, Sent(false)), Busy(0, One(Signed), false, Called(false));
    var w0 := Goto(W(One(Signed), {T0}, [], map[]), 0, sent);
    FirstSent();
    SecondPicksUp(w0, 1);
    FindsNothing(POLICY, w0, 1, b);
    Sends(w0, 1, At(b, Unsent(false)));
    assert {T0} + {T0} == {T0};
    Marked(w0, 1, At(b, Sent(false)));
    var w1 := Goto(W(One(Broadcast), {T0}, [], map[]), 0, sent);
    assert w0.(rows := map[0 := One(Broadcast)]) == w1;
    Requoted(w1, 1, Market(0, 0));
    Replaced(w1, 1, true);
    var waiting := Busy(0, Two(Signed), false, Unsent(true));
    var w2 := Goto(W(Two(Signed), {T0}, [], map[]), 1, waiting);
    Swapped(W(Two(Signed), {T0}, [], map[]), 0, 1, sent, waiting);
    Marked(w2, 0, sent);
    w := Goto(Goto(W(Two(Broadcast), {T0}, [], map[]), 1, waiting), 0, Busy(0, Two(Broadcast), false, Called(true)));
  }

  // ------------------------------------------------------------------ a missing rung

  lemma LateReplaced(w: World, k: nat)
    requires w.rows == map[0 := Two(Broadcast)]
    requires Arrives(POLICY, Goto(w, k, Busy(0, One(Broadcast), false, Bumping(Quote(1126, 114), 120))))
    ensures Arrives(POLICY, Goto(w.(rows := map[0 := Row0(Signed, [T0, T1, T2], [0, 1, 1])]), k,
                                 Busy(0, Row0(Signed, [T0, T1, T2], [0, 1, 1]), false, Unsent(true))))
  {
    var b := Busy(0, One(Broadcast), false, Bumping(Quote(1126, 114), 120));
    var row := Row0(Signed, [T0, T1, T2], [0, 1, 1]);
    Take(POLICY, Goto(w, k, b), Replace(k, true));
    assert BumpRow(Two(Broadcast), T2, 1) == row;
    Moved(w, k, b, Busy(0, row, false, Unsent(true)));
    assert w.rows[0 := row] == map[0 := row];
  }

  /** Worker 1 quotes a replacement while worker 0 stores, sends and marks another one;
      the store then accepts worker 1's although it is no rung above the newest. */
  lemma StaleRecordBreaksLadder() returns (w: World)
    ensures Arrives(POLICY, w) && 0 in w.rows && FeesOf(w.rows[0].attempts) == [1000, 1125, 1126]
    ensures !Ladder(FeesOf(w.rows[0].attempts)) && !QuotedCurrent(w.rows[0])
  {
    var b, q1 := Busy(0, One(Broadcast), false, Called(true)), Busy(0, One(Broadcast), false, Bumping(Quote(1126, 114), 120));
    var base := W(One(Broadcast), {T0}, [], map[]);
    FirstSent();
    Marked(W(One(Signed), {T0}, [], map[]), 0, Busy(0, One(Signed), false, Sent(false)));
    SecondPicksUp(Goto(base, 0, b), 1);
    Requoted(Goto(base, 0, b), 1, Market(506, 114));
    Swapped(base, 0, 1, b, q1);
    FirstWins(Goto(base, 1, q1));
    var after := W(Two(Broadcast), {T0, T1}, [], map[]);
    Swapped(after, 1, 0, q1, Idle);
    LateReplaced(Goto(after, 0, Idle), 1);
    w := Goto(Goto(W(Row0(Signed, [T0, T1, T2], [0, 1, 1]), {T0, T1}, [], map[]), 0, Idle), 1,
              Busy(0, Row0(Signed, [T0, T1, T2], [0, 1, 1]), false, Unsent(true)));
    NoRung(w.rows[0]);
  }

  lemma NoRung(row: Row)
    requires row == Row0(Signed, [T0, T1, T2], [0, 1, 1])
    ensures FeesOf(row.attempts) == [1000, 1125, 1126] && !Ladder(FeesOf(row.attempts)) && !QuotedCurrent(row)
  {
    var f := FeesOf(row.attempts);
    assert f == [1000, 1125, 1126];
    assert 8 * f[2] < 9 * f[1];
    assert row.basis[2] == 1;
  }

  /** Worker 0 replaces, sends and marks. */
  lemma FirstWins(w: World)
    requires w.rows == map[0 := One(Broadcast)] && w.network == {T0} && w.chain == []
    requires Arrives(POLICY, Goto(w, 0, Busy(0, One(Broadcast), false, Called(true))))
    ensures Arrives(POLICY, Goto(w.(rows := map[0 := Two(Broadcast)], network := {T0, T1}), 0, Idle))
  {
    Requoted(w, 0, Market(0, 0));
    Replaced(w, 0, true);
    var w1 := w.(rows := map[0 := Two(Signed)]);
    Sends(w1, 0, Busy(0, Two(Signed), false, Unsent(true)));
    assert {T0} + {T1} == {T0, T1};
    Marked(w1.(network := {T0, T1}), 0, Busy(0, Two(Signed), false, Sent(true)));
  }
}
