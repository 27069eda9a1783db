/** What holds in every state the relay workers can reach. */
module RelayGuarantees {
  import opened ClaimIndex
  import opened Fees
  import opened RelayReceipts
  import opened RelaySystem
  import Runs

  /** Only bytes already in the attempt history are ever sent. */
  lemma OnlyPersistedBytesAreSent(policy: Policy, trace: seq<World>, w: World, t: Tx)
    requires Reachable(policy, trace, w) && t in w.network
    ensures t.submission in w.rows && t in w.rows[t.submission].attempts
  {
    ReachableInv(policy, trace, w);
  }

  /** All attempts of a submission share one nonce, and no two submissions share one. */
  lemma OneNonceEach(policy: Policy, trace: seq<World>, w: World, s: nat, t: nat, i: nat, j: nat)
    requires Reachable(policy, trace, w) && s in w.rows && t in w.rows
    requires i < |w.rows[s].attempts| && j < |w.rows[t].attempts|
    ensures w.rows[s].attempts[i].nonce == w.rows[t].attempts[j].nonce <==> s == t
  {
    ReachableInv(policy, trace, w);
    assert AttemptOk(policy, s, w.rows[s].attempts[i], w.rows[s].attempts[0].nonce);
    assert AttemptOk(policy, t, w.rows[t].attempts[j], w.rows[t].attempts[0].nonce);
  }

  /** Whichever attempts the chain prefers, it mines at most one of a submission. */
  lemma AtMostOneAttemptMined(policy: Policy, trace: seq<World>, w: World, i: nat, j: nat)
    requires Reachable(policy, trace, w) && i < |w.chain| && j < |w.chain|
    requires w.chain[i].tx.Some? && w.chain[j].tx.Some?
    requires w.chain[i].tx.value.submission == w.chain[j].tx.value.submission
    ensures i == j
  {
    ReachableInv(policy, trace, w);
    var a, b := w.chain[i].tx.value, w.chain[j].tx.value;
    var attempts := w.rows[a.submission].attempts;
    var x :| 0 <= x < |attempts| && attempts[x] == a;
    var y :| 0 <= y < |attempts| && attempts[y] == b;
    OneNonceEach(policy, trace, w, a.submission, b.submission, x, y);
  }

  /** `confirmed` is recorded only from a receipt of one of the submission's own
      attempts, deep enough, successful, and whose events name the authorization. */
  lemma ConfirmedIsProven(policy: Policy, trace: seq<World>, w: World, s: nat) returns (r: Receipt, c: nat)
    requires Reachable(policy, trace, w) && s in w.rows && w.rows[s].state == Confirmed
    ensures w.rows[s].outcome == Some((r, c))
    ensures r in w.chain && r.tx.Some? && r.tx.value in w.rows[s].attempts && r.tx.value.submission == s
    ensures r.block + policy.confirmations <= w.head
    ensures Evidence(w.rows[s].auth, r.events, c)
  {
    ReachableInv(policy, trace, w);
    assert OutcomeOk(policy, w.chain, w.head, w.rows[s]);
    r, c := w.rows[s].outcome.value.0, w.rows[s].outcome.value.1;
    ConfirmedIffEvidence(w.rows[s].auth, r.events, c);
    var i :| 0 <= i < |w.rows[s].attempts| && w.rows[s].attempts[i] == r.tx.value;
    assert AttemptOk(policy, s, w.rows[s].attempts[i], w.rows[s].attempts[0].nonce);
  }

  /** A confirmed, failed or expired submission never changes again, attempts are never
      lost, and an authorization is never altered. */
  lemma FinishedStaysFinished(policy: Policy, trace: seq<World>, i: nat, j: nat, s: nat)
    requires Run(policy, trace) && i <= j < |trace| && s in trace[i].rows
    ensures s in trace[j].rows && trace[i].rows[s].attempts <= trace[j].rows[s].attempts
    ensures trace[i].rows[s].auth == trace[j].rows[s].auth
    ensures var state := trace[i].rows[s].state;
            state == Confirmed || state == Failed || state == Expired ==> trace[j].rows[s] == trace[i].rows[s]
  {
    RunGrows(policy, trace, i, j);
    assert RowGrows(trace[i].rows[s], trace[j].rows[s]);
  }

  lemma HistoriesGrowByReplacement(policy: Policy, w: World, a: Action, s: nat)
    requires Enabled(policy, w, a) && s in w.rows && w.rows[s].attempts != []
    requires Do(policy, w, a).rows[s].attempts != w.rows[s].attempts
    ensures a.Replace? && w.workers[a.k].s == s && w.workers[a.k].stage.Bumping?
  {
  }

  /** A history with attempts grows only by a replacement, made by a call that found no
      receipt of any attempt, and that began when none was visible. */
  lemma LateCallsSignNoReplacement(policy: Policy, trace: seq<World>, w: World, a: Action, s: nat)
    requires Reachable(policy, trace, w) && Enabled(policy, w, a) && s in w.rows && w.rows[s].attempts != []
    requires Do(policy, w, a).rows[s].attempts != w.rows[s].attempts
    ensures a.Replace? && w.workers[a.k].s == s && !w.workers[a.k].late
  {
    HistoriesGrowByReplacement(policy, w, a, s);
    ReachableInv(policy, trace, w);
    assert PcOk(policy, w.rows, w.chain, w.head, w.workers[a.k]);
  }

  // ----------------------------------------------------------------------- fee ladder

  function FeesOf(attempts: seq<Tx>): seq<nat> {
    seq(|attempts|, i requires 0 <= i < |attempts| => attempts[i].fee)
  }

  /** Fees and tips rise strictly and stay within the caps on every run, so a submission
      has at most as many replacements as there are wei between its first fee and the cap. */
  lemma FeesRiseWithinCaps(policy: Policy, trace: seq<World>, w: World, s: nat)
    requires Reachable(policy, trace, w) && s in w.rows && w.rows[s].attempts != []
    ensures Rising(w.rows[s].attempts)
    ensures forall t :: t in w.rows[s].attempts ==>
              0 < t.priority <= t.fee <= policy.caps.maxFee && t.priority <= policy.caps.maxPriority
              && t.gas <= policy.gasCap
    ensures |w.rows[s].attempts| - 1 + w.rows[s].attempts[0].fee <= policy.caps.maxFee
  {
    ReachableInv(policy, trace, w);
    var attempts := w.rows[s].attempts;
    forall t | t in attempts ensures AttemptOk(policy, s, t, attempts[0].nonce) {
      var i :| 0 <= i < |attempts| && attempts[i] == t;
    }
    RisesByOne(attempts, |attempts| - 1);
  }

  lemma {:induction false} RisesByOne(attempts: seq<Tx>, k: nat)
    requires Rising(attempts) && k < |attempts|
    ensures attempts[0].fee + k <= attempts[k].fee
  {
    if k > 0 { RisesByOne(attempts, k - 1); }
  }

  /** Every replacement was quoted against the record as it then was. */
  predicate QuotedCurrent(row: Row) {
    forall i :: 0 < i < |row.basis| ==> row.basis[i] == i
  }

  lemma BasisKnown(policy: Policy, trace: seq<World>, w: World, s: nat)
    requires Reachable(policy, trace, w) && s in w.rows
    ensures BasisOk(w.rows[s].attempts, w.rows[s].basis)
  {
    ReachableInv(policy, trace, w);
  }

  lemma CurrentQuotesAreALadder(row: Row)
    requires BasisOk(row.attempts, row.basis) && QuotedCurrent(row)
    ensures Ladder(FeesOf(row.attempts))
  {
    var f := FeesOf(row.attempts);
    forall i | 0 < i < |f| ensures 8 * f[i] >= 9 * f[i - 1] {
      assert RungAbove(row.attempts, row.basis[i], row.attempts[i].fee, row.attempts[i].priority);
    }
  }

  /** Then the fees form a nine-eighths ladder and the replacements are logarithmic. */
  lemma LadderWhenQuotedCurrent(policy: Policy, trace: seq<World>, w: World, s: nat, k: nat)
    requires Reachable(policy, trace, w) && s in w.rows && k < |w.rows[s].attempts|
    requires QuotedCurrent(w.rows[s])
    ensures var f, cap := FeesOf(w.rows[s].attempts), policy.caps.maxFee;
            && Pow(9, k) * f[0] <= Pow(8, k) * f[k] <= Pow(8, k) * cap
            && Pow(2, k / 6) * f[0] <= cap
  {
    FeesRiseWithinCaps(policy, trace, w, s);
    BasisKnown(policy, trace, w, s);
    var f := FeesOf(w.rows[s].attempts);
    CurrentQuotesAreALadder(w.rows[s]);
    LadderBound(f, policy.caps.maxFee, k);
    ReplacementsAreLogarithmic(f, policy.caps.maxFee, k);
  }

  /** One replica's copy of a record is always current. */
  predicate Solo(w: World) {
    && (forall k :: k in w.workers ==> k == 0)
    && (forall s :: s in w.rows ==> QuotedCurrent(w.rows[s]) && |w.rows[s].basis| == |w.rows[s].attempts|)
    && (0 in w.workers && w.workers[0].Busy? ==>
          w.workers[0].s in w.rows && w.workers[0].row.attempts == w.rows[w.workers[0].s].attempts)
  }

  lemma SoloReplaceKeeps(policy: Policy, w: World, a: Action)
    requires Solo(w) && Enabled(policy, w, a) && a.Replace?
    ensures Solo(Do(policy, w, a))
  {
  }

  lemma SoloPersistKeeps(policy: Policy, w: World, a: Action)
    requires Solo(w) && Enabled(policy, w, a) && a.Persist?
    ensures Solo(Do(policy, w, a))
  {
  }

  lemma SoloMarkKeeps(policy: Policy, w: World, a: Action)
    requires Solo(w) && Enabled(policy, w, a) && (a.Mark? || a.Repair?)
    ensures Solo(Do(policy, w, a))
  {
  }

  lemma SoloKeeps(policy: Policy, w: World, a: Action)
    requires Solo(w) && Enabled(policy, w, a) && (a.Start? ==> a.k == 0)
    ensures Solo(Do(policy, w, a))
  {
    if a.Replace? {
      SoloReplaceKeeps(policy, w, a);
    } else if a.Persist? {
      SoloPersistKeeps(policy, w, a);
    } else if a.Mark? || a.Repair? {
      SoloMarkKeeps(policy, w, a);
    } else if a.Settle? || a.Report? {
      SoloEndKeeps(policy, w, a);
    } else if a.Authorize? || a.Expire? {
      SoloRowKeeps(policy, w, a);
    } else {
      SoloMoveKeeps(policy, w, a);
    }
  }

  lemma SoloEndKeeps(policy: Policy, w: World, a: Action)
    requires Solo(w) && Enabled(policy, w, a) && (a.Settle? || a.Report?)
    ensures Solo(Do(policy, w, a))
  {
  }

  lemma SoloRowKeeps(policy: Policy, w: World, a: Action)
    requires Solo(w) && Enabled(policy, w, a) && (a.Authorize? || a.Expire?)
    ensures Solo(Do(policy, w, a))
  {
  }

  /** The other actions leave the rows alone, and a call's copy of its own. */
  lemma SoloMoveKeeps(policy: Policy, w: World, a: Action)
    requires Solo(w) && Enabled(policy, w, a) && (a.Start? ==> a.k == 0)
    requires !a.Replace? && !a.Persist? && !a.Mark? && !a.Repair? && !a.Settle? && !a.Report?
    requires !a.Authorize? && !a.Expire?
    ensures Solo(Do(policy, w, a))
  {
  }

  lemma SoloNext(policy: Policy, w: World, w': World)
    requires Solo(w) && Next(policy, w, w') && forall k :: k in w'.workers ==> k == 0
    ensures Solo(w')
  {
    var a :| Enabled(policy, w, a) && w' == Do(policy, w, a);
    if a.Start? { assert a.k in w'.workers; }
    SoloKeeps(policy, w, a);
  }

  lemma {:induction false} SoloRun(policy: Policy, trace: seq<World>, n: nat)
    requires Run(policy, trace) && n < |trace|
    requires forall i, k :: 0 <= i < |trace| && k in trace[i].workers ==> k == 0
    ensures Solo(trace[n])
  {
    if n > 0 {
      SoloRun(policy, trace, n - 1);
      assert Runs.StepAt(Steps(policy), trace, n);
      SoloNext(policy, trace[n - 1], trace[n]);
    }
  }

  /** With a single relay worker the ladder holds on every run, whatever crashes. */
  lemma OneReplicaKeepsTheLadder(policy: Policy, trace: seq<World>, w: World, s: nat, k: nat)
    requires Reachable(policy, trace, w) && s in w.rows && k < |w.rows[s].attempts|
    requires forall i, j :: 0 <= i < |trace| && j in trace[i].workers ==> j == 0
    ensures var f, cap := FeesOf(w.rows[s].attempts), policy.caps.maxFee;
            && Pow(9, k) * f[0] <= Pow(8, k) * f[k] <= Pow(8, k) * cap
            && Pow(2, k / 6) * f[0] <= cap
  {
    SoloRun(policy, trace, |trace| - 1);
    LadderWhenQuotedCurrent(policy, trace, w, s, k);
  }
}
