/** Where the outbox's attempts and failures come from: facts about whole runs of the relay
    workers together with the actions taken in them. */
module RelayProvenance {
  import opened ClaimIndex
  import opened Fees
  import opened RelayErrors
  import opened RelayReceipts
  import opened RelaySystem
  import Runs

  ghost predicate Does(policy: Policy, w: World, a: Action, w': World) {
    Enabled(policy, w, a) && w' == Do(policy, w, a)
  }

  ghost function Doing(policy: Policy): (World, Action, World) -> bool { (w, a, w') => Does(policy, w, a, w') }

  /** A run and its actions. Every run has such actions. */
  ghost predicate Labelled(policy: Policy, trace: seq<World>, acts: seq<Action>) {
    Runs.Labelled(Starts(policy), Doing(policy), trace, acts)
  }

  lemma LabelsTheSteps(policy: Policy)
    ensures Runs.Labels(Steps(policy), Doing(policy))
  {
    forall w, a, w' | Does(policy, w, a, w') ensures Next(policy, w, w') { }
    forall w, w' | Next(policy, w, w') ensures exists a :: Doing(policy)(w, a, w') {
      var a :| Enabled(policy, w, a) && w' == Do(policy, w, a);
      assert Doing(policy)(w, a, w');
    }
  }

  lemma LabelledIsRun(policy: Policy, trace: seq<World>, acts: seq<Action>)
    requires Labelled(policy, trace, acts)
    ensures Run(policy, trace)
  {
    LabelsTheSteps(policy);
    Runs.LabelledIsRun(Starts(policy), Steps(policy), Doing(policy), trace, acts);
  }

  lemma RunHasActions(policy: Policy, trace: seq<World>) returns (acts: seq<Action>)
    requires Run(policy, trace)
    ensures Labelled(policy, trace, acts)
  {
    LabelsTheSteps(policy);
    acts := Runs.RunIsLabelled(Starts(policy), Steps(policy), Doing(policy), trace);
  }

  lemma StepOf(policy: Policy, trace: seq<World>, acts: seq<Action>, i: nat)
    requires Labelled(policy, trace, acts) && i < |acts|
    ensures Enabled(policy, trace[i], acts[i]) && trace[i + 1] == Do(policy, trace[i], acts[i])
  {
    assert Runs.LabelAt(Doing(policy), trace, acts, i);
  }

  lemma StartIsEmpty(policy: Policy, trace: seq<World>, acts: seq<Action>)
    requires Labelled(policy, trace, acts)
    ensures trace[0].rows == map[] && trace[0].workers == map[]
  {
    assert Starts(policy)(trace[0]);
  }

  // ------------------------------------------------------------------------- failures

  /** Worker `k` is about to record error `e` of submission `s`. */
  predicate AtError(w: World, k: nat, s: nat, e: Error) {
    Active(w, k) && w.workers[k].s == s && w.workers[k].stage == Erring(e)
  }

  /** Action `i` brings worker `k` to error `e` of submission `s`: the adapter raised it, no
      quote or gas limit fits the caps, the node did not take the bytes, or a deep receipt
      does not show the authorized submission. */
  predicate Causes(policy: Policy, trace: seq<World>, acts: seq<Action>, i: nat, k: nat, s: nat, e: Error) {
    i < |acts| <= |trace| && Active(trace[i], k) && trace[i].workers[k].s == s &&
    var b, a := trace[i].workers[k], acts[i];
    || a == Raise(k, e)
    || (a.Send? && a.k == k && !a.ok && e == Dependency)
    || (a.QuoteFirst? && a.k == k && e == FeeCap && FeeQuote(policy.caps, a.market, 0, 0) == None)
    || (a.Requote? && a.k == k && e == FeeCap && b.row.attempts != []
        && FeeQuote(policy.caps, a.market, Newest(b.row).fee, Newest(b.row).priority) == None)
    || ((a.QuoteFirst? || a.Requote?) && a.k == k && e == Error.GasCap && 12 * a.estimate > 10 * policy.gasCap)
    || (a == Check(k) && b.stage.Found? && b.stage.receipt.block + policy.confirmations <= trace[i].head
        && Confirm(b.row.auth, b.stage.receipt.events) == Refused(e))
  }

  lemma ErrorArises(policy: Policy, w: World, a: Action, k: nat, s: nat, e: Error)
    requires Enabled(policy, w, a) && AtError(Do(policy, w, a), k, s, e)
    ensures AtError(w, k, s, e) || Causes(policy, [w], [a], 0, k, s, e)
  {
  }

  lemma {:induction false} ErrorHasCause(policy: Policy, trace: seq<World>, acts: seq<Action>, n: nat, k: nat, s: nat,
                                         e: Error) returns (i: nat)
    requires Labelled(policy, trace, acts) && n < |trace| && AtError(trace[n], k, s, e)
    ensures i < n && Causes(policy, trace, acts, i, k, s, e)
  {
    StartIsEmpty(policy, trace, acts);
    if n > 0 {
      i := n - 1;
      StepOf(policy, trace, acts, i);
      ErrorArises(policy, trace[i], acts[i], k, s, e);
      if AtError(trace[i], k, s, e) {
        i := ErrorHasCause(policy, trace, acts, n - 1, k, s, e);
      }
    }
  }

  lemma FailureArises(policy: Policy, w: World, a: Action, s: nat)
    requires Enabled(policy, w, a) && s in Do(policy, w, a).rows && Do(policy, w, a).rows[s].state == Failed
    requires s in w.rows ==> w.rows[s].state != Failed
    ensures a.Report? && Active(w, a.k) && w.workers[a.k].stage.Erring?
            && AtError(w, a.k, s, w.workers[a.k].stage.error) && Terminal(w.workers[a.k].stage.error)
  {
  }

  /** On every run a failed submission was failed by a worker that recorded an error of it,
      one that had a cause, and not a transient one. */
  lemma {:induction false} FailedForGood(policy: Policy, trace: seq<World>, acts: seq<Action>, n: nat, s: nat)
      returns (i: nat, j: nat, k: nat, e: Error)
    requires Labelled(policy, trace, acts) && n < |trace| && s in trace[n].rows && trace[n].rows[s].state == Failed
    ensures i < j < n && Causes(policy, trace, acts, i, k, s, e) && AtError(trace[j], k, s, e) && acts[j] == Report(k)
    ensures !e.Dependency? && !e.FeeCap? && !e.NonceConsumed?
  {
    StartIsEmpty(policy, trace, acts);
    if n > 0 {
      if s in trace[n - 1].rows && trace[n - 1].rows[s].state == Failed {
        i, j, k, e := FailedForGood(policy, trace, acts, n - 1, s);
      } else {
        j := n - 1;
        StepOf(policy, trace, acts, j);
        FailureArises(policy, trace[j], acts[j], s);
        k, e := acts[j].k, trace[j].workers[acts[j].k].stage.error;
        i := ErrorHasCause(policy, trace, acts, j, k, s, e);
        TerminalIff(e);
      }
    }
  }

  /** So outages, high fees and consumed nonces alone never fail a submission. */
  lemma TransientErrorsFailNothing(policy: Policy, trace: seq<World>, acts: seq<Action>, s: nat)
    requires Labelled(policy, trace, acts) && s in trace[|trace| - 1].rows
    requires forall j, k, e :: 0 <= j < |trace| && AtError(trace[j], k, s, e) ==>
               e.Dependency? || e.FeeCap? || e.NonceConsumed?
    ensures trace[|trace| - 1].rows[s].state != Failed
  {
    if trace[|trace| - 1].rows[s].state == Failed {
      var i, j, k, e := FailedForGood(policy, trace, acts, |trace| - 1, s);
    }
  }

  // --------------------------------------------------------------- requests and expiry

  /** An authorization enters the outbox as it was given, with nothing signed, ... */
  lemma AuthorizedAsGiven(policy: Policy, trace: seq<World>, acts: seq<Action>, i: nat, n: nat)
    requires Labelled(policy, trace, acts) && i < |acts| && acts[i].Authorize? && i < n < |trace|
    ensures acts[i].s in trace[i + 1].rows && trace[i + 1].rows[acts[i].s] == Row(Authorized, acts[i].auth, [], [], None)
    ensures acts[i].s in trace[n].rows && trace[n].rows[acts[i].s].auth == acts[i].auth
  {
    StepOf(policy, trace, acts, i);
    LabelledIsRun(policy, trace, acts);
    RunGrows(policy, trace, i + 1, n);
  }

  /** ... and once it has expired nothing is ever signed for it. */
  lemma ExpiredForGood(policy: Policy, trace: seq<World>, acts: seq<Action>, i: nat, n: nat)
    requires Labelled(policy, trace, acts) && i < |acts| && acts[i].Expire? && i < n < |trace|
    ensures acts[i].s in trace[n].rows && trace[n].rows[acts[i].s].state == Expired
    ensures trace[n].rows[acts[i].s].attempts == []
  {
    StepOf(policy, trace, acts, i);
    LabelledIsRun(policy, trace, acts);
    RunInv(policy, trace, i + 1);
    RunGrows(policy, trace, i + 1, n);
    assert RowOk(policy, acts[i].s, trace[i + 1].rows[acts[i].s]);
  }

  /** A nonce that a transaction signed elsewhere has taken never mines an attempt. */
  lemma ForeignNonceMinesNothing(policy: Policy, trace: seq<World>, acts: seq<Action>, i: nat, n: nat, t: Tx)
    requires Labelled(policy, trace, acts) && i < |acts| && acts[i].MineForeign? && i < n < |trace|
    requires t.nonce == |trace[i].chain|
    ensures t.nonce < |trace[n].chain| && !Mined(trace[n].chain, t)
  {
    StepOf(policy, trace, acts, i);
    LabelledIsRun(policy, trace, acts);
    RunGrows(policy, trace, i + 1, n);
    assert trace[i + 1].chain[t.nonce].tx == None;
  }

  // ------------------------------------------------------------------------- attempts

  /** Action `j` is worker `k`'s quote for submission `s`: from its market and estimate,
      above the fees of `minimum`. */
  predicate Quotes(policy: Policy, trace: seq<World>, acts: seq<Action>, j: nat, k: nat, s: nat, first: bool,
                   minimum: Quote, q: Quote, gas: nat)
  {
    j < |acts| <= |trace| && Active(trace[j], k) && trace[j].workers[k].s == s &&
    var a := acts[j];
    && (if first then a.QuoteFirst? else a.Requote?) && a.k == k
    && FeeQuote(policy.caps, a.market, minimum.fee, minimum.priority) == Some(q)
    && BufferedGas(a.estimate, policy.gasCap) == Some(gas)
  }

  /** Worker `k` holds a quote for submission `s`, made above `minimum`. */
  predicate AtQuote(w: World, k: nat, s: nat, first: bool, minimum: Quote, q: Quote, gas: nat) {
    Active(w, k) && w.workers[k].s == s &&
    var b := w.workers[k];
    if first then minimum == Quote(0, 0) && b.stage == Signing(q, gas)
    else b.stage == Bumping(q, gas) && b.row.attempts != []
         && minimum == Quote(Newest(b.row).fee, Newest(b.row).priority)
  }

  lemma SigningKept(policy: Policy, w: World, a: Action, k: nat)
    requires Enabled(policy, w, a) && Active(Do(policy, w, a), k) && Do(policy, w, a).workers[k].stage.Signing?
    requires !(a.QuoteFirst? && a.k == k)
    ensures k in w.workers && Do(policy, w, a).workers[k] == w.workers[k]
  {
  }

  lemma BumpingKept(policy: Policy, w: World, a: Action, k: nat)
    requires Enabled(policy, w, a) && Active(Do(policy, w, a), k) && Do(policy, w, a).workers[k].stage.Bumping?
    requires !(a.Requote? && a.k == k)
    ensures k in w.workers && Do(policy, w, a).workers[k] == w.workers[k]
  {
  }

  lemma QuoteArises(policy: Policy, w: World, a: Action, k: nat, s: nat, first: bool, minimum: Quote, q: Quote, gas: nat)
    requires Enabled(policy, w, a) && AtQuote(Do(policy, w, a), k, s, first, minimum, q, gas)
    ensures AtQuote(w, k, s, first, minimum, q, gas) || Quotes(policy, [w], [a], 0, k, s, first, minimum, q, gas)
  {
    if first && !(a.QuoteFirst? && a.k == k) {
      SigningKept(policy, w, a, k);
    } else if !first && !(a.Requote? && a.k == k) {
      BumpingKept(policy, w, a, k);
    }
  }

  lemma {:induction false} QuoteIsMade(policy: Policy, trace: seq<World>, acts: seq<Action>, n: nat, k: nat, s: nat,
                                       first: bool, minimum: Quote, q: Quote, gas: nat) returns (j: nat)
    requires Labelled(policy, trace, acts) && n < |trace| && AtQuote(trace[n], k, s, first, minimum, q, gas)
    ensures j < n && Quotes(policy, trace, acts, j, k, s, first, minimum, q, gas)
  {
    StartIsEmpty(policy, trace, acts);
    if n > 0 {
      j := n - 1;
      StepOf(policy, trace, acts, j);
      QuoteArises(policy, trace[j], acts[j], k, s, first, minimum, q, gas);
      if AtQuote(trace[j], k, s, first, minimum, q, gas) {
        j := QuoteIsMade(policy, trace, acts, n - 1, k, s, first, minimum, q, gas);
      }
    }
  }

  /** Attempts the row of `s` has, none if there is no row. */
  function Attempts(w: World, s: nat): seq<Tx> { if s in w.rows then w.rows[s].attempts else [] }

  lemma OthersSignNothing(policy: Policy, w: World, a: Action, s: nat)
    requires Enabled(policy, w, a) && !a.Persist? && !a.Replace?
    ensures Attempts(Do(policy, w, a), s) == Attempts(w, s)
  {
  }

  lemma PersistedIsQuoted(policy: Policy, w: World, a: Action, s: nat, x: nat)
    requires Enabled(policy, w, a) && a.Persist? && |Attempts(w, s)| <= x < |Attempts(Do(policy, w, a), s)|
    ensures var t := Attempts(Do(policy, w, a), s)[x];
            x == 0 && AtQuote(w, a.k, s, true, Quote(0, 0), Quote(t.fee, t.priority), t.gas)
            && t.nonce == Max(a.pending, w.nextNonce)
  {
  }

  lemma CopyIsOlder(policy: Policy, w: World, k: nat)
    requires Inv(policy, w) && Active(w, k) && w.workers[k].stage.Bumping?
    ensures w.workers[k].row.attempts != [] && w.workers[k].row.attempts <= Attempts(w, w.workers[k].s)
  {
    assert PcOk(policy, w.rows, w.chain, w.head, w.workers[k]);
  }

  lemma ReplacedByQuote(w: World, k: nat, replied: bool, s: nat, x: nat)
    requires Active(w, k) && w.workers[k].stage.Bumping? && w.workers[k].s in w.rows
    requires |Attempts(w, s)| <= x < |Attempts(DoReplace(w, k, replied), s)|
    ensures var t := Attempts(DoReplace(w, k, replied), s)[x];
            && x == |Attempts(w, s)| > 0 && w.workers[k].s == s
            && w.workers[k].stage == Bumping(Quote(t.fee, t.priority), t.gas)
  {
  }

  lemma ReplacedIsQuoted(policy: Policy, w: World, a: Action, s: nat, x: nat)
    requires Inv(policy, w) && Enabled(policy, w, a) && a.Replace?
    requires |Attempts(w, s)| <= x < |Attempts(Do(policy, w, a), s)|
    ensures var t, copy := Attempts(Do(policy, w, a), s)[x], w.workers[a.k].row;
            && x == |Attempts(w, s)| > 0 && copy.attempts != [] && copy.attempts <= Attempts(w, s)
            && AtQuote(w, a.k, s, false, Quote(Newest(copy).fee, Newest(copy).priority), Quote(t.fee, t.priority), t.gas)
  {
    ReplacedByQuote(w, a.k, a.replied, s, x);
    CopyIsOlder(policy, w, a.k);
  }

  lemma AttemptArises(policy: Policy, w: World, a: Action, s: nat, x: nat)
    requires Inv(policy, w) && Enabled(policy, w, a)
    requires |Attempts(w, s)| <= x < |Attempts(Do(policy, w, a), s)|
    ensures var t := Attempts(Do(policy, w, a), s)[x];
            if x == 0 then
              a.Persist? && AtQuote(w, a.k, s, true, Quote(0, 0), Quote(t.fee, t.priority), t.gas)
              && t.nonce == Max(a.pending, w.nextNonce)
            else
              a.Replace? && Active(w, a.k) && w.workers[a.k].row.attempts != []
              && w.workers[a.k].row.attempts <= Attempts(w, s) && |Attempts(w, s)| == x
              && var copy := w.workers[a.k].row;
                 AtQuote(w, a.k, s, false, Quote(Newest(copy).fee, Newest(copy).priority), Quote(t.fee, t.priority), t.gas)
  {
    if a.Persist? {
      PersistedIsQuoted(policy, w, a, s, x);
    } else if a.Replace? {
      ReplacedIsQuoted(policy, w, a, s, x);
    } else {
      OthersSignNothing(policy, w, a, s);
    }
  }

  /** On every run each attempt carries the quote and the gas of an earlier request to the
      node. The first takes the greater of the node's pending nonce and the outbox's next
      one; a replacement is quoted above an attempt before it. */
  lemma {:induction false} AttemptsAreQuoted(policy: Policy, trace: seq<World>, acts: seq<Action>, n: nat, s: nat, x: nat)
      returns (j: nat, i: nat, m: nat)
    requires Labelled(policy, trace, acts) && n < |trace| && x < |Attempts(trace[n], s)|
    ensures j < i < n && i < |acts| && m <= x
    ensures var t, attempts := Attempts(trace[n], s)[x], Attempts(trace[n], s);
            if x == 0 then
              acts[i].Persist? && t.nonce == Max(acts[i].pending, trace[i].nextNonce)
              && Quotes(policy, trace, acts, j, acts[i].k, s, true, Quote(0, 0), Quote(t.fee, t.priority), t.gas)
            else
              m < x && acts[i].Replace?
              && Quotes(policy, trace, acts, j, acts[i].k, s, false, Quote(attempts[m].fee, attempts[m].priority),
                        Quote(t.fee, t.priority), t.gas)
  {
    LabelledIsRun(policy, trace, acts);
    StartIsEmpty(policy, trace, acts);
    if n > 0 {
      RunGrows(policy, trace, n - 1, n);
      if x < |Attempts(trace[n - 1], s)| {
        j, i, m := AttemptsAreQuoted(policy, trace, acts, n - 1, s, x);
      } else {
        i := n - 1;
        StepOf(policy, trace, acts, i);
        RunInv(policy, trace, i);
        AttemptArises(policy, trace[i], acts[i], s, x);
        j, m := NewAttemptQuoted(policy, trace, acts, i, s, x);
      }
    }
  }

  lemma NewAttemptQuoted(policy: Policy, trace: seq<World>, acts: seq<Action>, i: nat, s: nat, x: nat)
      returns (j: nat, m: nat)
    requires Labelled(policy, trace, acts) && i < |acts| && Inv(policy, trace[i])
    requires |Attempts(trace[i], s)| <= x < |Attempts(trace[i + 1], s)|
    ensures j < i && m <= x
    ensures var t, attempts := Attempts(trace[i + 1], s)[x], Attempts(trace[i + 1], s);
            if x == 0 then
              acts[i].Persist? && t.nonce == Max(acts[i].pending, trace[i].nextNonce)
              && Quotes(policy, trace, acts, j, acts[i].k, s, true, Quote(0, 0), Quote(t.fee, t.priority), t.gas)
            else
              m < x && acts[i].Replace?
              && Quotes(policy, trace, acts, j, acts[i].k, s, false, Quote(attempts[m].fee, attempts[m].priority),
                        Quote(t.fee, t.priority), t.gas)
  {
    StepOf(policy, trace, acts, i);
    AttemptArises(policy, trace[i], acts[i], s, x);
    var t, k := Attempts(trace[i + 1], s)[x], acts[i].k;
    if x == 0 {
      m := 0;
      j := QuoteIsMade(policy, trace, acts, i, k, s, true, Quote(0, 0), Quote(t.fee, t.priority), t.gas);
    } else {
      var copy := trace[i].workers[k].row;
      m := |copy.attempts| - 1;
      ActionKeeps(policy, trace[i], acts[i]);
      j := QuoteIsMade(policy, trace, acts, i, k, s, false, Quote(Newest(copy).fee, Newest(copy).priority),
                       Quote(t.fee, t.priority), t.gas);
    }
  }
}
