/** The relay worker process: one record at a time through sign, broadcast, replace and
    confirm, against the shared world while other replicas interfere, or undisturbed
    (`quiet`). */
module GaslessRelayer {
  import opened ClaimIndex
  import opened Fees
  import opened RelayErrors
  import opened RelayReceipts
  import opened RelaySystem

  /** The receipt the hash loop finds: the newest attempt first. */
  function ReceiptOf(chain: seq<Receipt>, attempts: seq<Tx>): Option<Receipt> {
    if attempts == [] then None
    else
      var t := attempts[|attempts| - 1];
      if Mined(chain, t) then Some(chain[t.nonce]) else ReceiptOf(chain, attempts[..|attempts| - 1])
  }

  lemma {:induction false} ReceiptIffVisible(chain: seq<Receipt>, attempts: seq<Tx>)
    ensures ReceiptOf(chain, attempts).Some? <==> Visible(chain, attempts)
  {
    if attempts != [] {
      var n := |attempts| - 1;
      ReceiptIffVisible(chain, attempts[..n]);
      if !Mined(chain, attempts[n]) && Visible(chain, attempts) { VisibleElsewhere(chain, attempts); }
      if Visible(chain, attempts[..n]) { VisibleStays(chain, chain, attempts[..n], attempts); }
    }
  }

  /** Rows, chain and network untouched. */
  predicate Same(w: World, w': World) {
    w'.rows == w.rows && w'.chain == w.chain && w'.head == w.head && w'.network == w.network
  }

  /** What an undisturbed call makes of a signed or broadcast record whose transaction `r`
      is mined: it waits for depth, then the receipt's events confirm it or fail it. */
  function Concluded(policy: Policy, row: Row, head: nat, r: Receipt): Row {
    if head < r.block + policy.confirmations then row.(state := Broadcast)
    else
      match Confirm(row.auth, r.events)
      case Proven(c) => row.(state := Confirmed, outcome := Some((r, c)))
      case Refused(_) => row.(state := Failed)
  }

  /** What the node and the clock answer during one call: for the first attempt, and for a
      replacement once the newest attempt is `stuck`. */
  datatype Node = Node(market: Market, estimate: nat, pending: nat, stuck: bool, later: Market, laterEstimate: nat)

  /** Quoted fees and gas: None with the error that stands in the way. */
  datatype Prepared = Priced(quote: Quote, gas: nat) | Unpriced(error: Error)

  function Price(policy: Policy, market: Market, minimum: Quote, estimate: nat): Prepared {
    match FeeQuote(policy.caps, market, minimum.fee, minimum.priority)
    case None => Unpriced(FeeCap)
    case Some(q) =>
      match BufferedGas(estimate, policy.gasCap)
      case None => Unpriced(Error.GasCap)
      case Some(gas) => Priced(q, gas)
  }

  /** A record after an error of the adapter: only the gas cap is final here. */
  function AfterError(row: Row, e: Error): Row { if e == Error.GasCap then row.(state := Failed) else row }

  function NextPrice(policy: Policy, row: Row, node: Node): Prepared
    requires row.attempts != []
  {
    Price(policy, node.later, Quote(Newest(row).fee, Newest(row).priority), node.laterEstimate)
  }

  /** The broadcast record with its replacement attempt. */
  function Replaced(row: Row, p: Prepared): Row
    requires row.attempts != [] && p.Priced?
  {
    var t := Newest(row).(fee := p.quote.fee, priority := p.quote.priority, gas := p.gas);
    Row(Broadcast, row.auth, row.attempts + [t], row.basis + [|row.attempts|], row.outcome)
  }

  /** What an undisturbed call makes of a broadcast record none of whose attempts is mined. */
  function Waited(policy: Policy, row: Row, node: Node): Row
    requires row.attempts != []
  {
    if !node.stuck then row
    else
      match NextPrice(policy, row, node)
      case Unpriced(e) => AfterError(row, e)
      case Priced(q, gas) => Replaced(row, Priced(q, gas))
  }

  function FirstPrice(policy: Policy, node: Node): Prepared { Price(policy, node.market, Quote(0, 0), node.estimate) }

  /** The first attempt of submission `s`. */
  function FirstTx(s: nat, next: nat, node: Node, p: Prepared): Tx
    requires p.Priced?
  {
    Tx(s, Max(node.pending, next), p.quote.fee, p.quote.priority, p.gas)
  }

  /** What an undisturbed call makes of an authorized record: signed, sent and waited for,
      unless no fee or gas limit fits. */
  function Sponsored(policy: Policy, s: nat, row: Row, next: nat, node: Node): Row {
    match FirstPrice(policy, node)
    case Unpriced(e) => AfterError(row, e)
    case Priced(q, gas) =>
      if q.fee == 0 || q.priority == 0 then row
      else Waited(policy, row.(state := Broadcast, attempts := [FirstTx(s, next, node, Priced(q, gas))], basis := [0]), node)
  }

  lemma ReportedRow(row: Row, e: Error)
    ensures ErrorRow(row, e)
            == if (row.state == Authorized || Relayable(row.state)) && !e.Dependency? && !e.FeeCap? && !e.NonceConsumed?
               then row.(state := Failed) else row
  {
    TerminalIff(e);
  }

  /** Every attempt from index `i` on has been sent. */
  predicate SentFrom(attempts: seq<Tx>, i: int, network: set<Tx>) {
    forall j :: 0 <= i <= j < |attempts| ==> attempts[j] in network
  }

  class GaslessRelayWorker {
    const policy: Policy
    const k: nat
    var world: World
    ghost var trace: seq<World>

    ghost predicate Valid()
      reads this
    {
      Reachable(policy, trace, world) && k in world.workers
    }

    /** A replica joins whatever state earlier and other replicas have reached. */
    constructor (policy: Policy, k: nat, world: World, ghost trace: seq<World>)
      requires Reachable(policy, trace, world) && k in world.workers
      ensures Valid() && this.world == world && this.k == k
    {
      this.policy, this.k, this.world, this.trace := policy, k, world, trace;
    }

    ghost predicate In(s: nat, row: Row, stage: Stage)
      reads this
    {
      k in world.workers && world.workers[k].Busy? && world.workers[k].s == s && world.workers[k].row == row
      && world.workers[k].stage == stage
    }

    /** The call is over, or an error waits to be recorded. */
    ghost predicate Ended(s: nat)
      reads this
    {
      k in world.workers
      && (world.workers[k].Busy? ==> world.workers[k].s == s && world.workers[k].stage.Erring?)
    }

    method Step(a: Action)
      requires Valid() && Enabled(policy, world, a) && (a.Stop? ==> a.k == k)
      modifies this
      ensures Reachable(policy, trace, world) && world == Do(policy, old(world), a) && old(trace) <= trace
    {
      StepExtends(policy, trace, world, a);
      world := Do(policy, world, a);
      trace := trace + [world];
    }

    /** Other replicas, the API and the chain: unless the run is quiet, a caller knows no
        more of the world afterwards than this contract says. */
    method Others(quiet: bool)
      requires Valid()
      modifies this
      ensures Valid() && old(trace) <= trace && Grows(old(world), world)
      ensures world.workers[k] == old(world).workers[k]
      ensures quiet ==> world == old(world)
    {
    }

    method Survives(quiet: bool) returns (ok: bool)
      ensures quiet ==> ok
    {
      ok := *;
      ok := ok || quiet;
    }

    /** A database transaction: done and acknowledged, done with the acknowledgement lost,
        or not done; both failures escape the call. */
    method Attempt(quiet: bool, done: Action, lost: Action)
      requires Valid() && Enabled(policy, world, done) && Enabled(policy, world, lost)
      requires !done.Stop? && !lost.Stop?
      modifies this
      ensures Reachable(policy, trace, world) && old(trace) <= trace
      ensures || world == Do(policy, old(world), done)
              || (!quiet && (world == Do(policy, old(world), lost) || world == Do(policy, old(world), Stop(k))))
    {
      var ok := Survives(quiet);
      if ok {
        Step(done);
      } else {
        var reached: bool := *;
        Step(if reached then lost else Stop(k));
      }
    }

    lemma RowThere()
      requires Valid() && world.workers[k].Busy?
      ensures world.workers[k].s in world.rows
      ensures Relayable(world.workers[k].row.state) ==> world.workers[k].row.attempts != []
    {
      ReachableInv(policy, trace, world);
      assert PcOk(policy, world.rows, world.chain, world.head, world.workers[k]);
    }

    /** `_receipt_for_any_attempt`: every hash of the history, newest first. */
    method ReceiptForAnyAttempt(quiet: bool)
      requires Valid() && world.workers[k].Busy? && world.workers[k].stage.Called?
      requires Relayable(world.workers[k].row.state)
      modifies this
      ensures Valid() && old(trace) <= trace
      ensures var b := old(world).workers[k];
              || Ended(b.s)
              || In(b.s, b.row, Looking([], b.stage.again))
              || (world.workers[k].Busy? && world.workers[k].stage.Found?
                  && In(b.s, b.row, Found(world.workers[k].stage.receipt)))
      ensures quiet ==>
                Same(old(world), world) && old(world).workers[k].s in old(world).rows &&
                match ReceiptOf(old(world).chain, old(world).rows[old(world).workers[k].s].attempts)
                case Some(r) => In(old(world).workers[k].s, old(world).workers[k].row, Found(r))
                case None =>
                  In(old(world).workers[k].s, old(world).workers[k].row, Looking([], old(world).workers[k].stage.again))
    {
      RowThere();
      ghost var b := world.workers[k];
      Step(ReadHashes(k));
      while world.workers[k].stage.unseen != []
        invariant Valid() && old(trace) <= trace
        invariant world.workers[k].Busy? && world.workers[k].stage.Looking?
        invariant In(b.s, b.row, Looking(world.workers[k].stage.unseen, b.stage.again))
        invariant quiet ==> Same(old(world), world)
        invariant quiet ==> ReceiptOf(world.chain, world.workers[k].stage.unseen)
                            == ReceiptOf(world.chain, world.rows[b.s].attempts)
        decreases |world.workers[k].stage.unseen|
      {
        AskOne(quiet);
        if world.workers[k].stage.Found? || world.workers[k].stage.Erring? {
          return;
        }
      }
    }

    /** One receipt request, for the newest hash not asked for yet. */
    method AskOne(quiet: bool)
      requires Valid() && world.workers[k].Busy? && world.workers[k].stage.Looking?
      requires world.workers[k].stage.unseen != []
      modifies this
      ensures Valid() && old(trace) <= trace && world.workers[k].Busy? && (quiet ==> Same(old(world), world))
      ensures var b, n := old(world).workers[k], |old(world).workers[k].stage.unseen| - 1;
              && In(b.s, b.row, world.workers[k].stage)
              && (world.workers[k].stage.Erring? ==> !quiet)
              && (world.workers[k].stage.Erring? || world.workers[k].stage.Found?
                  || world.workers[k].stage == Looking(b.stage.unseen[..n], b.stage.second))
              && (quiet ==> (world.workers[k].stage.Found? <==> Mined(old(world).chain, b.stage.unseen[n])))
              && (quiet && world.workers[k].stage.Found? ==>
                    world.workers[k].stage.receipt == old(world).chain[b.stage.unseen[n].nonce])
    {
      Others(quiet);
      var answered := Survives(quiet);
      Step(if answered then Look(k) else Raise(k, Dependency));
    }

    /** Row `s` alone has changed, to `row`. */
    twostate predicate RowBecomes(s: nat, row: Row)
      reads this
    {
      world.chain == old(world).chain && world.head == old(world).head && world.rows == old(world).rows[s := row]
    }

    /** Validate, quote and estimate; read the pending nonce; then reserve a nonce and
        persist the signed bytes in one transaction. */
    method SignFirst(quiet: bool, node: Node)
      requires Valid() && world.workers[k].Busy? && world.workers[k].stage == Called(false)
      requires world.workers[k].row.state == Authorized
      modifies this
      ensures Valid() && old(trace) <= trace
      ensures var s := old(world).workers[k].s;
              Ended(s) || (world.workers[k].Busy? && world.workers[k].s == s && world.workers[k].stage == Called(false))
      ensures quiet ==> old(world).workers[k].s in old(world).rows && world.network == old(world).network
      ensures quiet && old(world).rows[old(world).workers[k].s].state == Authorized ==>
                var b, row := old(world).workers[k], old(world).rows[old(world).workers[k].s];
                match FirstPrice(policy, node)
                case Unpriced(e) => In(b.s, b.row, Erring(e)) && RowBecomes(b.s, row)
                case Priced(q, gas) =>
                  if q.fee == 0 || q.priority == 0 then world.workers[k].Idle? && RowBecomes(b.s, row)
                  else
                    var t := FirstTx(b.s, old(world).nextNonce, node, Priced(q, gas));
                    var signed := row.(state := Signed, attempts := [t], basis := [0]);
                    In(b.s, signed, Called(false)) && RowBecomes(b.s, signed)
    {
      RowThere();
      if world.rows[world.workers[k].s].state == Authorized { AuthorizedUnsigned(world.workers[k].s); }
      var valid := Survives(quiet);
      if !valid {
        var error: Error := *;
        Step(Raise(k, error));
        return;
      }
      Step(QuoteFirst(k, node.market, node.estimate));
      if world.workers[k].stage.Signing? {
        PersistFirst(quiet, node.pending);
      }
    }

    lemma AuthorizedUnsigned(s: nat)
      requires Valid() && s in world.rows && world.rows[s].state == Authorized
      ensures world.rows[s].attempts == [] && world.rows[s].basis == []
    {
      ReachableInv(policy, trace, world);
      assert RowOk(policy, s, world.rows[s]);
    }

    method PersistFirst(quiet: bool, pending: nat)
      requires Valid() && world.workers[k].Busy? && world.workers[k].stage.Signing?
      modifies this
      ensures Valid() && old(trace) <= trace
      ensures var s := old(world).workers[k].s;
              Ended(s) || (world.workers[k].Busy? && world.workers[k].s == s && world.workers[k].stage == Called(false))
      ensures quiet ==> old(world).workers[k].s in old(world).rows && world.network == old(world).network
      ensures quiet && old(world).rows[old(world).workers[k].s].state == Authorized
              && old(world).rows[old(world).workers[k].s].attempts == [] ==>
                var b, row := old(world).workers[k], old(world).rows[old(world).workers[k].s];
                var q := b.stage.quote;
                if q.fee == 0 || q.priority == 0 then world.workers[k].Idle? && RowBecomes(b.s, row)
                else
                  var t := Tx(b.s, Max(pending, old(world).nextNonce), q.fee, q.priority, b.stage.gas);
                  var signed := row.(state := Signed, attempts := [t], basis := [0]);
                  In(b.s, signed, Called(false)) && RowBecomes(b.s, signed)
    {
      Others(quiet);
      RowThere();
      var answered := Survives(quiet);
      if !answered {
        Step(Raise(k, Dependency));
        return;
      }
      Attempt(quiet, Persist(k, pending, true), Persist(k, pending, false));
    }

    /** `_broadcast`: send the persisted bytes, then record it. */
    method BroadcastPersisted(quiet: bool)
      requires Valid() && world.workers[k].Busy? && world.workers[k].stage.Unsent?
      requires world.workers[k].row.attempts != []
      modifies this
      ensures Valid() && old(trace) <= trace
      ensures var b := old(world).workers[k];
              Ended(b.s) || (!b.stage.last && world.workers[k].Busy? && world.workers[k].s == b.s
                             && world.workers[k].row.state == Broadcast && world.workers[k].stage == Called(true))
      ensures quiet ==> world.network == old(world).network + {Newest(old(world).workers[k].row)}
      ensures quiet ==> old(world).workers[k].s in old(world).rows
      ensures quiet && Relayable(old(world).rows[old(world).workers[k].s].state) ==>
                var b := old(world).workers[k];
                var row := old(world).rows[b.s].(state := Broadcast);
                RowBecomes(b.s, row) && if b.stage.last then world.workers[k].Idle? else In(b.s, row, Called(true))
    {
      RowThere();
      var known := Newest(world.workers[k].row) in world.network;
      var delivered := Survives(quiet);
      var ok := Survives(quiet);
      Step(Send(k, delivered, ok && (delivered || known)));
      if world.workers[k].stage.Sent? {
        RecordBroadcast(quiet);
      }
    }

    method RecordBroadcast(quiet: bool)
      requires Valid() && world.workers[k].Busy? && world.workers[k].stage.Sent?
      modifies this
      ensures Valid() && old(trace) <= trace && old(world).network <= world.network
      ensures var b := old(world).workers[k];
              Ended(b.s) || (!b.stage.final && world.workers[k].Busy? && world.workers[k].s == b.s
                             && world.workers[k].row.state == Broadcast && world.workers[k].stage == Called(true))
      ensures quiet ==> world.network == old(world).network && old(world).workers[k].s in old(world).rows
      ensures quiet && Relayable(old(world).rows[old(world).workers[k].s].state) ==>
                var b := old(world).workers[k];
                var row := old(world).rows[b.s].(state := Broadcast);
                RowBecomes(b.s, row) && if b.stage.final then world.workers[k].Idle? else In(b.s, row, Called(true))
    {
      Others(quiet);
      RowThere();
      Attempt(quiet, Mark(k, true), Mark(k, false));
    }

    /** No receipt: wait, or replace at the same nonce with higher fees. */
    method ReplaceIfStuck(quiet: bool, node: Node)
      requires Valid() && world.workers[k].Busy? && world.workers[k].stage.Unmined?
      requires world.workers[k].row.attempts != []
      modifies this
      ensures Valid() && old(trace) <= trace && Ended(old(world).workers[k].s)
      ensures quiet ==> old(world).workers[k].s in old(world).rows
      ensures quiet && old(world).workers[k].row == old(world).rows[old(world).workers[k].s]
              && old(world).workers[k].row.state == Broadcast ==>
                var b := old(world).workers[k];
                if node.stuck && NextPrice(policy, b.row, node).Unpriced? then
                  world.network == old(world).network && RowBecomes(b.s, b.row)
                  && In(b.s, b.row, Erring(NextPrice(policy, b.row, node).error))
                else
                  var row := Waited(policy, b.row, node);
                  && world.workers[k].Idle? && RowBecomes(b.s, row)
                  && world.network == if node.stuck then old(world).network + {Newest(row)} else old(world).network
    {
      RowThere();
      if !node.stuck {
        Step(Stop(k));
        return;
      }
      var valid := Survives(quiet);
      if !valid {
        var error: Error := *;
        Step(Raise(k, error));
        return;
      }
      QuotedAbove(node);
      Step(Requote(k, node.later, node.laterEstimate));
      if world.workers[k].stage.Bumping? {
        PersistReplacement(quiet);
      }
    }

    /** A replacement quote beats the attempt it was made against. */
    lemma QuotedAbove(node: Node)
      requires Valid() && world.workers[k].Busy? && world.workers[k].row.attempts != []
      ensures var row := world.workers[k].row;
              match NextPrice(policy, row, node)
              case Priced(q, _) => q.fee > Newest(row).fee && q.priority > Newest(row).priority
              case Unpriced(_) => true
    {
      ReachableInv(policy, trace, world);
      var row := world.workers[k].row;
      assert PcOk(policy, world.rows, world.chain, world.head, world.workers[k]);
      assert AttemptOk(policy, world.workers[k].s, Newest(row), row.attempts[0].nonce);
      QuoteIffAcceptable(policy.caps, node.later, Newest(row).fee, Newest(row).priority);
    }

    /** The signed replacement is stored before it is sent. */
    method PersistReplacement(quiet: bool)
      requires Valid() && world.workers[k].Busy? && world.workers[k].stage.Bumping?
      modifies this
      ensures Valid() && old(trace) <= trace && Ended(old(world).workers[k].s)
      ensures quiet ==> old(world).workers[k].s in old(world).rows
      ensures quiet && old(world).workers[k].row == old(world).rows[old(world).workers[k].s]
              && old(world).workers[k].row.state == Broadcast && old(world).workers[k].row.attempts != []
              && Newest(old(world).workers[k].row).fee < old(world).workers[k].stage.quote.fee
              && Newest(old(world).workers[k].row).priority < old(world).workers[k].stage.quote.priority ==>
                var b := old(world).workers[k];
                var row := Replaced(b.row, Priced(b.stage.quote, b.stage.gas));
                && world.workers[k].Idle? && RowBecomes(b.s, row)
                && world.network == old(world).network + {Newest(row)}
    {
      Others(quiet);
      RowThere();
      if world.rows[world.workers[k].s].attempts != [] { OwnAttempts(world.workers[k].s); }
      Attempt(quiet, Replace(k, true), Replace(k, false));
      if world.workers[k].Busy? {
        AttemptsThere();
        BroadcastPersisted(quiet);
      }
    }

    lemma OwnAttempts(s: nat)
      requires Valid() && s in world.rows && world.rows[s].attempts != []
      ensures Newest(world.rows[s]).submission == s
    {
      ReachableInv(policy, trace, world);
      assert AttemptOk(policy, s, Newest(world.rows[s]), world.rows[s].attempts[0].nonce);
    }

    lemma AttemptsThere()
      requires Valid() && world.workers[k].Busy? && (world.workers[k].stage.Unsent? || world.workers[k].stage.Unmined?)
      ensures world.workers[k].row.attempts != []
    {
      ReachableInv(policy, trace, world);
      assert PcOk(policy, world.rows, world.chain, world.head, world.workers[k]);
    }

    /** A crash between sending and recording left `signed` behind; the receipt repairs it. */
    method RepairSigned(quiet: bool)
      requires Valid() && world.workers[k].Busy? && world.workers[k].stage.Found?
      requires world.workers[k].row.state == Signed
      modifies this
      ensures Valid() && old(trace) <= trace
      ensures var b := old(world).workers[k];
              || Ended(b.s)
              || (world.workers[k].Busy? && world.workers[k].row.state != Signed
                  && In(b.s, world.workers[k].row, b.stage))
      ensures quiet ==>
                var b, rows := old(world).workers[k], old(world).rows;
                && b.s in rows && world.chain == old(world).chain && world.head == old(world).head
                && world.rows == rows[b.s := MarkRow(rows[b.s])]
                && if Relayable(rows[b.s].state) then In(b.s, rows[b.s].(state := Broadcast), b.stage)
                   else if rows[b.s].state.Confirmed? then In(b.s, rows[b.s], b.stage)
                   else world.workers[k].Idle?
    {
      RowThere();
      Attempt(quiet, Repair(k, true), Repair(k, false));
    }

    /** Depth, then meaning, then the terminal transition. */
    method Conclude(quiet: bool)
      requires Valid() && world.workers[k].Busy? && world.workers[k].stage.Found?
      requires world.workers[k].row.state != Signed
      modifies this
      ensures Valid() && old(trace) <= trace && Ended(old(world).workers[k].s)
      ensures quiet ==>
                var b, r := old(world).workers[k], old(world).workers[k].stage.receipt;
                && b.s in old(world).rows && (world.workers[k].Busy? ==> world.rows == old(world).rows)
                && if old(world).head < r.block + policy.confirmations then
                     world.workers[k].Idle? && world.rows == old(world).rows
                   else
                     match Confirm(b.row.auth, r.events)
                     case Proven(c) =>
                       world.workers[k].Idle?
                       && world.rows == old(world).rows[b.s := SettleRow(old(world).rows[b.s], r, c)]
                     case Refused(e) => In(b.s, b.row, Erring(e)) && world.rows == old(world).rows
    {
      RowThere();
      var answered := Survives(quiet);
      if !answered {
        Step(Raise(k, Dependency));
        return;
      }
      Step(Check(k));
      if world.workers[k].Busy? && world.workers[k].stage.Deep? {
        Confirmed(quiet);
      }
    }

    /** `mark_confirmed`. */
    method Confirmed(quiet: bool)
      requires Valid() && world.workers[k].Busy? && world.workers[k].stage.Deep?
      modifies this
      ensures Valid() && old(trace) <= trace && world.workers[k].Idle?
      ensures quiet ==>
                var b := old(world).workers[k];
                b.s in old(world).rows
                && world.rows == old(world).rows[b.s := SettleRow(old(world).rows[b.s], b.stage.proof, b.stage.claimId)]
    {
      Others(quiet);
      RowThere();
      Attempt(quiet, Settle(k), Settle(k));
    }

    /** `except GaslessBlockchainError`: record the failure's code. Only an unreadable chain,
        fees above the cap and a consumed nonce leave a pending record as it is. */
    method ReportError(quiet: bool)
      requires Valid() && world.workers[k].Busy? && world.workers[k].stage.Erring?
      modifies this
      ensures Valid() && old(trace) <= trace && world.workers[k].Idle?
      ensures quiet ==> old(world).workers[k].s in old(world).rows && world.network == old(world).network
      ensures quiet ==>
                var b := old(world).workers[k];
                var row, e := old(world).rows[b.s], b.stage.error;
                RowBecomes(b.s, if (row.state == Authorized || Relayable(row.state))
                                   && !e.Dependency? && !e.FeeCap? && !e.NonceConsumed?
                                then row.(state := Failed) else row)
    {
      RowThere();
      ReportedRow(world.rows[world.workers[k].s], world.workers[k].stage.error);
      Attempt(quiet, Report(k), Report(k));
    }

    /** Signed bytes no receipt was found of: send them, record it and look again. */
    method SendSigned(quiet: bool)
      requires Valid() && world.workers[k].Busy? && world.workers[k].stage.Looking?
      requires world.workers[k].stage.unseen == [] && world.workers[k].row.state == Signed
      modifies this
      ensures Valid() && old(trace) <= trace
      ensures var s := old(world).workers[k].s;
              || Ended(s)
              || (world.workers[k].Busy? && world.workers[k].s == s && world.workers[k].row.state == Broadcast
                  && (world.workers[k].stage.Found? || world.workers[k].stage.Unmined?))
      ensures quiet ==> old(world).workers[k].s in old(world).rows
      ensures quiet && old(world).workers[k].row == old(world).rows[old(world).workers[k].s]
              && old(world).workers[k].row.attempts != []
              && !Visible(old(world).chain, old(world).workers[k].row.attempts) ==>
                var b, sent := old(world).workers[k], old(world).workers[k].row.(state := Broadcast);
                && In(b.s, sent, Unmined) && RowBecomes(b.s, sent)
                && world.network == old(world).network + {Newest(b.row)}
    {
      RowThere();
      ReceiptIffVisible(world.chain, world.workers[k].row.attempts);
      Step(NoReceipt(k));
      var valid := Survives(quiet);
      if !valid {
        var error: Error := *;
        Step(Raise(k, error));
        return;
      }
      AttemptsThere();
      BroadcastPersisted(quiet);
      if !world.workers[k].Busy? || world.workers[k].stage.Erring? {
        return;
      }
      ReceiptForAnyAttempt(quiet);
      if world.workers[k].Busy? && world.workers[k].stage.Looking? {
        Step(NoReceipt(k));
      }
    }

    /** No receipt of any attempt was found: send what is signed, look again, and only
        then think of a replacement. */
    method AdvanceUnmined(quiet: bool, node: Node)
      requires Valid() && world.workers[k].Busy? && world.workers[k].stage.Looking?
      requires world.workers[k].stage.unseen == []
      modifies this
      ensures Valid() && old(trace) <= trace
      ensures var s := old(world).workers[k].s;
              || Ended(s)
              || (world.workers[k].Busy? && world.workers[k].s == s && world.workers[k].stage.Found?
                  && world.workers[k].row.state == Broadcast)
      ensures quiet ==> old(world).workers[k].s in old(world).rows
      ensures quiet && old(world).workers[k].row == old(world).rows[old(world).workers[k].s]
              && Relayable(old(world).workers[k].row.state) && old(world).workers[k].row.attempts != []
              && !Visible(old(world).chain, old(world).workers[k].row.attempts) ==>
                var b, sent := old(world).workers[k], old(world).workers[k].row.(state := Broadcast);
                if node.stuck && NextPrice(policy, sent, node).Unpriced? then
                  RowBecomes(b.s, sent) && In(b.s, sent, Erring(NextPrice(policy, sent, node).error))
                  && SentFrom(sent.attempts, |b.row.attempts| - (if b.row.state == Signed then 1 else 0), world.network)
                else
                  var row := Waited(policy, sent, node);
                  && world.workers[k].Idle? && RowBecomes(b.s, row)
                  && SentFrom(row.attempts, |b.row.attempts| - (if b.row.state == Signed then 1 else 0), world.network)
    {
      RowThere();
      if world.workers[k].row.state == Signed {
        SendSigned(quiet);
        if !world.workers[k].Busy? || !world.workers[k].stage.Unmined? {
          return;
        }
      } else {
        Step(NoReceipt(k));
      }
      AttemptsThere();
      ReplaceIfStuck(quiet, node);
    }

    /** `process`: advance one record through every transition that is safe now. An
        undisturbed call on a current record concludes it from the receipt of a mined
        attempt, and signs nothing; otherwise it signs, sends and replaces as needed. */
    method Process(quiet: bool, node: Node)
      requires Valid() && world.workers[k].Busy? && world.workers[k].stage.Listed?
      modifies this
      ensures Valid() && old(trace) <= trace && world.workers[k].Idle?
      ensures quiet ==> old(world).workers[k].s in old(world).rows
      ensures quiet && old(world).workers[k].row == old(world).rows[old(world).workers[k].s] ==>
                var s, row := old(world).workers[k].s, old(world).workers[k].row;
                if row.state == Authorized then
                  world.rows == old(world).rows[s := Sponsored(policy, s, row, old(world).nextNonce, node)]
                  && SentFrom(world.rows[s].attempts, 0, world.network)
                else if !Relayable(row.state) then world.rows == old(world).rows
                else if Visible(old(world).chain, row.attempts) then
                  var r := ReceiptOf(old(world).chain, row.attempts);
                  r.Some? && world.rows == old(world).rows[s := Concluded(policy, row, old(world).head, r.value)]
                else
                  && row.attempts != []
                  && world.rows == old(world).rows[s := Waited(policy, row.(state := Broadcast), node)]
                  && SentFrom(world.rows[s].attempts, |row.attempts| - (if row.state == Signed then 1 else 0), world.network)
    {
      RowThere();
      ghost var b := world.workers[k];
      if world.rows[b.s].state == Authorized {
        AuthorizedUnsigned(b.s);
        NothingMinedYet(b.s);
      }
      Step(Call(k));
      if world.workers[k].row.state == Authorized {
        SignFirst(quiet, node);
      }
      Resume(quiet, node);
    }

    /** No transaction of a submission without attempts is on the chain. */
    lemma NothingMinedYet(s: nat)
      requires Valid() && s in world.rows && world.rows[s].attempts == []
      ensures forall t: Tx :: t.submission == s ==> !Visible(world.chain, [t])
    {
      ReachableInv(policy, trace, world);
      forall t: Tx | Mined(world.chain, t) ensures t.submission != s { assert t in world.network; }
    }

    /** The call once the record is signed, or could not be. */
    method Resume(quiet: bool, node: Node)
      requires Valid()
      requires var b := world.workers[k]; b.Busy? ==> b.stage.Erring? || b.stage == Called(false)
      modifies this
      ensures Valid() && old(trace) <= trace && world.workers[k].Idle?
      ensures quiet && old(world).workers[k].Idle? ==>
                world.rows == old(world).rows && world.network == old(world).network
      ensures quiet && old(world).workers[k].Busy? ==> old(world).workers[k].s in old(world).rows
      ensures quiet && old(world).workers[k].Busy?
              && old(world).workers[k].row == old(world).rows[old(world).workers[k].s] ==>
                var b := old(world).workers[k];
                if b.stage.Erring? then
                  (b.stage.error == Error.GasCap || b.stage.error == FeeCap) && b.row.state == Authorized ==>
                    world.rows == old(world).rows[b.s := AfterError(b.row, b.stage.error)]
                    && world.network == old(world).network
                else if !Relayable(b.row.state) then world.rows == old(world).rows
                else if Visible(old(world).chain, b.row.attempts) then
                  var r := ReceiptOf(old(world).chain, b.row.attempts);
                  r.Some? && world.rows == old(world).rows[b.s := Concluded(policy, b.row, old(world).head, r.value)]
                else
                  && b.row.attempts != []
                  && world.rows == old(world).rows[b.s := Waited(policy, b.row.(state := Broadcast), node)]
                  && SentFrom(world.rows[b.s].attempts, |b.row.attempts| - (if b.row.state == Signed then 1 else 0),
                              world.network)
    {
      if world.workers[k].Busy? {
        RowThere();
        ReceiptIffVisible(world.chain, world.workers[k].row.attempts);
      }
      if world.workers[k].Busy? && world.workers[k].stage.Called? {
        if !Relayable(world.workers[k].row.state) {
          Step(Stop(k));
        } else {
          ReceiptForAnyAttempt(quiet);
        }
      }
      Finish(quiet, node);
    }

    /** The call when no receipt was found at first: it is over, or a receipt has turned up. */
    method FinishUnmined(quiet: bool, node: Node)
      requires Valid() && world.workers[k].Busy? && world.workers[k].stage.Looking?
      requires world.workers[k].stage.unseen == []
      modifies this
      ensures Valid() && old(trace) <= trace
      ensures world.workers[k].Busy? ==> world.workers[k].stage.Found? && world.workers[k].row.state == Broadcast
      ensures quiet ==> old(world).workers[k].s in old(world).rows
      ensures quiet && old(world).workers[k].row == old(world).rows[old(world).workers[k].s]
              && Relayable(old(world).workers[k].row.state) && old(world).workers[k].row.attempts != []
              && !Visible(old(world).chain, old(world).workers[k].row.attempts) ==>
                var b := old(world).workers[k];
                var row := Waited(policy, b.row.(state := Broadcast), node);
                && world.workers[k].Idle? && world.rows == old(world).rows[b.s := row]
                && SentFrom(row.attempts, |b.row.attempts| - (if b.row.state == Signed then 1 else 0), world.network)
    {
      AdvanceUnmined(quiet, node);
      if world.workers[k].Busy? && world.workers[k].stage.Erring? {
        ReportError(quiet);
      }
    }

    /** The call once it has a receipt. */
    method FinishMined(quiet: bool)
      requires Valid() && world.workers[k].Busy? && world.workers[k].stage.Found?
      modifies this
      ensures Valid() && old(trace) <= trace && world.workers[k].Idle?
      ensures quiet ==> old(world).workers[k].s in old(world).rows
      ensures quiet && old(world).workers[k].row == old(world).rows[old(world).workers[k].s]
              && Relayable(old(world).workers[k].row.state) ==>
                var b := old(world).workers[k];
                world.rows == old(world).rows[b.s := Concluded(policy, b.row, old(world).head, b.stage.receipt)]
    {
      RowThere();
      if world.workers[k].row.state == Signed {
        RepairSigned(quiet);
      }
      if world.workers[k].Busy? && world.workers[k].stage.Found? {
        Conclude(quiet);
      }
      if world.workers[k].Busy? {
        ReportError(quiet);
      }
    }

    /** The rest of the call, once the receipts have been asked for. */
    method Finish(quiet: bool, node: Node)
      requires Valid()
      requires var b := world.workers[k];
               b.Busy? ==> b.stage.Erring? || b.stage.Found? || (b.stage.Looking? && b.stage.unseen == [])
      modifies this
      ensures Valid() && old(trace) <= trace && world.workers[k].Idle?
      ensures quiet && old(world).workers[k].Idle? ==>
                world.rows == old(world).rows && world.network == old(world).network
      ensures quiet && old(world).workers[k].Busy? ==> old(world).workers[k].s in old(world).rows
      ensures quiet && old(world).workers[k].Busy?
              && old(world).workers[k].row == old(world).rows[old(world).workers[k].s] ==>
                var b := old(world).workers[k];
                match b.stage
                case Found(r) =>
                  Relayable(b.row.state) ==>
                    world.rows == old(world).rows[b.s := Concluded(policy, b.row, old(world).head, r)]
                case Looking(_, _) =>
                  Relayable(b.row.state) && b.row.attempts != [] && !Visible(old(world).chain, b.row.attempts) ==>
                    var row := Waited(policy, b.row.(state := Broadcast), node);
                    && world.rows == old(world).rows[b.s := row]
                    && SentFrom(row.attempts, |b.row.attempts| - (if b.row.state == Signed then 1 else 0), world.network)
                case Erring(e) =>
                  (e == Error.GasCap || e == FeeCap) && (b.row.state == Authorized || Relayable(b.row.state)) ==>
                    world.rows == old(world).rows[b.s := AfterError(b.row, e)] && world.network == old(world).network
                case _ => true
    {
      if world.workers[k].Busy? && world.workers[k].stage.Looking? {
        FinishUnmined(quiet, node);
      }
      if world.workers[k].Busy? && world.workers[k].stage.Found? {
        FinishMined(quiet);
      }
      if world.workers[k].Busy? {
        ReportError(quiet);
      }
    }

    /** `run_once`: a bounded batch of candidates, each possibly stale when its turn comes. */
    method RunOnce(candidates: seq<nat>, limit: nat)
      requires Valid() && world.workers[k].Idle?
      modifies this
      ensures Valid() && old(trace) <= trace && world.workers[k].Idle?
    {
      for i := 0 to if |candidates| < limit then |candidates| else limit
        invariant Valid() && old(trace) <= trace && world.workers[k].Idle?
      {
        var s := candidates[i];
        if s in world.rows && (world.rows[s].state == Authorized || Relayable(world.rows[s].state)) {
          Step(List(k, s));
          Others(false);
          var node: Node := *;
          Process(false, node);
        }
      }
    }
  }
}
