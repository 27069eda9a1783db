/** Any number of relay workers over one outbox table, one relayer account and one
    chain. Every action is one database transaction, one RPC effect or one local
    decision; a worker may stop between any two, or lose the reply to any of them. */
module RelaySystem {
  import opened ClaimIndex
  import Runs
  import opened Fees
  import opened RelayReceipts

  datatype Policy = Policy(caps: Caps, gasCap: nat, confirmations: nat)

  /** Signed bytes. Signing is deterministic, so the content stands for bytes and hash. */
  datatype Tx = Tx(submission: nat, nonce: nat, fee: nat, priority: nat, gas: nat)

  datatype State = Authorized | Signed | Broadcast | Confirmed | Failed | Expired

  /** What stands at one nonce of the relayer account; `tx` is None for a transaction
      signed outside the outbox. */
  datatype Receipt = Receipt(tx: Option<Tx>, block: nat, events: Events)

  /** A submission with its attempts, oldest first. Attempt `i` was quoted against a copy
      of the record that had `basis[i]` attempts. */
  datatype Row = Row(state: State, auth: Authorization, attempts: seq<Tx>, basis: seq<nat>,
                     outcome: Option<(Receipt, nat)>)

  /** Where one call of `process` stands. */
  datatype Stage =
    | Listed                                     // a candidate of the batch, not yet reached
    | Called(again: bool)
    | Signing(quote: Quote, gas: nat)
    | Looking(unseen: seq<Tx>, second: bool)     // hashes still to ask for, newest last
    | Found(receipt: Receipt)
    | Unsent(last: bool)
    | Sent(final: bool)
    | Unmined
    | Bumping(quote: Quote, gas: nat)
    | Deep(proof: Receipt, claimId: nat)
    | Erring(error: Error)

  /** `row` is the call's copy of the record; `late` says that a receipt of the submission
      was already visible when the call began. */
  datatype Pc = Idle | Busy(s: nat, row: Row, late: bool, stage: Stage)

  datatype World = World(rows: map<nat, Row>, nextNonce: nat, network: set<Tx>, chain: seq<Receipt>,
                         head: nat, workers: map<nat, Pc>)

  datatype Action =
    | Authorize(s: nat, auth: Authorization)
    | Expire(s: nat)
    | Advance(newHead: nat)
    | MineOwn(tx: Tx, block: nat, events: Events)      // any bytes ever sent, whichever is first
    | MineForeign(block: nat, events: Events)
    | Start(k: nat)
    | Stop(k: nat)                                     // return, crash, storage or conflict error
    | List(k: nat, s: nat)
    | Call(k: nat)
    | QuoteFirst(k: nat, market: Market, estimate: nat)
    | Persist(k: nat, pending: nat, replied: bool)
    | ReadHashes(k: nat)
    | Look(k: nat)
    | NoReceipt(k: nat)
    | Repair(k: nat, replied: bool)
    | Send(k: nat, delivered: bool, ok: bool)
    | Mark(k: nat, replied: bool)
    | Requote(k: nat, market: Market, estimate: nat)
    | Replace(k: nat, replied: bool)
    | Check(k: nat)
    | Settle(k: nat)
    | Raise(k: nat, error: Error)
    | Report(k: nat)

  predicate Active(w: World, k: nat) { k in w.workers && w.workers[k].Busy? }

  predicate Relayable(state: State) { state == Signed || state == Broadcast }

  predicate Mined(chain: seq<Receipt>, tx: Tx) {
    tx.nonce < |chain| && chain[tx.nonce].tx == Some(tx)
  }

  predicate Visible(chain: seq<Receipt>, txs: seq<Tx>) {
    exists t :: t in txs && Mined(chain, t)
  }

  predicate Enabled(policy: Policy, w: World, a: Action) {
    match a
    case Authorize(s, _) => s !in w.rows
    case Expire(s) => s in w.rows && w.rows[s].state == Authorized
    case Advance(newHead) => w.head <= newHead
    case MineOwn(tx, block, _) => tx in w.network && tx.nonce == |w.chain| && block <= w.head
    case MineForeign(block, _) => block <= w.head
    case Start(k) => k !in w.workers
    case Stop(k) => k in w.workers
    case List(k, s) =>
      k in w.workers && w.workers[k].Idle? && s in w.rows
      && (w.rows[s].state == Authorized || Relayable(w.rows[s].state))
    case Call(k) => Active(w, k) && w.workers[k].stage.Listed? && w.workers[k].s in w.rows
    case QuoteFirst(k, _, _) => Active(w, k) && w.workers[k].stage.Called? && w.workers[k].row.state == Authorized
    case Persist(k, _, _) => Active(w, k) && w.workers[k].stage.Signing? && w.workers[k].s in w.rows
    case ReadHashes(k) =>
      Active(w, k) && w.workers[k].stage.Called? && Relayable(w.workers[k].row.state) && w.workers[k].s in w.rows
    case Look(k) => Active(w, k) && w.workers[k].stage.Looking? && w.workers[k].stage.unseen != []
    case NoReceipt(k) => Active(w, k) && w.workers[k].stage.Looking? && w.workers[k].stage.unseen == []
    case Repair(k, _) =>
      Active(w, k) && w.workers[k].stage.Found? && w.workers[k].row.state == Signed && w.workers[k].s in w.rows
    case Send(k, delivered, ok) =>
      Active(w, k) && w.workers[k].stage.Unsent? && w.workers[k].row.attempts != []
      && (ok ==> delivered || Newest(w.workers[k].row) in w.network)
    case Mark(k, _) => Active(w, k) && w.workers[k].stage.Sent? && w.workers[k].s in w.rows
    case Requote(k, _, _) => Active(w, k) && w.workers[k].stage.Unmined? && w.workers[k].row.attempts != []
    case Replace(k, _) => Active(w, k) && w.workers[k].stage.Bumping? && w.workers[k].s in w.rows
    case Check(k) => Active(w, k) && w.workers[k].stage.Found? && w.workers[k].row.state != Signed
    case Settle(k) => Active(w, k) && w.workers[k].stage.Deep? && w.workers[k].s in w.rows
    case Raise(k, _) => Active(w, k) && !w.workers[k].stage.Listed? && !w.workers[k].stage.Erring?
    case Report(k) => Active(w, k) && w.workers[k].stage.Erring? && w.workers[k].s in w.rows
  }

  function Newest(row: Row): Tx
    requires row.attempts != []
  {
    row.attempts[|row.attempts| - 1]
  }

  function Goto(w: World, k: nat, pc: Pc): World { w.(workers := w.workers[k := pc]) }

  function At(b: Pc, stage: Stage): Pc
    requires b.Busy?
  {
    b.(stage := stage)
  }

  // ------------------------------------------------------------------ database rows

  /** `persist_signed_transaction` on a row without signed bytes. */
  function SignRow(row: Row, tx: Tx): Row { row.(state := Signed, attempts := [tx], basis := [0]) }

  /** `persist_replacement_transaction` on a broadcast row. */
  function BumpRow(row: Row, tx: Tx, basis: nat): Row {
    row.(state := Signed, attempts := row.attempts + [tx], basis := row.basis + [basis])
  }

  /** `mark_broadcast`. */
  function MarkRow(row: Row): Row { if Relayable(row.state) then row.(state := Broadcast) else row }

  /** `mark_confirmed`. */
  function SettleRow(row: Row, r: Receipt, c: nat): Row {
    if Relayable(row.state) then row.(state := Confirmed, outcome := Some((r, c))) else row
  }

  /** `record_relay_error`. */
  function FailRow(row: Row, terminal: bool): Row {
    if terminal && (row.state == Authorized || Relayable(row.state)) then row.(state := Failed) else row
  }

  function ErrorRow(row: Row, e: Error): Row { FailRow(row, Terminal(e)) }

  /** The adapter prepares a signer: fees first, then gas. */
  function Prepare(policy: Policy, market: Market, minimum: Quote, estimate: nat): (Option<Quote>, Option<nat>) {
    (FeeQuote(policy.caps, market, minimum.fee, minimum.priority), BufferedGas(estimate, policy.gasCap))
  }

  function AfterQuote(b: Pc, prepared: (Option<Quote>, Option<nat>), first: bool): Pc
    requires b.Busy?
  {
    match prepared
    case (None, _) => At(b, Erring(FeeCap))
    case (_, None) => At(b, Erring(Error.GasCap))
    case (Some(q), Some(gas)) => At(b, if first then Signing(q, gas) else Bumping(q, gas))
  }

  function DoPersist(w: World, k: nat, pending: nat, replied: bool): World
    requires Active(w, k) && w.workers[k].stage.Signing? && w.workers[k].s in w.rows
  {
    var b := w.workers[k];
    var row, q := w.rows[b.s], b.stage.quote;
    if row.attempts != [] then
      Goto(w, k, if replied then b.(row := row, stage := Called(false)) else Idle)
    else if row.state != Authorized || q.fee == 0 || q.priority == 0 then Goto(w, k, Idle)
    else
      var nonce := Max(pending, w.nextNonce);
      var signed := SignRow(row, Tx(b.s, nonce, q.fee, q.priority, b.stage.gas));
      Goto(w, k, if replied then b.(row := signed, stage := Called(false)) else Idle)
        .(rows := w.rows[b.s := signed], nextNonce := nonce + 1)
  }

  function DoReplace(w: World, k: nat, replied: bool): World
    requires Active(w, k) && w.workers[k].stage.Bumping? && w.workers[k].s in w.rows
  {
    var b := w.workers[k];
    var row, q := w.rows[b.s], b.stage.quote;
    if row.state == Signed then
      Goto(w, k, if replied then b.(row := row, stage := Unsent(true)) else Idle)
    else if row.state != Broadcast || row.attempts == [] then Goto(w, k, Idle)
    else if q.fee <= Newest(row).fee || q.priority <= Newest(row).priority then Goto(w, k, Idle)
    else
      var bumped := BumpRow(row, Tx(b.s, Newest(row).nonce, q.fee, q.priority, b.stage.gas), |b.row.attempts|);
      Goto(w, k, if replied then b.(row := bumped, stage := Unsent(true)) else Idle).(rows := w.rows[b.s := bumped])
  }

  /** After `mark_broadcast`: a state that cannot be marked is a conflict. */
  function AfterMark(b: Pc, row: Row, replied: bool, next: Pc): Pc
    requires b.Busy?
  {
    if replied && (row.state == Broadcast || row.state == Confirmed) then next else Idle
  }

  function DoMark(w: World, k: nat, replied: bool): World
    requires Active(w, k) && w.workers[k].stage.Sent? && w.workers[k].s in w.rows
  {
    var b := w.workers[k];
    var row := MarkRow(w.rows[b.s]);
    var next := if b.stage.final || row.state == Confirmed then Idle else b.(row := row, stage := Called(true));
    Goto(w, k, AfterMark(b, row, replied, next)).(rows := w.rows[b.s := row])
  }

  function DoRepair(w: World, k: nat, replied: bool): World
    requires Active(w, k) && w.workers[k].stage.Found? && w.workers[k].s in w.rows
  {
    var b := w.workers[k];
    var row := MarkRow(w.rows[b.s]);
    Goto(w, k, AfterMark(b, row, replied, b.(row := row))).(rows := w.rows[b.s := row])
  }

  /** `has_confirmations`, then `confirm`. */
  function DoCheck(policy: Policy, w: World, k: nat): World
    requires Active(w, k) && w.workers[k].stage.Found?
  {
    var b := w.workers[k];
    var r := b.stage.receipt;
    if w.head < r.block + policy.confirmations then Goto(w, k, Idle)
    else
      match Confirm(b.row.auth, r.events)
      case Proven(c) => Goto(w, k, At(b, Deep(r, c)))
      case Refused(e) => Goto(w, k, At(b, Erring(e)))
  }

  function Do(policy: Policy, w: World, a: Action): World
    requires Enabled(policy, w, a)
  {
    match a
    case Authorize(s, auth) => w.(rows := w.rows[s := Row(Authorized, auth, [], [], None)])
    case Expire(s) => w.(rows := w.rows[s := w.rows[s].(state := Expired)])
    case Advance(newHead) => w.(head := newHead)
    case MineOwn(tx, block, events) => w.(chain := w.chain + [Receipt(Some(tx), block, events)])
    case MineForeign(block, events) => w.(chain := w.chain + [Receipt(None, block, events)])
    case Start(k) => Goto(w, k, Idle)
    case Stop(k) => Goto(w, k, Idle)
    case List(k, s) => Goto(w, k, Busy(s, w.rows[s], false, Listed))
    case Call(k) =>
      var b := w.workers[k];
      Goto(w, k, b.(late := Visible(w.chain, w.rows[b.s].attempts), stage := Called(false)))
    case QuoteFirst(k, market, estimate) =>
      Goto(w, k, AfterQuote(w.workers[k], Prepare(policy, market, Quote(0, 0), estimate), true))
    case Persist(k, pending, replied) => DoPersist(w, k, pending, replied)
    case ReadHashes(k) =>
      var b := w.workers[k];
      Goto(w, k, At(b, Looking(w.rows[b.s].attempts, b.stage.again)))
    case Look(k) =>
      var b := w.workers[k];
      var n := |b.stage.unseen| - 1;
      var t := b.stage.unseen[n];
      Goto(w, k, At(b, if Mined(w.chain, t) then Found(w.chain[t.nonce])
                       else Looking(b.stage.unseen[..n], b.stage.second)))
    case NoReceipt(k) =>
      var b := w.workers[k];
      Goto(w, k, At(b, if b.row.state == Signed then Unsent(false) else Unmined))
    case Repair(k, replied) => DoRepair(w, k, replied)
    case Send(k, delivered, ok) =>
      var b := w.workers[k];
      Goto(w, k, At(b, if ok then Sent(b.stage.last) else Erring(Dependency)))
        .(network := if delivered then w.network + {Newest(b.row)} else w.network)
    case Mark(k, replied) => DoMark(w, k, replied)
    case Requote(k, market, estimate) =>
      var b := w.workers[k];
      var t := Newest(b.row);
      Goto(w, k, AfterQuote(b, Prepare(policy, market, Quote(t.fee, t.priority), estimate), false))
    case Replace(k, replied) => DoReplace(w, k, replied)
    case Check(k) => DoCheck(policy, w, k)
    case Settle(k) =>
      var b := w.workers[k];
      Goto(w, k, Idle).(rows := w.rows[b.s := SettleRow(w.rows[b.s], b.stage.proof, b.stage.claimId)])
    case Raise(k, e) => Goto(w, k, At(w.workers[k], Erring(e)))
    case Report(k) =>
      var b := w.workers[k];
      Goto(w, k, Idle).(rows := w.rows[b.s := ErrorRow(w.rows[b.s], b.stage.error)])
  }

  predicate Initial(w: World) {
    w.rows == map[] && w.network == {} && w.workers == map[]
    && forall i :: 0 <= i < |w.chain| ==> w.chain[i].tx == None && w.chain[i].block <= w.head
  }

  ghost predicate Next(policy: Policy, w: World, w': World) {
    exists a :: Enabled(policy, w, a) && w' == Do(policy, w, a)
  }

  ghost function Starts(policy: Policy): World -> bool { w => Initial(w) }

  ghost function Steps(policy: Policy): (World, World) -> bool { (w, w') => Next(policy, w, w') }

  ghost predicate Run(policy: Policy, trace: seq<World>) { Runs.Run(Starts(policy), Steps(policy), trace) }

  /** The run `trace` ends in `w`. */
  ghost predicate Reachable(policy: Policy, trace: seq<World>, w: World) {
    Run(policy, trace) && w == trace[|trace| - 1]
  }

  // -------------------------------------------------------------------- the invariant

  predicate QuoteOk(policy: Policy, q: Quote, gas: nat) {
    q.fee <= policy.caps.maxFee && q.priority <= policy.caps.maxPriority && q.priority <= q.fee && gas <= policy.gasCap
  }

  predicate AttemptOk(policy: Policy, s: nat, t: Tx, nonce: nat) {
    t.submission == s && t.nonce == nonce && 0 < t.priority && QuoteOk(policy, Quote(t.fee, t.priority), t.gas)
  }

  /** A quote made against the first `m` attempts is a rung above the newest of them. */
  predicate RungAbove(attempts: seq<Tx>, m: nat, fee: nat, priority: nat) {
    0 < m <= |attempts| && 8 * fee >= 9 * attempts[m - 1].fee && 8 * priority >= 9 * attempts[m - 1].priority
  }

  predicate Rising(attempts: seq<Tx>) {
    forall i, j :: 0 <= i < j < |attempts| ==>
      attempts[i].fee < attempts[j].fee && attempts[i].priority < attempts[j].priority
  }

  predicate BasisOk(attempts: seq<Tx>, basis: seq<nat>) {
    && |basis| == |attempts|
    && forall i :: 0 < i < |attempts| ==>
         basis[i] <= i && RungAbove(attempts, basis[i], attempts[i].fee, attempts[i].priority)
  }

  predicate RowOk(policy: Policy, s: nat, row: Row) {
    && (forall i :: 0 <= i < |row.attempts| ==> AttemptOk(policy, s, row.attempts[i], row.attempts[0].nonce))
    && Rising(row.attempts) && BasisOk(row.attempts, row.basis)
    && (row.state == Authorized || row.state == Expired ==> row.attempts == [])
    && (Relayable(row.state) || row.state == Confirmed ==> row.attempts != [])
    && (row.state == Confirmed <==> row.outcome.Some?)
  }

  /** A receipt of one of the submission's own attempts. */
  predicate OwnReceipt(chain: seq<Receipt>, attempts: seq<Tx>, r: Receipt) {
    r in chain && r.tx.Some? && r.tx.value in attempts
  }

  predicate Proof(policy: Policy, chain: seq<Receipt>, head: nat, auth: Authorization, attempts: seq<Tx>,
                  r: Receipt, c: nat)
  {
    OwnReceipt(chain, attempts, r) && Confirm(auth, r.events) == Proven(c) && r.block + policy.confirmations <= head
  }

  predicate OutcomeOk(policy: Policy, chain: seq<Receipt>, head: nat, row: Row) {
    row.outcome.Some? ==> Proof(policy, chain, head, row.auth, row.attempts, row.outcome.value.0, row.outcome.value.1)
  }

  predicate RowsOk(policy: Policy, rows: map<nat, Row>, chain: seq<Receipt>, head: nat) {
    forall s :: s in rows ==> RowOk(policy, s, rows[s]) && OutcomeOk(policy, chain, head, rows[s])
  }

  /** Each submission with attempts owns one nonce below the next free one. */
  predicate NoncesOk(rows: map<nat, Row>, next: nat) {
    && (forall s :: s in rows && rows[s].attempts != [] ==> rows[s].attempts[0].nonce < next)
    && (forall s, t :: s in rows && t in rows && s != t && rows[s].attempts != [] && rows[t].attempts != [] ==>
          rows[s].attempts[0].nonce != rows[t].attempts[0].nonce)
  }

  predicate NetworkOk(rows: map<nat, Row>, network: set<Tx>) {
    forall t :: t in network ==> t.submission in rows && t in rows[t.submission].attempts
  }

  predicate ChainOk(network: set<Tx>, chain: seq<Receipt>, head: nat) {
    forall i :: 0 <= i < |chain| ==>
      chain[i].block <= head && (chain[i].tx.Some? ==> chain[i].tx.value.nonce == i && chain[i].tx.value in network)
  }

  predicate StageOk(policy: Policy, rows: map<nat, Row>, chain: seq<Receipt>, head: nat, b: Pc)
    requires b.Busy? && b.s in rows
  {
    var attempts := rows[b.s].attempts;
    match b.stage
    case Called(again) => again ==> !b.late && b.row.attempts != []
    case Signing(q, gas) => QuoteOk(policy, q, gas)
    case Looking(unseen, second) =>
      && b.row.attempts != [] && (forall t :: t in unseen ==> t in attempts)
      && (b.late ==> !second && Visible(chain, unseen))
    case Found(r) => b.row.attempts != [] && OwnReceipt(chain, attempts, r)
    case Unsent(_) => !b.late && b.row.attempts != []
    case Sent(_) => !b.late && b.row.attempts != []
    case Unmined => !b.late && b.row.attempts != []
    case Bumping(q, gas) =>
      !b.late && QuoteOk(policy, q, gas) && RungAbove(b.row.attempts, |b.row.attempts|, q.fee, q.priority)
    case Deep(r, c) => Proof(policy, chain, head, b.row.auth, attempts, r, c)
    case _ => true
  }

  /** A call works on a copy of its row that the table has only outgrown. */
  predicate PcOk(policy: Policy, rows: map<nat, Row>, chain: seq<Receipt>, head: nat, b: Pc) {
    b.Busy? ==>
      && b.s in rows && RowOk(policy, b.s, b.row)
      && b.row.attempts <= rows[b.s].attempts && b.row.auth == rows[b.s].auth
      && (b.late ==> Visible(chain, rows[b.s].attempts))
      && StageOk(policy, rows, chain, head, b)
  }

  predicate Inv(policy: Policy, w: World) {
    && RowsOk(policy, w.rows, w.chain, w.head)
    && NoncesOk(w.rows, w.nextNonce)
    && NetworkOk(w.rows, w.network)
    && ChainOk(w.network, w.chain, w.head)
    && forall k :: k in w.workers ==> PcOk(policy, w.rows, w.chain, w.head, w.workers[k])
  }

  /** Submissions and attempts are added, never removed or changed, and a finished
      submission stays as it is. */
  predicate RowGrows(row: Row, row': Row) {
    && row.attempts <= row'.attempts && row.auth == row'.auth
    && (row.state == Confirmed || row.state == Failed || row.state == Expired ==> row' == row)
  }

  predicate RowsGrow(rows: map<nat, Row>, rows': map<nat, Row>) {
    forall s :: s in rows ==> s in rows' && RowGrows(rows[s], rows'[s])
  }

  predicate Grows(w: World, w': World) {
    RowsGrow(w.rows, w'.rows) && w.chain <= w'.chain && w.head <= w'.head && w.network <= w'.network
  }

  // ------------------------------------------------------------------------ stability

  lemma VisibleStays(chain: seq<Receipt>, chain': seq<Receipt>, txs: seq<Tx>, txs': seq<Tx>)
    requires Visible(chain, txs) && chain <= chain' && txs <= txs'
    ensures Visible(chain', txs')
  {
    var t :| t in txs && Mined(chain, t);
    assert t in txs' && Mined(chain', t);
  }

  lemma PcStays(policy: Policy, w: World, w': World, b: Pc)
    requires PcOk(policy, w.rows, w.chain, w.head, b) && Grows(w, w')
    ensures PcOk(policy, w'.rows, w'.chain, w'.head, b)
  {
    if b.Busy? {
      if b.late {
        VisibleStays(w.chain, w'.chain, w.rows[b.s].attempts, w'.rows[b.s].attempts);
        if b.stage.Looking? { VisibleStays(w.chain, w'.chain, b.stage.unseen, b.stage.unseen); }
      }
    }
  }

  lemma RowsStay(policy: Policy, rows: map<nat, Row>, chain: seq<Receipt>, head: nat, chain': seq<Receipt>, head': nat)
    requires RowsOk(policy, rows, chain, head) && chain <= chain' && head <= head'
    ensures RowsOk(policy, rows, chain', head')
  {
    forall s | s in rows ensures RowOk(policy, s, rows[s]) && OutcomeOk(policy, chain', head', rows[s]) {
      assert OutcomeOk(policy, chain, head, rows[s]);
    }
  }

  lemma NetworkStays(rows: map<nat, Row>, network: set<Tx>, rows': map<nat, Row>)
    requires NetworkOk(rows, network) && RowsGrow(rows, rows')
    ensures NetworkOk(rows', network)
  {
  }

  lemma PcsStay(policy: Policy, w: World, w': World, k: nat)
    requires Grows(w, w')
    requires forall j :: j in w.workers ==> PcOk(policy, w.rows, w.chain, w.head, w.workers[j])
    requires forall j :: j in w'.workers && j != k ==> j in w.workers && w'.workers[j] == w.workers[j]
    requires k in w'.workers ==> PcOk(policy, w'.rows, w'.chain, w'.head, w'.workers[k])
    ensures forall j :: j in w'.workers ==> PcOk(policy, w'.rows, w'.chain, w'.head, w'.workers[j])
  {
    forall j | j in w'.workers && j != k ensures PcOk(policy, w'.rows, w'.chain, w'.head, w'.workers[j]) {
      PcStays(policy, w, w', w.workers[j]);
    }
  }

  /** A worker moves and nothing else changes. */
  lemma MoveKeeps(policy: Policy, w: World, k: nat, pc: Pc)
    requires Inv(policy, w) && PcOk(policy, w.rows, w.chain, w.head, pc)
    ensures Inv(policy, Goto(w, k, pc)) && Grows(w, Goto(w, k, pc))
  {
    PcsStay(policy, w, Goto(w, k, pc), k);
  }

  lemma RowsReplaced(policy: Policy, rows: map<nat, Row>, next: nat, chain: seq<Receipt>, head: nat, s: nat, row: Row)
    requires RowsOk(policy, rows, chain, head) && NoncesOk(rows, next) && s in rows && RowGrows(rows[s], row)
    requires RowOk(policy, s, row) && OutcomeOk(policy, chain, head, row)
    requires row.attempts != [] ==> rows[s].attempts != []
    ensures RowsOk(policy, rows[s := row], chain, head) && NoncesOk(rows[s := row], next)
  {
    var rows' := rows[s := row];
    forall t | t in rows' ensures RowOk(policy, t, rows'[t]) && OutcomeOk(policy, chain, head, rows'[t]) {
      if t != s { assert RowOk(policy, t, rows[t]); }
    }
    assert forall t :: t in rows && rows'[t].attempts != [] ==>
      rows[t].attempts != [] && rows'[t].attempts[0].nonce == rows[t].attempts[0].nonce;
  }

  /** One row changes within its own nonce, and one worker moves. */
  lemma RowKeeps(policy: Policy, w: World, k: nat, s: nat, row: Row, pc: Pc)
    requires Inv(policy, w) && s in w.rows && RowGrows(w.rows[s], row)
    requires RowOk(policy, s, row) && OutcomeOk(policy, w.chain, w.head, row)
    requires row.attempts != [] ==> w.rows[s].attempts != []
    requires PcOk(policy, w.rows[s := row], w.chain, w.head, pc)
    ensures var w' := Goto(w, k, pc).(rows := w.rows[s := row]); Inv(policy, w') && Grows(w, w')
  {
    var w' := Goto(w, k, pc).(rows := w.rows[s := row]);
    RowsReplaced(policy, w.rows, w.nextNonce, w.chain, w.head, s, row);
    RowGrowsTable(w.rows, s, row);
    NetworkStays(w.rows, w.network, w'.rows);
    PcsStay(policy, w, w', k);
  }

  lemma RowGrowsTable(rows: map<nat, Row>, s: nat, row: Row)
    requires s in rows && RowGrows(rows[s], row)
    ensures RowsGrow(rows, rows[s := row])
  {
  }

  // --------------------------------------------------------------------- preservation

  lemma CanStop(policy: Policy, w: World, k: nat)
    requires Inv(policy, w)
    ensures Inv(policy, Goto(w, k, Idle)) && Grows(w, Goto(w, k, Idle))
  {
    MoveKeeps(policy, w, k, Idle);
  }

  lemma AuthorizeKeeps(policy: Policy, w: World, s: nat, auth: Authorization)
    requires Inv(policy, w) && s !in w.rows
    ensures var w' := Do(policy, w, Authorize(s, auth)); Inv(policy, w') && Grows(w, w')
  {
    var w' := Do(policy, w, Authorize(s, auth));
    NetworkStays(w.rows, w.network, w'.rows);
    forall j | j in w.workers ensures PcOk(policy, w'.rows, w'.chain, w'.head, w'.workers[j]) {
      PcStays(policy, w, w', w.workers[j]);
    }
  }

  lemma ExpireKeeps(policy: Policy, w: World, s: nat)
    requires Inv(policy, w) && s in w.rows && w.rows[s].state == Authorized
    ensures var w' := Do(policy, w, Expire(s)); Inv(policy, w') && Grows(w, w')
  {
    var w' := Do(policy, w, Expire(s));
    NetworkStays(w.rows, w.network, w'.rows);
    forall j | j in w.workers ensures PcOk(policy, w'.rows, w'.chain, w'.head, w'.workers[j]) {
      PcStays(policy, w, w', w.workers[j]);
    }
  }

  /** A block is added, or the head moves. */
  lemma ChainKeeps(policy: Policy, w: World, w': World)
    requires Inv(policy, w) && w' == w.(chain := w'.chain, head := w'.head)
    requires w.chain <= w'.chain && w.head <= w'.head && ChainOk(w'.network, w'.chain, w'.head)
    ensures Inv(policy, w') && Grows(w, w')
  {
    RowsStay(policy, w.rows, w.chain, w.head, w'.chain, w'.head);
    forall j | j in w.workers ensures PcOk(policy, w'.rows, w'.chain, w'.head, w'.workers[j]) {
      PcStays(policy, w, w', w.workers[j]);
    }
  }

  lemma QuoteIsRung(policy: Policy, market: Market, row: Row)
    requires row.attempts != [] && FeeQuote(policy.caps, market, Newest(row).fee, Newest(row).priority).Some?
    ensures var q := FeeQuote(policy.caps, market, Newest(row).fee, Newest(row).priority).value;
            RungAbove(row.attempts, |row.attempts|, q.fee, q.priority)
  {
    QuoteIffAcceptable(policy.caps, market, Newest(row).fee, Newest(row).priority);
  }

  lemma QuotedOk(policy: Policy, w: World, b: Pc, market: Market, estimate: nat, first: bool)
    requires b.Busy? && PcOk(policy, w.rows, w.chain, w.head, b)
    requires if first then b.stage.Called? else b.stage.Unmined?
    requires !first ==> b.row.attempts != []
    ensures var minimum := if first then Quote(0, 0) else Quote(Newest(b.row).fee, Newest(b.row).priority);
            PcOk(policy, w.rows, w.chain, w.head, AfterQuote(b, Prepare(policy, market, minimum, estimate), first))
  {
    var minimum := if first then Quote(0, 0) else Quote(Newest(b.row).fee, Newest(b.row).priority);
    QuoteIffAcceptable(policy.caps, market, minimum.fee, minimum.priority);
    var prepared := Prepare(policy, market, minimum, estimate);
    if prepared.0.Some? && prepared.1.Some? {
      assert QuoteOk(policy, prepared.0.value, prepared.1.value);
      if !first { QuoteIsRung(policy, market, b.row); }
    }
  }

  lemma QuotesKeep(policy: Policy, w: World, a: Action)
    requires Inv(policy, w) && Enabled(policy, w, a) && (a.QuoteFirst? || a.Requote?)
    ensures Inv(policy, Do(policy, w, a)) && Grows(w, Do(policy, w, a))
  {
    var b := w.workers[a.k];
    var minimum := if a.QuoteFirst? then Quote(0, 0) else Quote(Newest(b.row).fee, Newest(b.row).priority);
    QuotedOk(policy, w, b, a.market, a.estimate, a.QuoteFirst?);
    MoveKeeps(policy, w, a.k, AfterQuote(b, Prepare(policy, a.market, minimum, a.estimate), a.QuoteFirst?));
  }

  lemma FirstRowOk(policy: Policy, s: nat, row: Row, tx: Tx)
    requires row.state == Authorized && RowOk(policy, s, row) && AttemptOk(policy, s, tx, tx.nonce)
    ensures RowOk(policy, s, SignRow(row, tx)) && RowGrows(row, SignRow(row, tx))
  {
  }

  /** The first attempt takes a nonce no other submission has. */
  lemma FirstAttemptKeeps(policy: Policy, w: World, k: nat, s: nat, tx: Tx, pc: Pc)
    requires Inv(policy, w) && s in w.rows && w.rows[s].state == Authorized
    requires AttemptOk(policy, s, tx, tx.nonce) && w.nextNonce <= tx.nonce
    requires PcOk(policy, w.rows[s := SignRow(w.rows[s], tx)], w.chain, w.head, pc)
    ensures var w' := Goto(w, k, pc).(rows := w.rows[s := SignRow(w.rows[s], tx)], nextNonce := tx.nonce + 1);
            Inv(policy, w') && Grows(w, w')
  {
    var w' := Goto(w, k, pc).(rows := w.rows[s := SignRow(w.rows[s], tx)], nextNonce := tx.nonce + 1);
    FirstRowOk(policy, s, w.rows[s], tx);
    NetworkStays(w.rows, w.network, w'.rows);
    PcsStay(policy, w, w', k);
  }

  lemma PersistKeeps(policy: Policy, w: World, k: nat, pending: nat, replied: bool)
    requires Inv(policy, w) && Enabled(policy, w, Persist(k, pending, replied))
    ensures var w' := DoPersist(w, k, pending, replied); Inv(policy, w') && Grows(w, w')
  {
    var b, w' := w.workers[k], DoPersist(w, k, pending, replied);
    var row, q := w.rows[b.s], b.stage.quote;
    if row.attempts != [] {
      MoveKeeps(policy, w, k, w'.workers[k]);
    } else if row.state != Authorized || q.fee == 0 || q.priority == 0 {
      CanStop(policy, w, k);
    } else {
      var tx := Tx(b.s, Max(pending, w.nextNonce), q.fee, q.priority, b.stage.gas);
      FirstRowOk(policy, b.s, row, tx);
      assert !b.late;
      FirstAttemptKeeps(policy, w, k, b.s, tx, w'.workers[k]);
    }
  }

  lemma RungStays(attempts: seq<Tx>, more: seq<Tx>, m: nat, fee: nat, priority: nat)
    requires RungAbove(attempts, m, fee, priority)
    ensures RungAbove(attempts + more, m, fee, priority)
  {
    assert (attempts + more)[m - 1] == attempts[m - 1];
  }

  lemma BasisExtends(attempts: seq<Tx>, basis: seq<nat>, t: Tx, m: nat)
    requires BasisOk(attempts, basis) && RungAbove(attempts, m, t.fee, t.priority)
    ensures BasisOk(attempts + [t], basis + [m])
  {
    var longer, more := attempts + [t], basis + [m];
    forall i | 0 < i < |longer|
      ensures more[i] <= i && RungAbove(longer, more[i], longer[i].fee, longer[i].priority)
    {
      if i < |attempts| {
        assert longer[i] == attempts[i] && more[i] == basis[i];
        RungStays(attempts, [t], basis[i], attempts[i].fee, attempts[i].priority);
      } else {
        RungStays(attempts, [t], m, t.fee, t.priority);
      }
    }
  }

  lemma RisingExtends(attempts: seq<Tx>, t: Tx)
    requires Rising(attempts) && attempts != []
    requires t.fee > attempts[|attempts| - 1].fee && t.priority > attempts[|attempts| - 1].priority
    ensures Rising(attempts + [t])
  {
    var longer := attempts + [t];
    forall i, j | 0 <= i < j < |longer|
      ensures longer[i].fee < longer[j].fee && longer[i].priority < longer[j].priority
    {
      if j == |attempts| && i < j - 1 { assert attempts[i].fee < attempts[j - 1].fee; }
    }
  }

  lemma BumpedRowOk(policy: Policy, s: nat, row: Row, q: Quote, gas: nat, basis: nat)
    requires RowOk(policy, s, row) && row.state == Broadcast && QuoteOk(policy, q, gas)
    requires q.fee > Newest(row).fee && q.priority > Newest(row).priority
    requires RungAbove(row.attempts, basis, q.fee, q.priority)
    ensures RowOk(policy, s, BumpRow(row, Tx(s, Newest(row).nonce, q.fee, q.priority, gas), basis))
  {
    var t := Tx(s, Newest(row).nonce, q.fee, q.priority, gas);
    HistoryExtends(policy, s, row.attempts, row.basis, t, basis);
    SignedRowOk(policy, s, BumpRow(row, t, basis), row.attempts + [t], row.basis + [basis]);
  }

  lemma HistoryExtends(policy: Policy, s: nat, attempts: seq<Tx>, basis: seq<nat>, t: Tx, m: nat)
    requires attempts != [] && Rising(attempts) && BasisOk(attempts, basis)
    requires forall i :: 0 <= i < |attempts| ==> AttemptOk(policy, s, attempts[i], attempts[0].nonce)
    requires t.submission == s && t.nonce == attempts[|attempts| - 1].nonce
    requires QuoteOk(policy, Quote(t.fee, t.priority), t.gas) && RungAbove(attempts, m, t.fee, t.priority)
    requires t.fee > attempts[|attempts| - 1].fee && t.priority > attempts[|attempts| - 1].priority
    ensures Rising(attempts + [t]) && BasisOk(attempts + [t], basis + [m])
    ensures forall i :: 0 <= i <= |attempts| ==> AttemptOk(policy, s, (attempts + [t])[i], (attempts + [t])[0].nonce)
  {
    BasisExtends(attempts, basis, t, m);
    RisingExtends(attempts, t);
    AttemptsExtend(policy, s, attempts, t);
  }

  lemma SignedRowOk(policy: Policy, s: nat, row: Row, attempts: seq<Tx>, basis: seq<nat>)
    requires row.state == Signed && row.outcome == None && row.attempts == attempts && row.basis == basis
    requires attempts != [] && Rising(attempts) && BasisOk(attempts, basis)
    requires forall i :: 0 <= i < |attempts| ==> AttemptOk(policy, s, attempts[i], attempts[0].nonce)
    ensures RowOk(policy, s, row)
  {
  }

  lemma AttemptsExtend(policy: Policy, s: nat, attempts: seq<Tx>, t: Tx)
    requires attempts != [] && forall i :: 0 <= i < |attempts| ==> AttemptOk(policy, s, attempts[i], attempts[0].nonce)
    requires t.submission == s && t.nonce == attempts[|attempts| - 1].nonce && 0 < t.priority
    requires QuoteOk(policy, Quote(t.fee, t.priority), t.gas)
    ensures forall i :: 0 <= i <= |attempts| ==> AttemptOk(policy, s, (attempts + [t])[i], (attempts + [t])[0].nonce)
  {
    assert AttemptOk(policy, s, attempts[|attempts| - 1], attempts[0].nonce);
    forall i | 0 <= i <= |attempts| ensures AttemptOk(policy, s, (attempts + [t])[i], attempts[0].nonce) {
      if i < |attempts| { assert AttemptOk(policy, s, attempts[i], attempts[0].nonce); }
    }
  }

  /** The row after a replacement, and the caller that goes on with it. */
  lemma BumpOk(policy: Policy, rows: map<nat, Row>, chain: seq<Receipt>, head: nat, b: Pc, bumped: Row)
    requires b.Busy? && b.stage.Bumping? && PcOk(policy, rows, chain, head, b)
    requires RowOk(policy, b.s, rows[b.s]) && OutcomeOk(policy, chain, head, rows[b.s])
    requires var row, q := rows[b.s], b.stage.quote;
             && row.state == Broadcast && row.attempts != []
             && q.fee > Newest(row).fee && q.priority > Newest(row).priority
             && bumped == BumpRow(row, Tx(b.s, Newest(row).nonce, q.fee, q.priority, b.stage.gas), |b.row.attempts|)
    ensures RowOk(policy, b.s, bumped) && OutcomeOk(policy, chain, head, bumped) && RowGrows(rows[b.s], bumped)
    ensures PcOk(policy, rows[b.s := bumped], chain, head, b.(row := bumped, stage := Unsent(true)))
  {
    RungStaysIn(b.row.attempts, rows[b.s].attempts, b.stage.quote);
    BumpedRowOk(policy, b.s, rows[b.s], b.stage.quote, b.stage.gas, |b.row.attempts|);
  }

  /** A replacement with higher fees extends the history. */
  lemma BumpKeeps(policy: Policy, w: World, k: nat, b: Pc, replied: bool)
    requires Inv(policy, w) && b.Busy? && b.stage.Bumping? && b.s in w.rows
    requires PcOk(policy, w.rows, w.chain, w.head, b)
    requires var row, q := w.rows[b.s], b.stage.quote;
             row.state == Broadcast && row.attempts != []
             && q.fee > Newest(row).fee && q.priority > Newest(row).priority
    ensures var row, q := w.rows[b.s], b.stage.quote;
            var bumped := BumpRow(row, Tx(b.s, Newest(row).nonce, q.fee, q.priority, b.stage.gas), |b.row.attempts|);
            var w' := Goto(w, k, if replied then b.(row := bumped, stage := Unsent(true)) else Idle)
                        .(rows := w.rows[b.s := bumped]);
            Inv(policy, w') && Grows(w, w')
  {
    var row, q := w.rows[b.s], b.stage.quote;
    var bumped := BumpRow(row, Tx(b.s, Newest(row).nonce, q.fee, q.priority, b.stage.gas), |b.row.attempts|);
    BumpOk(policy, w.rows, w.chain, w.head, b, bumped);
    RowKeeps(policy, w, k, b.s, bumped, if replied then b.(row := bumped, stage := Unsent(true)) else Idle);
  }

  lemma RungStaysIn(old_: seq<Tx>, new_: seq<Tx>, q: Quote)
    requires old_ <= new_ && RungAbove(old_, |old_|, q.fee, q.priority)
    ensures RungAbove(new_, |old_|, q.fee, q.priority)
  {
  }

  lemma ReplaceKeeps(policy: Policy, w: World, k: nat, replied: bool)
    requires Inv(policy, w) && Enabled(policy, w, Replace(k, replied))
    ensures var w' := DoReplace(w, k, replied); Inv(policy, w') && Grows(w, w')
  {
    var b := w.workers[k];
    var row, q := w.rows[b.s], b.stage.quote;
    if row.state == Signed {
      MoveKeeps(policy, w, k, if replied then b.(row := row, stage := Unsent(true)) else Idle);
    } else if row.state != Broadcast || row.attempts == []
              || q.fee <= Newest(row).fee || q.priority <= Newest(row).priority {
      CanStop(policy, w, k);
    } else {
      BumpKeeps(policy, w, k, b, replied);
    }
  }

  lemma MarkedRowOk(policy: Policy, w: World, s: nat)
    requires Inv(policy, w) && s in w.rows
    ensures var row := MarkRow(w.rows[s]);
            RowOk(policy, s, row) && OutcomeOk(policy, w.chain, w.head, row) && RowGrows(w.rows[s], row)
    ensures MarkRow(w.rows[s]).attempts == w.rows[s].attempts
  {
  }

  lemma MarkKeeps(policy: Policy, w: World, k: nat, replied: bool)
    requires Inv(policy, w) && Enabled(policy, w, Mark(k, replied))
    ensures var w' := DoMark(w, k, replied); Inv(policy, w') && Grows(w, w')
  {
    var b, w' := w.workers[k], DoMark(w, k, replied);
    MarkedRowOk(policy, w, b.s);
    RowKeeps(policy, w, k, b.s, w'.rows[b.s], w'.workers[k]);
  }

  lemma RepairKeeps(policy: Policy, w: World, k: nat, replied: bool)
    requires Inv(policy, w) && Enabled(policy, w, Repair(k, replied))
    ensures var w' := DoRepair(w, k, replied); Inv(policy, w') && Grows(w, w')
  {
    var b, w' := w.workers[k], DoRepair(w, k, replied);
    MarkedRowOk(policy, w, b.s);
    if b.late { VisibleStays(w.chain, w.chain, w.rows[b.s].attempts, w'.rows[b.s].attempts); }
    RowKeeps(policy, w, k, b.s, w'.rows[b.s], w'.workers[k]);
  }

  lemma SettledRowOk(policy: Policy, w: World, s: nat, r: Receipt, c: nat)
    requires Inv(policy, w) && s in w.rows
    requires Proof(policy, w.chain, w.head, w.rows[s].auth, w.rows[s].attempts, r, c)
    ensures var row := SettleRow(w.rows[s], r, c);
            RowOk(policy, s, row) && OutcomeOk(policy, w.chain, w.head, row) && RowGrows(w.rows[s], row)
    ensures SettleRow(w.rows[s], r, c).attempts == w.rows[s].attempts
  {
  }

  lemma SettleKeeps(policy: Policy, w: World, k: nat)
    requires Inv(policy, w) && Enabled(policy, w, Settle(k))
    ensures var w' := Do(policy, w, Settle(k)); Inv(policy, w') && Grows(w, w')
  {
    var b := w.workers[k];
    SettledRowOk(policy, w, b.s, b.stage.proof, b.stage.claimId);
    RowKeeps(policy, w, k, b.s, SettleRow(w.rows[b.s], b.stage.proof, b.stage.claimId), Idle);
  }

  lemma FailedRowOk(policy: Policy, w: World, s: nat, terminal: bool)
    requires Inv(policy, w) && s in w.rows
    ensures var row := FailRow(w.rows[s], terminal);
            RowOk(policy, s, row) && OutcomeOk(policy, w.chain, w.head, row) && RowGrows(w.rows[s], row)
    ensures FailRow(w.rows[s], terminal).attempts == w.rows[s].attempts
  {
  }

  lemma ReportKeeps(policy: Policy, w: World, k: nat)
    requires Inv(policy, w) && Enabled(policy, w, Report(k))
    ensures var w' := Do(policy, w, Report(k)); Inv(policy, w') && Grows(w, w')
  {
    var b := w.workers[k];
    var terminal := Terminal(b.stage.error);
    FailedRowOk(policy, w, b.s, terminal);
    RowKeeps(policy, w, k, b.s, FailRow(w.rows[b.s], terminal), Idle);
  }

  lemma SentBytesPersisted(policy: Policy, rows: map<nat, Row>, network: set<Tx>, chain: seq<Receipt>, head: nat, b: Pc)
    requires PcOk(policy, rows, chain, head, b) && b.Busy? && b.row.attempts != []
    requires NetworkOk(rows, network) && ChainOk(network, chain, head)
    ensures NetworkOk(rows, network + {Newest(b.row)}) && ChainOk(network + {Newest(b.row)}, chain, head)
  {
    assert AttemptOk(policy, b.s, Newest(b.row), b.row.attempts[0].nonce);
  }

  lemma SpreadKeeps(policy: Policy, w: World, network: set<Tx>)
    requires Inv(policy, w) && NetworkOk(w.rows, network) && ChainOk(network, w.chain, w.head) && w.network <= network
    ensures Inv(policy, w.(network := network)) && Grows(w, w.(network := network))
  {
  }

  lemma SentMoveKeeps(policy: Policy, w: World, k: nat, b: Pc, ok: bool)
    requires Inv(policy, w) && b.Busy? && b.stage.Unsent? && PcOk(policy, w.rows, w.chain, w.head, b)
    ensures var w' := Goto(w, k, At(b, if ok then Sent(b.stage.last) else Erring(Dependency)));
            Inv(policy, w') && Grows(w, w')
  {
    MoveKeeps(policy, w, k, At(b, if ok then Sent(b.stage.last) else Erring(Dependency)));
  }

  lemma SendKeeps(policy: Policy, w: World, k: nat, delivered: bool, ok: bool)
    requires Inv(policy, w) && Enabled(policy, w, Send(k, delivered, ok))
    ensures var w' := Do(policy, w, Send(k, delivered, ok)); Inv(policy, w') && Grows(w, w')
  {
    var b := w.workers[k];
    if delivered {
      SentBytesPersisted(policy, w.rows, w.network, w.chain, w.head, b);
      var wide := w.(network := w.network + {Newest(b.row)});
      SpreadKeeps(policy, w, wide.network);
      SentMoveKeeps(policy, wide, k, b, ok);
    } else {
      SentMoveKeeps(policy, w, k, b, ok);
    }
  }

  /** A hash not mined yet leaves the others to be asked for. */
  lemma VisibleElsewhere(chain: seq<Receipt>, txs: seq<Tx>)
    requires txs != [] && Visible(chain, txs) && !Mined(chain, txs[|txs| - 1])
    ensures Visible(chain, txs[..|txs| - 1])
  {
    var seen :| seen in txs && Mined(chain, seen);
    assert seen in txs[..|txs| - 1];
  }

  /** The newest unseen hash has a receipt, or the others remain. */
  lemma LookedOk(policy: Policy, rows: map<nat, Row>, chain: seq<Receipt>, head: nat, b: Pc, n: nat)
    requires PcOk(policy, rows, chain, head, b) && b.Busy? && b.stage.Looking? && |b.stage.unseen| == n + 1
    ensures var t := b.stage.unseen[n];
            PcOk(policy, rows, chain, head,
                 At(b, if Mined(chain, t) then Found(chain[t.nonce]) else Looking(b.stage.unseen[..n], b.stage.second)))
  {
    var t := b.stage.unseen[n];
    if Mined(chain, t) {
      assert OwnReceipt(chain, rows[b.s].attempts, chain[t.nonce]);
    } else if b.late {
      VisibleElsewhere(chain, b.stage.unseen);
    }
  }

  lemma LookKeeps(policy: Policy, w: World, k: nat)
    requires Inv(policy, w) && Enabled(policy, w, Look(k))
    ensures var w' := Do(policy, w, Look(k)); Inv(policy, w') && Grows(w, w')
  {
    var b := w.workers[k];
    var n := |b.stage.unseen| - 1;
    var t := b.stage.unseen[n];
    LookedOk(policy, w.rows, w.chain, w.head, b, n);
    MoveKeeps(policy, w, k, At(b, if Mined(w.chain, t) then Found(w.chain[t.nonce])
                                  else Looking(b.stage.unseen[..n], b.stage.second)));
  }

  lemma CheckKeeps(policy: Policy, w: World, k: nat)
    requires Inv(policy, w) && Enabled(policy, w, Check(k))
    ensures var w' := DoCheck(policy, w, k); Inv(policy, w') && Grows(w, w')
  {
    var b := w.workers[k];
    var r := b.stage.receipt;
    if w.head < r.block + policy.confirmations {
      CanStop(policy, w, k);
    } else {
      var verdict := Confirm(b.row.auth, r.events);
      if verdict.Proven? {
        MoveKeeps(policy, w, k, At(b, Deep(r, verdict.claimId)));
      } else {
        MoveKeeps(policy, w, k, At(b, Erring(verdict.error)));
      }
    }
  }

  lemma OtherKeeps(policy: Policy, w: World, a: Action)
    requires Inv(policy, w) && Enabled(policy, w, a)
    requires a.List? || a.Call? || a.ReadHashes? || a.NoReceipt? || a.Raise?
    ensures Inv(policy, Do(policy, w, a)) && Grows(w, Do(policy, w, a))
  {
    MoveKeeps(policy, w, a.k, Do(policy, w, a).workers[a.k]);
  }

  lemma SigningKeeps(policy: Policy, w: World, a: Action)
    requires Inv(policy, w) && Enabled(policy, w, a) && (a.Persist? || a.Replace?)
    ensures Inv(policy, Do(policy, w, a)) && Grows(w, Do(policy, w, a))
  {
    if a.Persist? {
      PersistKeeps(policy, w, a.k, a.pending, a.replied);
    } else {
      ReplaceKeeps(policy, w, a.k, a.replied);
    }
  }

  lemma MarkingKeeps(policy: Policy, w: World, a: Action)
    requires Inv(policy, w) && Enabled(policy, w, a) && (a.Mark? || a.Repair?)
    ensures Inv(policy, Do(policy, w, a)) && Grows(w, Do(policy, w, a))
  {
    if a.Mark? {
      MarkKeeps(policy, w, a.k, a.replied);
    } else {
      RepairKeeps(policy, w, a.k, a.replied);
    }
  }

  lemma EndingKeeps(policy: Policy, w: World, a: Action)
    requires Inv(policy, w) && Enabled(policy, w, a) && (a.Settle? || a.Report?)
    ensures Inv(policy, Do(policy, w, a)) && Grows(w, Do(policy, w, a))
  {
    if a.Settle? {
      SettleKeeps(policy, w, a.k);
    } else {
      ReportKeeps(policy, w, a.k);
    }
  }

  /** Claimants, relay replicas coming and going, and expiry. */
  lemma OutsideActionKeeps(policy: Policy, w: World, a: Action)
    requires Inv(policy, w) && Enabled(policy, w, a) && (a.Authorize? || a.Expire? || a.Start? || a.Stop?)
    ensures Inv(policy, Do(policy, w, a)) && Grows(w, Do(policy, w, a))
  {
    if a.Authorize? {
      AuthorizeKeeps(policy, w, a.s, a.auth);
    } else if a.Expire? {
      ExpireKeeps(policy, w, a.s);
    } else {
      CanStop(policy, w, a.k);
    }
  }

  lemma BlockKeeps(policy: Policy, w: World, a: Action)
    requires Inv(policy, w) && Enabled(policy, w, a) && (a.Advance? || a.MineOwn? || a.MineForeign?)
    ensures Inv(policy, Do(policy, w, a)) && Grows(w, Do(policy, w, a))
  {
    ChainKeeps(policy, w, Do(policy, w, a));
  }

  lemma ActionKeeps(policy: Policy, w: World, a: Action)
    requires Inv(policy, w) && Enabled(policy, w, a)
    ensures Inv(policy, Do(policy, w, a)) && Grows(w, Do(policy, w, a))
  {
    if a.Persist? || a.Replace? {
      SigningKeeps(policy, w, a);
    } else if a.Mark? || a.Repair? {
      MarkingKeeps(policy, w, a);
    } else if a.Settle? || a.Report? {
      EndingKeeps(policy, w, a);
    } else if a.Send? {
      SendKeeps(policy, w, a.k, a.delivered, a.ok);
    } else if a.QuoteFirst? || a.Requote? {
      QuotesKeep(policy, w, a);
    } else if a.Look? {
      LookKeeps(policy, w, a.k);
    } else if a.Check? {
      CheckKeeps(policy, w, a.k);
    } else if a.List? || a.Call? || a.ReadHashes? || a.NoReceipt? || a.Raise? {
      OtherKeeps(policy, w, a);
    } else if a.Advance? || a.MineOwn? || a.MineForeign? {
      BlockKeeps(policy, w, a);
    } else {
      OutsideActionKeeps(policy, w, a);
    }
  }

  lemma NextKeeps(policy: Policy, w: World, w': World)
    requires Inv(policy, w) && Next(policy, w, w')
    ensures Inv(policy, w') && Grows(w, w')
  {
    var a :| Enabled(policy, w, a) && w' == Do(policy, w, a);
    ActionKeeps(policy, w, a);
  }

  lemma InitialInv(policy: Policy, w: World)
    requires Initial(w)
    ensures Inv(policy, w)
  {
  }

  lemma GrowsTransitive(a: World, b: World, c: World)
    requires Grows(a, b) && Grows(b, c)
    ensures Grows(a, c)
  {
    forall s | s in a.rows ensures s in c.rows && RowGrows(a.rows[s], c.rows[s]) {
      assert RowGrows(a.rows[s], b.rows[s]) && RowGrows(b.rows[s], c.rows[s]);
    }
  }

  ghost function Holds(policy: Policy): World -> bool { w => Inv(policy, w) }

  ghost function Order(): (World, World) -> bool { (w, w') => Grows(w, w') }

  lemma InvIsInductive(policy: Policy)
    ensures Runs.Inductive(Starts(policy), Steps(policy), Holds(policy))
  {
    forall w | Initial(w) ensures Inv(policy, w) { InitialInv(policy, w); }
    forall w, w' | Inv(policy, w) && Next(policy, w, w') ensures Inv(policy, w') { NextKeeps(policy, w, w'); }
  }

  lemma StepsGrow(policy: Policy)
    ensures Runs.Monotone(Steps(policy), Holds(policy), Order())
  {
    forall w | Inv(policy, w) ensures Grows(w, w) { }
    forall w, w' | Inv(policy, w) && Next(policy, w, w') ensures Grows(w, w') { NextKeeps(policy, w, w'); }
    forall a, b, c | Grows(a, b) && Grows(b, c) ensures Grows(a, c) { GrowsTransitive(a, b, c); }
  }

  lemma RunInv(policy: Policy, trace: seq<World>, n: nat)
    requires Run(policy, trace) && n < |trace|
    ensures Inv(policy, trace[n])
  {
    InvIsInductive(policy);
    Runs.RunKeeps(Starts(policy), Steps(policy), Holds(policy), trace, n);
  }

  lemma RunGrows(policy: Policy, trace: seq<World>, m: nat, n: nat)
    requires Run(policy, trace) && m <= n < |trace|
    ensures Grows(trace[m], trace[n])
  {
    InvIsInductive(policy);
    StepsGrow(policy);
    Runs.RunGrows(Starts(policy), Steps(policy), Holds(policy), Order(), trace, m, n);
  }

  lemma ReachableInv(policy: Policy, trace: seq<World>, w: World)
    requires Reachable(policy, trace, w)
    ensures Inv(policy, w)
  {
    RunInv(policy, trace, |trace| - 1);
  }

  lemma StepExtends(policy: Policy, trace: seq<World>, w: World, a: Action)
    requires Reachable(policy, trace, w) && Enabled(policy, w, a)
    ensures Reachable(policy, trace + [Do(policy, w, a)], Do(policy, w, a)) && Grows(w, Do(policy, w, a))
  {
    ReachableInv(policy, trace, w);
    ActionKeeps(policy, w, a);
    assert Next(policy, w, Do(policy, w, a));
    Runs.RunExtends(Starts(policy), Steps(policy), trace, Do(policy, w, a));
  }
}
