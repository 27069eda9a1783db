/** The confirmed event log of one ClaimsRegistry deployment and the contract state
    it determines. The registry's own guards are modelled, so what the listener and
    the worker rely on about the log is proved here rather than assumed. */
module ChainLog {
  import opened Text

  datatype Position = Position(block: nat, index: nat)

  /** Canonical chain order: block number, then log index. */
  predicate Before(a: Position, b: Position) {
    a.block < b.block || (a.block == b.block && a.index < b.index)
  }

  datatype Status = Submitted | UnderReview | Approved | Rejected | Flagged

  datatype Body =
    | Submission(claimant: string, claimHash: string, pointer: string)
    | Assessment(status: Status, score: nat)

  datatype Log = Log(chainId: nat, pos: Position, tx: string, claimId: nat, time: nat, body: Body)
  {
    function Id(): string { EventId(chainId, tx, pos.index) }
  }

  datatype Claim = Claim(claimant: string, claimHash: string, pointer: string,
                         status: Status, score: nat, submittedAt: nat, updatedAt: nat)

  /** The registry's lifecycle graph. */
  predicate Allowed(from: Status, to: Status) {
    match from
    case Submitted => to == UnderReview || to == Flagged
    case UnderReview => to == Approved || to == Rejected || to == Flagged
    case Flagged => to == Approved || to == Rejected
    case _ => false
  }

  /** Claim ids are allocated from zero; the first assessment fixes the score. */
  predicate Accepts(claims: seq<Claim>, log: Log) {
    match log.body
    case Submission(_, _, _) => log.claimId == |claims|
    case Assessment(status, score) =>
      && log.claimId < |claims|
      && score <= 10000
      && var c := claims[log.claimId];
      && Allowed(c.status, status)
      && (c.status != Submitted ==> score == c.score)
  }

  function Execute(claims: seq<Claim>, log: Log): seq<Claim>
    requires Accepts(claims, log)
  {
    match log.body
    case Submission(claimant, claimHash, pointer) =>
      claims + [Claim(claimant, claimHash, pointer, Submitted, 0, log.time, log.time)]
    case Assessment(status, score) =>
      claims[log.claimId := claims[log.claimId].(status := status, score := score, updatedAt := log.time)]
  }

  /** What may follow a log: a later position, and a transaction that is not
      already in another block. */
  predicate Follows(logs: seq<Log>, log: Log) {
    forall i :: 0 <= i < |logs| ==>
      && Before(logs[i].pos, log.pos)
      && (logs[i].chainId == log.chainId && Lower(logs[i].tx) == Lower(log.tx)
          ==> logs[i].pos.block == log.pos.block)
  }

  /** A log history the contract can have emitted. */
  predicate Valid(logs: seq<Log>)
    decreases |logs|, 0
  {
    logs == [] ||
    (var init, last := logs[..|logs| - 1], logs[|logs| - 1];
     Valid(init) && Follows(init, last) && Accepts(State(init), last))
  }

  /** The contract's claims after a history: `getClaim` for every claim id. */
  function State(logs: seq<Log>): seq<Claim>
    requires Valid(logs)
    decreases |logs|, 1
  {
    if logs == [] then []
    else Execute(State(logs[..|logs| - 1]), logs[|logs| - 1])
  }

  lemma {:induction false} PrefixValid(logs: seq<Log>, n: nat)
    requires Valid(logs) && n <= |logs|
    ensures Valid(logs[..n])
  {
    if n == |logs| {
      assert logs[..n] == logs;
    } else {
      PrefixValid(logs[..|logs| - 1], n);
      assert logs[..|logs| - 1][..n] == logs[..n];
    }
  }

  lemma StateStep(logs: seq<Log>, n: nat)
    requires Valid(logs) && n < |logs|
    ensures Valid(logs[..n]) && Valid(logs[..n + 1])
    ensures Accepts(State(logs[..n]), logs[n]) && Follows(logs[..n], logs[n])
    ensures State(logs[..n + 1]) == Execute(State(logs[..n]), logs[n])
  {
    PrefixValid(logs, n);
    PrefixValid(logs, n + 1);
    assert logs[..n + 1][..n] == logs[..n];
  }

  lemma ChainOrder(logs: seq<Log>, i: nat, j: nat)
    requires Valid(logs) && i < j < |logs|
    ensures Before(logs[i].pos, logs[j].pos)
  {
    StateStep(logs, j);
    assert logs[..j][i] == logs[i];
  }

  /** No two logs of a history share an identity. */
  lemma IdsDistinct(logs: seq<Log>, i: nat, j: nat)
    requires Valid(logs) && i < j < |logs|
    ensures logs[i].Id() != logs[j].Id()
  {
    StateStep(logs, j);
    assert logs[..j][i] == logs[i];
    EventIdInjective(logs[i].chainId, logs[i].tx, logs[i].pos.index,
                     logs[j].chainId, logs[j].tx, logs[j].pos.index);
  }

  lemma SameIdSameIndex(logs: seq<Log>, i: nat, j: nat)
    requires Valid(logs) && i < |logs| && j < |logs| && logs[i].Id() == logs[j].Id()
    ensures i == j
  {
    if i < j { IdsDistinct(logs, i, j); }
    if j < i { IdsDistinct(logs, j, i); }
  }

  /** Where the one submission of a claim stands in the log. */
  function SubmissionOf(logs: seq<Log>, c: nat): (i: nat)
    requires Valid(logs) && c < |State(logs)|
    ensures i < |logs| && logs[i].body.Submission? && logs[i].claimId == c
    ensures forall j :: 0 <= j < i ==> logs[j].claimId != c
    ensures forall j :: i < j < |logs| && logs[j].claimId == c ==> logs[j].body.Assessment?
  {
    var init, last := logs[..|logs| - 1], logs[|logs| - 1];
    assert forall j :: 0 <= j < |init| ==> init[j] == logs[j];
    if last.body.Submission? && last.claimId == c then
      NoneYet(init, c);
      assert forall j :: 0 <= j < |init| ==> logs[j].claimId == init[j].claimId;
      |init|
    else
      SubmissionOf(init, c)
  }

  /** Nothing is logged about a claim before it exists. */
  lemma {:induction false} NoneYet(logs: seq<Log>, c: nat)
    requires Valid(logs) && |State(logs)| <= c
    ensures forall j :: 0 <= j < |logs| ==> logs[j].claimId != c
  {
    if logs != [] {
      NoneYet(logs[..|logs| - 1], c);
      assert forall j :: 0 <= j < |logs| - 1 ==> logs[..|logs| - 1][j] == logs[j];
    }
  }

  /** What no later event can undo: claims stay, their submitted facts stay, the
      first assessed score stays and no claim becomes Submitted again. */
  predicate Keeps(a: seq<Claim>, b: seq<Claim>) {
    && |a| <= |b|
    && forall c :: 0 <= c < |a| ==>
         && (a[c].claimant, a[c].claimHash, a[c].pointer, a[c].submittedAt)
            == (b[c].claimant, b[c].claimHash, b[c].pointer, b[c].submittedAt)
         && (a[c].status != Submitted ==> b[c].status != Submitted && b[c].score == a[c].score)
         && (a[c].status == Approved || a[c].status == Rejected ==> b[c] == a[c])
         && (a[c].status == Flagged ==> b[c].status != UnderReview)
  }

  lemma {:induction false} LifecycleIsMonotone(logs: seq<Log>, m: nat, n: nat)
    requires Valid(logs) && m <= n <= |logs|
    ensures Valid(logs[..m]) && Valid(logs[..n])
    ensures Keeps(State(logs[..m]), State(logs[..n]))
    decreases n - m
  {
    PrefixValid(logs, m);
    if m < n {
      LifecycleIsMonotone(logs, m, n - 1);
      StateStep(logs, n - 1);
      ExecuteKeeps(State(logs[..m]), State(logs[..n - 1]), logs[n - 1]);
    }
  }

  lemma ExecuteKeeps(a: seq<Claim>, b: seq<Claim>, log: Log)
    requires Keeps(a, b) && Accepts(b, log)
    ensures Keeps(a, Execute(b, log))
  {
  }

  /** What the registry emits next, for every history: a submission with the next free id,
      or an assessment along one of the seven edges of the lifecycle, with a score of at
      most 10000 that the first assessment fixes. */
  lemma NextLogIff(logs: seq<Log>, log: Log)
    requires Valid(logs)
    ensures Valid(logs + [log])
      <==> && Follows(logs, log)
           && match log.body
              case Submission(_, _, _) => log.claimId == |State(logs)|
              case Assessment(status, score) =>
                && log.claimId < |State(logs)| && score <= 10000
                && var c := State(logs)[log.claimId];
                   && (c.status, status) in {(Submitted, UnderReview), (Submitted, Flagged), (UnderReview, Approved),
                                             (UnderReview, Rejected), (UnderReview, Flagged), (Flagged, Approved),
                                             (Flagged, Rejected)}
                   && (c.status != Submitted ==> score == c.score)
  {
    assert (logs + [log])[..|logs|] == logs;
  }

  /** How many logs stand in blocks up to and including `block`. */
  function CountThrough(logs: seq<Log>, block: int): (n: nat)
    ensures n <= |logs|
  {
    if logs == [] then 0
    else if logs[|logs| - 1].pos.block <= block then |logs|
    else CountThrough(logs[..|logs| - 1], block)
  }

  lemma {:induction false} CountThroughIsPrefix(logs: seq<Log>, block: int)
    requires Valid(logs)
    ensures forall i :: 0 <= i < |logs| ==> (i < CountThrough(logs, block) <==> logs[i].pos.block <= block)
  {
    if logs != [] {
      var init := logs[..|logs| - 1];
      CountThroughIsPrefix(init, block);
      forall i | 0 <= i < |init|
        ensures logs[i] == init[i] && logs[i].pos.block <= logs[|logs| - 1].pos.block
      {
        ChainOrder(logs, i, |logs| - 1);
      }
    }
  }

  lemma CountThroughMonotone(logs: seq<Log>, a: int, b: int)
    requires Valid(logs) && a <= b
    ensures CountThrough(logs, a) <= CountThrough(logs, b)
  {
    CountThroughIsPrefix(logs, a);
    CountThroughIsPrefix(logs, b);
    var n := CountThrough(logs, a);
    if n > 0 { assert logs[n - 1].pos.block <= a; }
  }

  /** New blocks do not change what an older block's prefix is. */
  lemma CountThroughStable(logs: seq<Log>, more: seq<Log>, block: int)
    requires Valid(logs) && Valid(logs + more)
    requires forall i :: 0 <= i < |more| ==> more[i].pos.block > block
    ensures CountThrough(logs + more, block) == CountThrough(logs, block)
  {
    var all := logs + more;
    CountThroughIsPrefix(logs, block);
    CountThroughIsPrefix(all, block);
    assert forall i :: 0 <= i < |logs| ==> all[i] == logs[i];
    assert forall i :: |logs| <= i < |all| ==> all[i] == more[i - |logs|];
    var n, m := CountThrough(all, block), CountThrough(logs, block);
    assert n > 0 ==> all[n - 1].pos.block <= block;
    assert m > 0 ==> all[m - 1].pos.block <= block;
    assert n <= |logs|;
    assert n > 0 ==> logs[n - 1].pos.block <= block;
  }
}
