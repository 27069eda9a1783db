/** Historical feature snapshots: one locked statement reads an insurer's history and
    inserts a snapshot of it, or returns the snapshot an earlier delivery inserted. */
module Features {
  import opened ClaimIndex

  datatype Scope = Scope(chainId: nat, contract: string, insurer: string)

  /** `facts` stands for the columns copied through unchanged. */
  datatype Input = Input(eventId: string, scope: Scope, claimId: nat, policy: string, amount: real, facts: string)

  datatype Snapshot = Snapshot(input: Input, priorPolicy: nat, priorInsurer: nat,
                               average: Option<real>, ratio: Option<real>)

  datatype Outcome = Recorded(snapshot: Snapshot) | Violation

  function InScope(rows: seq<Snapshot>, scope: Scope): seq<Snapshot> {
    if rows == [] then []
    else
      var last := rows[|rows| - 1];
      InScope(rows[..|rows| - 1], scope) + if last.input.scope == scope then [last] else []
  }

  function OnPolicy(s: seq<Snapshot>, policy: string): nat {
    if s == [] then 0
    else OnPolicy(s[..|s| - 1], policy) + if s[|s| - 1].input.policy == policy then 1 else 0
  }

  function Total(s: seq<Snapshot>): real {
    if s == [] then 0.0 else Total(s[..|s| - 1]) + s[|s| - 1].input.amount
  }

  /** SQL's AVG: NULL over no rows. */
  function Mean(s: seq<Snapshot>): Option<real> {
    if s == [] then None else Some(Total(s) / |s| as real)
  }

  function Enrich(history: seq<Snapshot>, v: Input): Snapshot {
    var mean := Mean(history);
    Snapshot(v, OnPolicy(history, v.policy), |history|, mean,
             match mean
             case None => None
             case Some(m) => if m == 0.0 then None else Some(v.amount / m))
  }

  ghost predicate Holds(rows: seq<Snapshot>, eventId: string) {
    exists i :: 0 <= i < |rows| && rows[i].input.eventId == eventId
  }

  ghost predicate EnrichedAt(rows: seq<Snapshot>, i: nat)
    requires i < |rows|
  {
    rows[i] == Enrich(InScope(rows[..i], rows[i].input.scope), rows[i].input)
  }

  /** The table as it grows: each row is the enrichment of what stood before it. */
  ghost predicate Built(rows: seq<Snapshot>) {
    && (forall i :: 0 <= i < |rows| ==> EnrichedAt(rows, i))
    && (forall i :: 0 <= i < |rows| ==> rows[i].input.amount > 0.0)
    && (forall i, j :: 0 <= i < j < |rows| ==> rows[i].input.eventId != rows[j].input.eventId)
  }

  /** The positions of one policy. */
  ghost function SamePolicy(s: seq<Snapshot>, policy: string): set<nat> {
    set i: nat | i < |s| && s[i].input.policy == policy
  }

  lemma {:induction false} OnPolicyCounts(s: seq<Snapshot>, policy: string)
    ensures OnPolicy(s, policy) == |SamePolicy(s, policy)|
  {
    if s == [] {
      assert SamePolicy(s, policy) == {};
    } else {
      var n := |s| - 1;
      OnPolicyCounts(s[..n], policy);
      assert SamePolicy(s, policy) == SamePolicy(s[..n], policy) + if s[n].input.policy == policy then {n} else {};
    }
  }

  /** The `r`-th snapshot of a scope, and the ones ranked below it. */
  ghost predicate RankedRight(s: seq<Snapshot>, r: nat)
    requires r < |s|
  {
    && s[r].priorInsurer == r
    && s[r].priorPolicy == |SamePolicy(s[..r], s[r].input.policy)|
    && s[r].average == Mean(s[..r])
    && (s[r].ratio.Some? <==> r > 0)
    && (r > 0 ==> s[r].ratio.value * s[r].average.value == s[r].input.amount)
  }

  lemma {:induction false} TotalPositive(s: seq<Snapshot>)
    requires s != [] && forall i :: 0 <= i < |s| ==> s[i].input.amount > 0.0
    ensures Total(s) > 0.0
  {
    if |s| > 1 { TotalPositive(s[..|s| - 1]); }
  }

  lemma {:induction false} InScopeOnly(rows: seq<Snapshot>, scope: Scope)
    ensures forall s :: s in InScope(rows, scope) ==> s in rows && s.input.scope == scope
    ensures forall s :: s in rows && s.input.scope == scope ==> s in InScope(rows, scope)
  {
    if rows != [] {
      InScopeOnly(rows[..|rows| - 1], scope);
      assert rows == rows[..|rows| - 1] + [rows[|rows| - 1]];
    }
  }

  lemma EnrichedRight(history: seq<Snapshot>, v: Input)
    requires v.amount > 0.0 && forall i :: 0 <= i < |history| ==> history[i].input.amount > 0.0
    ensures RankedRight(history + [Enrich(history, v)], |history|)
  {
    assert (history + [Enrich(history, v)])[..|history|] == history;
    OnPolicyCounts(history, v.policy);
    if history != [] {
      TotalPositive(history);
      MeanPositive(Total(history), |history|);
    }
  }

  lemma MeanPositive(total: real, n: nat)
    requires total > 0.0 && n > 0
    ensures total / n as real > 0.0
  {
  }

  lemma RankStays(s: seq<Snapshot>, more: seq<Snapshot>, r: nat)
    requires r < |s| && RankedRight(s, r)
    ensures RankedRight(s + more, r)
  {
    assert (s + more)[..r] == s[..r];
  }

  lemma BuiltPrefix(rows: seq<Snapshot>)
    requires Built(rows) && rows != []
    ensures Built(rows[..|rows| - 1])
    ensures var init, last := rows[..|rows| - 1], rows[|rows| - 1];
            last == Enrich(InScope(init, last.input.scope), last.input) && last.input.amount > 0.0
  {
    var n := |rows| - 1;
    var init := rows[..n];
    forall i | 0 <= i < n ensures EnrichedAt(init, i) {
      assert EnrichedAt(rows, i) && init[..i] == rows[..i];
    }
    assert EnrichedAt(rows, n);
  }

  lemma AmountsPositive(rows: seq<Snapshot>, scope: Scope)
    requires forall i :: 0 <= i < |rows| ==> rows[i].input.amount > 0.0
    ensures forall i :: 0 <= i < |InScope(rows, scope)| ==> InScope(rows, scope)[i].input.amount > 0.0
  {
    InScopeOnly(rows, scope);
    forall i | 0 <= i < |InScope(rows, scope)| ensures InScope(rows, scope)[i].input.amount > 0.0 {
      assert InScope(rows, scope)[i] in rows;
    }
  }

  /** Under every interleaving and replay: the snapshots of one chain, contract and
      insurer, taken in table order, have the ranks 0, 1, 2, ... without gap or repeat;
      each average is the mean amount of exactly the lower-ranked ones, absent only for
      the first; each policy count is the number of lower-ranked ones of its policy. */
  lemma {:induction false} RanksAreGapFree(rows: seq<Snapshot>, scope: Scope, r: nat)
    requires Built(rows) && r < |InScope(rows, scope)|
    ensures RankedRight(InScope(rows, scope), r)
  {
    var n := |rows| - 1;
    var history := InScope(rows[..n], scope);
    BuiltPrefix(rows);
    if r < |history| {
      RanksAreGapFree(rows[..n], scope, r);
      RankStays(history, InScope(rows, scope)[|history|..], r);
      assert InScope(rows, scope) == history + InScope(rows, scope)[|history|..];
    } else {
      AmountsPositive(rows[..n], scope);
      EnrichedRight(history, rows[n].input);
    }
  }

  lemma TimesCount(total: real, n: real)
    requires n > 0.0
    ensures total / n * n == total
  {
  }

  lemma TotalGrows(s: seq<Snapshot>, t: Snapshot)
    ensures Total(s + [t]) == Total(s) + t.input.amount
  {
    assert (s + [t])[..|s|] == s;
  }

  /** One more amount in the mean. */
  lemma MeanGrows(s: seq<Snapshot>, t: Snapshot)
    ensures s == [] ==> Mean(s + [t]) == Some(t.input.amount)
    ensures Mean(s + [t]).value * (|s| + 1) as real
            == (if s == [] then 0.0 else Mean(s).value * |s| as real) + t.input.amount
  {
    TotalGrows(s, t);
    TimesCount(Total(s + [t]), (|s| + 1) as real);
    if s != [] { TimesCount(Total(s), |s| as real); }
  }

  ghost predicate AverageFollows(s: seq<Snapshot>, r: nat)
    requires 1 < r < |s|
  {
    && s[r].average.Some? && s[r - 1].average.Some?
    && s[r].average.value * r as real == s[r - 1].average.value * (r - 1) as real + s[r - 1].input.amount
  }

  lemma MeansFollow(s: seq<Snapshot>, r: nat, a: seq<Snapshot>, b: seq<Snapshot>)
    requires 1 < r < |s| && a == s[..r - 1] && b == s[..r]
    requires s[r].average == Mean(b) && s[r - 1].average == Mean(a)
    ensures AverageFollows(s, r)
  {
    assert b == a + [s[r - 1]];
    MeanGrows(a, s[r - 1]);
  }

  lemma FirstMean(s: seq<Snapshot>, b: seq<Snapshot>)
    requires 1 < |s| && b == s[..1] && s[1].average == Mean(b)
    ensures s[1].average == Some(s[0].input.amount)
  {
    assert b == [] + [s[0]];
    MeanGrows([], s[0]);
  }

  /** The averages by ranks: none for the first snapshot, the first amount for the second,
      and each next one takes in exactly the amount ranked just below it. */
  lemma AveragesByRank(rows: seq<Snapshot>, scope: Scope, s: seq<Snapshot>, r: nat)
    requires Built(rows) && s == InScope(rows, scope) && r < |s|
    ensures s[r].average == None <==> r == 0
    ensures r == 1 ==> s[1].average == Some(s[0].input.amount)
    ensures r > 1 ==> AverageFollows(s, r)
  {
    RanksAreGapFree(rows, scope, r);
    if r == 1 { FirstMean(s, s[..1]); }
    if r > 1 {
      RanksAreGapFree(rows, scope, r - 1);
      MeansFollow(s, r, s[..r - 1], s[..r]);
    }
  }

  /** So every rank below the count belongs to exactly one snapshot of the scope. */
  lemma EachRankOnce(rows: seq<Snapshot>, scope: Scope, r: nat) returns (s: Snapshot)
    requires Built(rows) && r < |InScope(rows, scope)|
    ensures s in rows && s.input.scope == scope && s.priorInsurer == r
    ensures forall t :: t in rows && t.input.scope == scope ==>
              t.priorInsurer < |InScope(rows, scope)| && (t.priorInsurer == r ==> t == s)
  {
    var ranked := InScope(rows, scope);
    InScopeOnly(rows, scope);
    RanksAreGapFree(rows, scope, r);
    s := ranked[r];
    forall t | t in rows && t.input.scope == scope
      ensures t.priorInsurer < |ranked| && (t.priorInsurer == r ==> t == s)
    {
      var k :| 0 <= k < |ranked| && ranked[k] == t;
      RanksAreGapFree(rows, scope, k);
    }
  }

  class FeatureRepository {
    var rows: seq<Snapshot>

    ghost predicate Valid()
      reads this
    {
      && Built(rows)
      && forall i, j :: 0 <= i < j < |rows| ==> !SameClaim(rows[i].input, rows[j].input)
    }

    constructor ()
      ensures Valid() && rows == []
    {
      rows := [];
    }

    method Find(eventId: string) returns (found: Option<Snapshot>)
      ensures found.None? <==> !Holds(rows, eventId)
      ensures found.Some? ==> found.value in rows && found.value.input.eventId == eventId
    {
      for i := 0 to |rows|
        invariant forall j :: 0 <= j < i ==> rows[j].input.eventId != eventId
      {
        if rows[i].input.eventId == eventId {
          return Some(rows[i]);
        }
      }
      return None;
    }

    /** `record_feature_snapshot`. A table check or the one-snapshot-per-claim constraint
        refuses the insert and leaves no trace; no call changes a stored snapshot. */
    method Record(v: Input) returns (r: Outcome)
      requires Valid()
      modifies this
      ensures Valid() && old(rows) <= rows
      ensures Holds(old(rows), v.eventId) ==>
                rows == old(rows) && r.Recorded? && r.snapshot in rows && r.snapshot.input.eventId == v.eventId
      ensures !Holds(old(rows), v.eventId) ==>
                if v.amount <= 0.0
                   || exists s :: s in old(rows) && s.input.claimId == v.claimId
                                  && s.input.scope.chainId == v.scope.chainId && s.input.scope.contract == v.scope.contract
                then
                  r.Violation? && rows == old(rows)
                else
                  && r == Recorded(Enrich(InScope(old(rows), v.scope), v))
                  && rows == old(rows) + [r.snapshot]
    {
      var found := Find(v.eventId);
      if found.Some? {
        return Recorded(found.value);
      }
      if v.amount <= 0.0 || exists i | 0 <= i < |rows| :: SameClaim(rows[i].input, v) {
        return Violation;
      }
      var s := Enrich(InScope(rows, v.scope), v);
      BuiltGrows(rows, v);
      rows := rows + [s];
      return Recorded(s);
    }
  }

  lemma BuiltGrows(rows: seq<Snapshot>, v: Input)
    requires Built(rows) && v.amount > 0.0 && !Holds(rows, v.eventId)
    ensures Built(rows + [Enrich(InScope(rows, v.scope), v)])
  {
    var s := Enrich(InScope(rows, v.scope), v);
    var longer := rows + [s];
    assert rows[..|rows|] == rows;
    forall i | 0 <= i < |longer| ensures EnrichedAt(longer, i) {
      assert longer[..i] == rows[..i];
      if i < |rows| { assert EnrichedAt(rows, i); }
    }
  }

  /** UNIQUE (chain_id, contract_address, claim_id). */
  predicate SameClaim(a: Input, b: Input) {
    a.scope.chainId == b.scope.chainId && a.scope.contract == b.scope.contract && a.claimId == b.claimId
  }
}
