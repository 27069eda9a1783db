/** Reconciliation: the indexed rows, read page by page, against contract state pinned to
    the checkpoint block. */
module Reconcile {
  import opened ChainLog
  import opened ClaimIndex
  import L = ListenerSystem
  import opened Text

  datatype Indexed = Indexed(id: nat, row: ClaimRow)

  datatype Report = Report(missing: seq<nat>, unexpected: seq<nat>, mismatched: seq<nat>)
  {
    predicate Consistent() { missing == [] && unexpected == [] && mismatched == [] }
  }

  /** The rows with ids below `n`, newest claim first. */
  function Rows(claims: map<nat, ClaimRow>, n: nat): seq<Indexed> {
    if n == 0 then []
    else if n - 1 in claims then [Indexed(n - 1, claims[n - 1])] + Rows(claims, n - 1)
    else Rows(claims, n - 1)
  }

  ghost predicate Newest(table: seq<Indexed>) {
    forall i, j :: 0 <= i < j < |table| ==> table[j].id < table[i].id
  }

  lemma {:induction false} RowsAreTheTable(claims: map<nat, ClaimRow>, n: nat)
    ensures Newest(Rows(claims, n))
    ensures forall r :: r in Rows(claims, n) <==> r.id < n && r.id in claims && claims[r.id] == r.row
  {
    if n > 0 { RowsAreTheTable(claims, n - 1); }
  }

  /** `list_claims`: one OFFSET page and the table's total. */
  function ListClaims(table: seq<Indexed>, page: nat, size: nat): (seq<Indexed>, nat)
    requires page >= 1
  {
    var from := (page - 1) * size;
    (if from >= |table| then [] else if from + size >= |table| then table[from..] else table[from..from + size], |table|)
  }

  function ById(rows: seq<Indexed>): map<nat, ClaimRow> {
    if rows == [] then map[] else ById(rows[..|rows| - 1])[rows[|rows| - 1].id := rows[|rows| - 1].row]
  }

  lemma {:induction false} ByIdAppends(a: seq<Indexed>, b: seq<Indexed>)
    ensures ById(a + b) == ById(a) + ById(b)
  {
    if b == [] {
      assert a + b == a;
    } else {
      ByIdAppends(a, b[..|b| - 1]);
      assert (a + b)[..|a + b| - 1] == a + b[..|b| - 1];
    }
  }

  lemma {:induction false} ByIdHolds(rows: seq<Indexed>)
    requires Newest(rows)
    ensures forall id :: id in ById(rows) ==> exists i :: 0 <= i < |rows| && rows[i].id == id
    ensures forall i :: 0 <= i < |rows| ==> rows[i].id in ById(rows) && ById(rows)[rows[i].id] == rows[i].row
  {
    if rows != [] {
      var n := |rows| - 1;
      ByIdHolds(rows[..n]);
      OneMoreHeld(rows[..n], rows[n], rows, ById(rows[..n]), ById(rows));
    }
  }

  lemma OneMoreHeld(init: seq<Indexed>, last: Indexed, rows: seq<Indexed>, held: map<nat, ClaimRow>,
                    now: map<nat, ClaimRow>)
    requires now == held[last.id := last.row] && rows == init + [last] && Newest(rows)
    requires forall id :: id in held ==> exists i :: 0 <= i < |init| && init[i].id == id
    requires forall i :: 0 <= i < |init| ==> init[i].id in held && held[init[i].id] == init[i].row
    ensures forall id :: id in now ==> exists i :: 0 <= i < |rows| && rows[i].id == id
    ensures forall i :: 0 <= i < |rows| ==> rows[i].id in now && now[rows[i].id] == rows[i].row
  {
    assert rows[|init|] == last;
    forall id | id in held ensures exists i :: 0 <= i < |rows| && rows[i].id == id {
      var i :| 0 <= i < |init| && init[i].id == id;
      assert rows[i].id == id;
    }
    assert forall i :: 0 <= i < |init| ==> rows[i] == init[i];
  }

  /** Ids are unique, so counting rows is counting ids. */
  lemma {:induction false} ByIdSize(rows: seq<Indexed>)
    requires Newest(rows)
    ensures |ById(rows)| == |rows|
  {
    if rows != [] {
      var n := |rows| - 1;
      ByIdSize(rows[..n]);
      ByIdHolds(rows[..n]);
    }
  }

  /** After `page - 1` pages: how many rows were read, and that all of them are held. */
  ghost predicate Progress(table: seq<Indexed>, page: nat, size: nat, read: nat, indexed: map<nat, ClaimRow>)
    requires page >= 1
  {
    && read == (if (page - 1) * size < |table| then (page - 1) * size else |table|)
    && indexed == ById(table[..read]) && |indexed| == read
  }

  lemma OnePageMore(page: nat, size: nat)
    requires page >= 1
    ensures page * size == (page - 1) * size + size && (page - 1) * size >= 0
  {
  }

  lemma PageReads(table: seq<Indexed>, page: nat, size: nat, read: nat, indexed: map<nat, ClaimRow>)
    requires Newest(table) && page >= 1 && size > 0 && Progress(table, page, size, read, indexed)
    ensures var rows := ListClaims(table, page, size).0;
            Progress(table, page + 1, size, read + |rows|, indexed + ById(rows)) && (rows == [] <==> read == |table|)
  {
    var rows := ListClaims(table, page, size).0;
    OnePageMore(page, size);
    PageIsNext(table, page, size, read);
    ByIdAppends(table[..read], rows);
    ByIdSize(table[..read + |rows|]);
  }

  lemma PageIsNext(table: seq<Indexed>, page: nat, size: nat, read: nat)
    requires page >= 1 && size > 0
    requires read == if (page - 1) * size < |table| then (page - 1) * size else |table|
    ensures var rows := ListClaims(table, page, size).0;
            read + |rows| <= |table| && table[..read + |rows|] == table[..read] + rows
  {
    OnePageMore(page, size);
  }

  lemma MapOfRows(claims: map<nat, ClaimRow>, top: nat)
    requires forall id :: id in claims ==> id < top
    ensures ById(Rows(claims, top)) == claims
  {
    var table := Rows(claims, top);
    RowsAreTheTable(claims, top);
    ByIdHolds(table);
    forall id | id in claims ensures id in ById(table) && ById(table)[id] == claims[id] {
      RowHeld(table, Indexed(id, claims[id]));
    }
    forall id | id in ById(table) ensures id in claims {
      var i :| 0 <= i < |table| && table[i].id == id;
      assert table[i] in table;
    }
  }

  lemma RowHeld(table: seq<Indexed>, r: Indexed)
    requires r in table && forall i :: 0 <= i < |table| ==> table[i].id in ById(table) && ById(table)[table[i].id] == table[i].row
    ensures r.id in ById(table) && ById(table)[r.id] == r.row
  {
    var i :| 0 <= i < |table| && table[i] == r;
  }

  // -------------------------------------------------------------------- the procedure

  ghost predicate Ascending(s: seq<nat>) { forall i, j :: 0 <= i < j < |s| ==> s[i] < s[j] }

  lemma AscendingAppends(s: seq<nat>, x: nat)
    requires Ascending(s) && forall e :: e in s ==> e < x
    ensures Ascending(s + [x])
  {
    assert forall i :: 0 <= i < |s| ==> s[i] in s;
  }

  lemma Member(s: seq<nat>) returns (c: nat)
    requires s != []
    ensures c in s
  {
    c := s[0];
  }

  /** The report lists exactly the differences, each once, in ascending order. */
  ghost predicate Exact(r: Report, chain: seq<Claim>, claims: map<nat, ClaimRow>) {
    && Ascending(r.missing) && Ascending(r.unexpected) && Ascending(r.mismatched)
    && (forall c: nat :: c in r.missing <==> c < |chain| && c !in claims)
    && (forall c: nat :: c in r.unexpected <==> c >= |chain| && c in claims)
    && (forall c: nat :: c in r.mismatched <==> c < |chain| && c in claims && !SamePublicState(chain[c], claims[c]))
  }

  /** A report is clean exactly when the table is the contract's claims, hex case aside. */
  lemma ConsistentIffEqual(r: Report, chain: seq<Claim>, claims: map<nat, ClaimRow>)
    requires Exact(r, chain, claims)
    ensures r.Consistent() <==>
              (forall c: nat :: c in claims <==> c < |chain|)
              && forall c :: 0 <= c < |chain| && c in claims ==> SamePublicState(chain[c], claims[c])
  {
    if r.missing != [] { var _ := Member(r.missing); }
    if r.unexpected != [] { var _ := Member(r.unexpected); }
    if r.mismatched != [] { var _ := Member(r.mismatched); }
  }

  /** A claim of both sides escapes the report exactly when all seven public fields agree,
      letter case aside in the two hexadecimal ones. */
  lemma MismatchedIff(r: Report, chain: seq<Claim>, claims: map<nat, ClaimRow>, c: nat)
    requires Exact(r, chain, claims) && c < |chain| && c in claims
    ensures var claim, row := chain[c], claims[c];
            c !in r.mismatched
            <==> claim.status == row.status && claim.score == row.score
                 && claim.submittedAt == row.submittedAt && claim.updatedAt == row.updatedAt
                 && claim.pointer == row.pointer && Lower(claim.claimant) == Lower(row.claimant)
                 && Lower(claim.claimHash) == Lower(row.claimHash)
  {
  }

  /** The two lists after the first `n` claims. */
  ghost predicate Compared(missing: seq<nat>, mismatched: seq<nat>, chain: seq<Claim>, claims: map<nat, ClaimRow>, n: nat)
    requires n <= |chain|
  {
    && Ascending(missing) && Ascending(mismatched)
    && (forall c: nat :: c in missing <==> c < n && c !in claims)
    && (forall c: nat :: c in mismatched <==> c < n && c in claims && !SamePublicState(chain[c], claims[c]))
  }

  lemma ComparedNext(missing: seq<nat>, mismatched: seq<nat>, chain: seq<Claim>, claims: map<nat, ClaimRow>, n: nat)
    requires n < |chain| && Compared(missing, mismatched, chain, claims, n)
    ensures Compared(if n !in claims then missing + [n] else missing,
                     if n in claims && !SamePublicState(chain[n], claims[n]) then mismatched + [n] else mismatched,
                     chain, claims, n + 1)
  {
    AscendingAppends(missing, n);
    AscendingAppends(mismatched, n);
  }

  class ClaimIndexReconciler {
    const pageSize: nat := 1_000

    /** The paging loop over a table that does not change meanwhile: it ends, and has
        read every row. */
    method ReadAll(table: seq<Indexed>) returns (indexed: map<nat, ClaimRow>)
      requires Newest(table)
      ensures indexed == ById(table)
    {
      indexed := map[];
      var page, count := 1, 0;
      ghost var read := 0;
      assert table[..0] == [];
      while page == 1 || |indexed| < count
        invariant page >= 1 && (page > 1 ==> count == |table|)
        invariant Progress(table, page, pageSize, read, indexed)
        decreases |table| - read, if page == 1 then 1 else 0
      {
        PageReads(table, page, pageSize, read, indexed);
        var (rows, total) := ListClaims(table, page, pageSize);
        count := total;
        indexed := indexed + ById(rows);
        read := read + |rows|;
        if |rows| == 0 {
          break;
        }
        page := page + 1;
      }
      assert table[..|table|] == table;
    }

    /** The ids at or above the contract's count, sorted. */
    method Unexpected(claims: map<nat, ClaimRow>, top: nat, count: nat) returns (ids: seq<nat>)
      requires forall id :: id in claims ==> id < top
      ensures Ascending(ids) && forall c: nat :: c in ids <==> c >= count && c in claims
    {
      ids := [];
      for id := 0 to top
        invariant Ascending(ids) && forall c :: c in ids <==> c < id && c >= count && c in claims
      {
        if id >= count && id in claims {
          AscendingAppends(ids, id);
          ids := ids + [id];
        }
      }
    }

    /** `reconcile`: None before the first checkpoint; afterwards the index against the
        claims `getClaim` returns at the checkpoint block, however far the chain is now. */
    method Reconcile(logs: seq<Log>, tables: Tables, top: nat) returns (r: Option<Report>)
      requires Valid(logs) && forall id :: id in tables.claims ==> id < top
      ensures r.Some? <==> tables.checkpoint.Some?
      ensures r.Some? ==> Exact(r.value, ChainAt(logs, tables.checkpoint.value), tables.claims)
    {
      if tables.checkpoint == None {
        return None;
      }
      var report := Compare(ChainAt(logs, tables.checkpoint.value), tables.claims, top);
      r := Some(report);
    }

    /** The comparison loop. */
    method Compare(chain: seq<Claim>, claims: map<nat, ClaimRow>, top: nat) returns (r: Report)
      requires forall id :: id in claims ==> id < top
      ensures Exact(r, chain, claims)
    {
      RowsAreTheTable(claims, top);
      MapOfRows(claims, top);
      var indexed := ReadAll(Rows(claims, top));
      var missing: seq<nat>, mismatched: seq<nat> := [], [];
      for c := 0 to |chain|
        invariant Compared(missing, mismatched, chain, claims, c)
      {
        ComparedNext(missing, mismatched, chain, claims, c);
        if c !in indexed {
          missing := missing + [c];
        } else if !SamePublicState(chain[c], indexed[c]) {
          mismatched := mismatched + [c];
        }
      }
      var unexpected := Unexpected(indexed, top, |chain|);
      r := Report(missing, unexpected, mismatched);
    }
  }

  // -------------------------------------------------------- agreement with the listener

  /** The contract's claims at a block. */
  function ChainAt(logs: seq<Log>, block: nat): seq<Claim>
    requires Valid(logs)
  {
    PrefixValid(logs, CountThrough(logs, block));
    State(logs[..CountThrough(logs, block)])
  }

  lemma OtherClaimsStay(claims: seq<Claim>, log: Log, c: nat)
    requires Accepts(claims, log) && log.claimId != c
    ensures c < |claims| <==> c < |Execute(claims, log)|
    ensures c < |claims| ==> Execute(claims, log)[c] == claims[c]
  {
  }

  lemma {:induction false} UntouchedClaim(logs: seq<Log>, m: nat, n: nat, c: nat)
    requires Valid(logs) && m <= n <= |logs| && forall j :: m <= j < n ==> logs[j].claimId != c
    ensures Valid(logs[..m]) && Valid(logs[..n])
    ensures c < |State(logs[..m])| <==> c < |State(logs[..n])|
    ensures c < |State(logs[..m])| ==> State(logs[..m])[c] == State(logs[..n])[c]
  {
    PrefixValid(logs, m);
    if m < n {
      UntouchedClaim(logs, m, n - 1, c);
      StateStep(logs, n - 1);
      OtherClaimsStay(State(logs[..n - 1]), logs[n - 1], c);
    }
  }

  /** In every reachable state of the listeners no claim is missing, and every reported
      difference is about a claim with an event indexed beyond the checkpoint; so when
      nothing is indexed beyond it, the report is clean. */
  lemma ListenerStatesReconcile(cfg: L.Config, trace: seq<L.World>, w: L.World, r: Report)
    requires L.Reachable(cfg, trace, w) && w.tables.checkpoint.Some? && Valid(w.logs)
    requires Exact(r, ChainAt(w.logs, w.tables.checkpoint.value), w.tables.claims)
    ensures r.missing == []
    ensures forall c :: c in r.unexpected || c in r.mismatched ==> IndexedBeyond(w, c)
    ensures |w.tables.events| == CountThrough(w.logs, w.tables.checkpoint.value) ==> r.Consistent()
  {
    L.ReachableInv(cfg, trace, w);
    var m, n := CountThrough(w.logs, w.tables.checkpoint.value), |w.tables.events|;
    PrefixValid(w.logs, n);
    RowsAgreeWithContract(w.logs[..n]);
    LifecycleIsMonotone(w.logs, m, n);
    if r.missing != [] { var _ := Member(r.missing); }
    forall c | (c in r.unexpected || c in r.mismatched) && !IndexedBeyond(w, c) ensures false {
      UntouchedClaim(w.logs, m, n, c);
    }
    if r.unexpected != [] { var _ := Member(r.unexpected); }
    if r.mismatched != [] { var _ := Member(r.mismatched); }
  }

  /** Some log about claim `c` beyond the checkpoint is already in the projection. */
  ghost predicate IndexedBeyond(w: L.World, c: nat)
    requires w.tables.checkpoint.Some?
  {
    exists j :: CountThrough(w.logs, w.tables.checkpoint.value) <= j < |w.tables.events| && j < |w.logs|
                && w.logs[j].claimId == c
  }
}
