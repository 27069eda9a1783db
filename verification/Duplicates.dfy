/** Cross-insurer duplicate matching: a fingerprint per claim, upserted under a lock, and
    checks rebuilt from the table. */
module Duplicates {
  import opened ClaimIndex

  datatype Key = Key(chainId: nat, contract: string, claimId: nat)
  datatype Print = Print(insurer: string, version: string, incident: string)
  datatype Match = Match(claimId: nat, insurer: string)

  /** Same incident on the same contract, submitted through different insurers. */
  predicate Alike(a: Key, p: Print, b: Key, q: Print) {
    && a.chainId == b.chainId && a.contract == b.contract && a.claimId != b.claimId
    && p.version == q.version && p.incident == q.incident && p.insurer != q.insurer
  }

  /** The matches a query for claim `k` returns. */
  function Check(rows: map<Key, Print>, k: Key): set<Match>
    requires k in rows
  {
    set other | other in rows && Alike(k, rows[k], other, rows[other]) :: Match(other.claimId, rows[other].insurer)
  }

  predicate Matched(rows: map<Key, Print>, a: Key, b: Key) {
    a in rows && b in rows && a.chainId == b.chainId && a.contract == b.contract
    && Match(b.claimId, rows[b].insurer) in Check(rows, a)
  }

  /** The rebuilt checks are exactly "same fingerprint, different insurer", ... */
  lemma MatchedIffAlike(rows: map<Key, Print>, a: Key, b: Key)
    requires a in rows && b in rows
    ensures Matched(rows, a, b) <==> Alike(a, rows[a], b, rows[b])
    ensures Matched(rows, a, b)
       <==> a.chainId == b.chainId && a.contract == b.contract && a.claimId != b.claimId
            && rows[a].version == rows[b].version && rows[a].incident == rows[b].incident
            && rows[a].insurer != rows[b].insurer
  {
    if Matched(rows, a, b) {
      var other :| other in rows && Alike(a, rows[a], other, rows[other])
                   && Match(other.claimId, rows[other].insurer) == Match(b.claimId, rows[b].insurer);
      assert other == b;
    }
  }

  /** ... hence symmetric and irreflexive. */
  lemma MatchedSymmetric(rows: map<Key, Print>, a: Key, b: Key)
    requires a in rows && b in rows
    ensures Matched(rows, a, b) <==> Matched(rows, b, a)
    ensures !Matched(rows, a, a)
  {
    MatchedIffAlike(rows, a, b);
    MatchedIffAlike(rows, b, a);
    MatchedIffAlike(rows, a, a);
  }

  // -------------------------------------------------------------------------- runs

  /** A recording and the matches it returned. */
  datatype Entry = Entry(key: Key, fingerprint: Print, returned: set<Match>)

  function Table(log: seq<Entry>): map<Key, Print> {
    if log == [] then map[] else Table(log[..|log| - 1])[log[|log| - 1].key := log[|log| - 1].fingerprint]
  }

  /** The table after the first `n` recordings. */
  function TableAt(log: seq<Entry>, n: nat): map<Key, Print>
    requires n <= |log|
  {
    Table(log[..n])
  }

  /** A history of recordings: each returned what its own query found. */
  ghost predicate History(log: seq<Entry>) {
    forall i :: 0 <= i < |log| ==> Answered(log, i)
  }

  ghost predicate Answered(log: seq<Entry>, i: nat)
    requires i < |log|
  {
    log[i].key in TableAt(log, i + 1) && log[i].returned == Check(TableAt(log, i + 1), log[i].key)
  }

  /** Some recording of claim `a` returned claim `b` with its insurer. */
  ghost predicate Reported(log: seq<Entry>, a: Key, b: Key, insurer: string) {
    exists i :: 0 <= i < |log| && log[i].key == a && Match(b.claimId, insurer) in log[i].returned
  }

  predicate Unchanged(log: seq<Entry>, k: Key, n: nat)
    requires n <= |log|
  {
    k in TableAt(log, n) && k in Table(log) && TableAt(log, n)[k] == Table(log)[k]
  }

  /** Where the current fingerprint of a claim was recorded. */
  lemma {:induction false} LastPrint(log: seq<Entry>, k: Key) returns (i: nat)
    requires k in Table(log)
    ensures i < |log| && log[i].key == k && log[i].fingerprint == Table(log)[k]
    ensures forall n :: i < n <= |log| ==> Unchanged(log, k, n)
  {
    var last := |log| - 1;
    assert log[..|log|] == log;
    if log[last].key == k {
      i := last;
    } else {
      var init := log[..last];
      i := LastPrint(init, k);
      forall n | i < n <= |log| ensures Unchanged(log, k, n) {
        if n <= last {
          assert init[..n] == log[..n];
          assert Unchanged(init, k, n);
        }
      }
    }
  }

  /** Of two matching claims, the one recorded last was told about the other, whatever
      the interleaving, the replays and earlier fingerprints. */
  lemma LaterRecordingSeesEarlier(log: seq<Entry>, a: Key, b: Key)
    requires History(log) && a in Table(log) && b in Table(log) && Matched(Table(log), a, b)
    ensures Reported(log, a, b, Table(log)[b].insurer) || Reported(log, b, a, Table(log)[a].insurer)
  {
    var t := Table(log);
    MatchedIffAlike(t, a, b);
    var i := LastPrint(log, a);
    var j := LastPrint(log, b);
    assert Unchanged(log, a, if i < j then j + 1 else i + 1) && Unchanged(log, b, if i < j then j + 1 else i + 1);
    if i < j {
      Told(log, j, a, t[a], b);
    } else {
      Told(log, i, b, t[b], a);
    }
  }

  /** The recording at `j` returns every claim alike that was in the table then. */
  lemma Told(log: seq<Entry>, j: nat, a: Key, p: Print, b: Key)
    requires History(log) && j < |log| && log[j].key == b
    requires a in TableAt(log, j + 1) && TableAt(log, j + 1)[a] == p
    requires b in TableAt(log, j + 1) && Alike(b, TableAt(log, j + 1)[b], a, p)
    ensures Reported(log, b, a, p.insurer)
  {
    assert Answered(log, j);
    assert Match(a.claimId, p.insurer) in log[j].returned;
  }

  ghost predicate Recorded(log: seq<Entry>, k: Key) {
    exists i :: 0 <= i < |log| && log[i].key == k
  }

  /** When each claim's fingerprint is fixed, the table does not depend on the order or
      the number of recordings, only on which claims were recorded. */
  lemma {:induction false} TableIsWhatWasRecorded(log: seq<Entry>, fixed: Key -> Print)
    requires forall i :: 0 <= i < |log| ==> log[i].fingerprint == fixed(log[i].key)
    ensures forall k :: k in Table(log) <==> Recorded(log, k)
    ensures forall k :: k in Table(log) ==> Table(log)[k] == fixed(k)
  {
    if log != [] {
      var init := log[..|log| - 1];
      TableIsWhatWasRecorded(init, fixed);
      forall k ensures k in Table(log) <==> Recorded(log, k) {
        if k in Table(init) {
          var i :| 0 <= i < |init| && init[i].key == k;
          assert log[i].key == k;
        }
        if i :| 0 <= i < |log| && log[i].key == k {
          assert i < |init| ==> init[i].key == k;
        }
      }
    }
  }

  lemma OrderDoesNotMatter(one: seq<Entry>, other: seq<Entry>, fixed: Key -> Print)
    requires forall i :: 0 <= i < |one| ==> one[i].fingerprint == fixed(one[i].key)
    requires forall i :: 0 <= i < |other| ==> other[i].fingerprint == fixed(other[i].key)
    requires forall k :: Recorded(one, k) <==> Recorded(other, k)
    ensures Table(one) == Table(other)
  {
    TableIsWhatWasRecorded(one, fixed);
    TableIsWhatWasRecorded(other, fixed);
  }

  lemma HistoryGrows(log: seq<Entry>, e: Entry)
    requires History(log) && e.returned == Check(Table(log)[e.key := e.fingerprint], e.key)
    ensures History(log + [e]) && Table(log + [e]) == Table(log)[e.key := e.fingerprint]
  {
    var longer := log + [e];
    assert longer[..|log|] == log && longer[..|longer|] == longer;
    forall i | 0 <= i < |longer| ensures Answered(longer, i) {
      if i < |log| {
        assert longer[..i + 1] == log[..i + 1];
        assert Answered(log, i);
      }
    }
  }

  // ------------------------------------------------------------------------- order

  ghost predicate Ascending(q: seq<Match>) {
    forall i, j :: 0 <= i < j < |q| ==> q[i].claimId < q[j].claimId
  }

  /** `m` at its place by claim id. */
  function Insert(q: seq<Match>, m: Match): seq<Match> {
    if q == [] || m.claimId < q[0].claimId then [m] + q else [q[0]] + Insert(q[1..], m)
  }

  lemma {:induction false} InsertKeeps(q: seq<Match>, m: Match)
    requires Ascending(q) && forall x :: x in q ==> x.claimId != m.claimId
    ensures Ascending(Insert(q, m))
    ensures forall x :: x in Insert(q, m) <==> x in q || x == m
  {
    if q != [] && q[0].claimId < m.claimId {
      InsertKeeps(q[1..], m);
      assert q == [q[0]] + q[1..];
      assert forall x :: x in Insert(q[1..], m) ==> q[0].claimId < x.claimId;
    } else {
      assert forall i :: 0 <= i < |q| ==> m.claimId < q[i].claimId;
    }
  }

  /** A claim is matched with one insurer only. */
  lemma OneInsurerEach(rows: map<Key, Print>, k: Key, a: Match, b: Match)
    requires k in rows && a in Check(rows, k) && b in Check(rows, k) && a.claimId == b.claimId
    ensures a == b
  {
    var x :| x in rows && Alike(k, rows[k], x, rows[x]) && Match(x.claimId, rows[x].insurer) == a;
    var y :| y in rows && Alike(k, rows[k], y, rows[y]) && Match(y.claimId, rows[y].insurer) == b;
    assert x == y;
  }

  /** `ORDER BY claim_id`. */
  method Ordered(rows: map<Key, Print>, k: Key) returns (q: seq<Match>)
    requires k in rows
    ensures Ascending(q) && forall m :: m in q <==> m in Check(rows, k)
  {
    q := [];
    var rest := Check(rows, k);
    while rest != {}
      invariant rest <= Check(rows, k) && Ascending(q)
      invariant forall m :: m in q <==> m in Check(rows, k) && m !in rest
      decreases rest
    {
      var m :| m in rest;
      forall x | x in q ensures x.claimId != m.claimId {
        if x.claimId == m.claimId { OneInsurerEach(rows, k, x, m); }
      }
      InsertKeeps(q, m);
      q := Insert(q, m);
      rest := rest - {m};
    }
  }

  class DuplicateRepository {
    var rows: map<Key, Print>
    ghost var log: seq<Entry>

    ghost predicate Valid()
      reads this
    {
      rows == Table(log) && History(log)
    }

    constructor ()
      ensures Valid() && log == []
    {
      rows, log := map[], [];
    }

    /** `record_and_find_duplicates`: upsert, then query the changed table. */
    method RecordAndFind(k: Key, p: Print) returns (matches: seq<Match>)
      requires Valid()
      modifies this
      ensures Valid() && rows == old(rows)[k := p]
      ensures Ascending(matches) && forall m :: m in matches <==> m in Check(rows, k)
      ensures log == old(log) + [Entry(k, p, Check(rows, k))]
    {
      rows := rows[k := p];
      matches := Ordered(rows, k);
      HistoryGrows(log, Entry(k, p, Check(rows, k)));
      log := log + [Entry(k, p, Check(rows, k))];
    }

    /** `get_duplicate_check_for_claim`. */
    method CheckFor(k: Key) returns (matches: Option<seq<Match>>)
      requires Valid()
      ensures matches.Some? <==> k in rows
      ensures matches.Some? ==> Ascending(matches.value) && forall m :: m in matches.value <==> m in Check(rows, k)
    {
      if k !in rows {
        return None;
      }
      var found := Ordered(rows, k);
      return Some(found);
    }
  }
}
