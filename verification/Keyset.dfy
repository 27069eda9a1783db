/** Newest-first keyset pages over the append-only event audit, and walks that follow
    the next cursor while the listener keeps inserting. */
module Keyset {
  import opened Text
  import opened ClaimIndex

  datatype Pos = Pos(block: nat, index: nat, id: string)

  datatype Event = Event(pos: Pos, claimId: nat, tx: string, submission: bool, status: nat)

  /** Character-by-character order of identifiers. */
  predicate TextBelow(a: string, b: string) {
    if b == "" then false
    else if a == "" then true
    else a[0] < b[0] || (a[0] == b[0] && TextBelow(a[1..], b[1..]))
  }

  /** SQL's row comparison `(block, index, id) < (...)`. */
  predicate Below(a: Pos, b: Pos) {
    a.block < b.block || (a.block == b.block && (a.index < b.index || (a.index == b.index && TextBelow(a.id, b.id))))
  }

  lemma {:induction false} TextOrder(a: string, b: string, c: string)
    ensures !TextBelow(a, a)
    ensures a == b || TextBelow(a, b) || TextBelow(b, a)
    ensures !(TextBelow(a, b) && TextBelow(b, a))
    ensures TextBelow(a, b) && TextBelow(b, c) ==> TextBelow(a, c)
    decreases |a| + |b| + |c|
  {
    var a', b', c' := if a == "" then a else a[1..], if b == "" then b else b[1..], if c == "" then c else c[1..];
    if a != "" || b != "" || c != "" { TextOrder(a', b', c'); }
    if a != "" && b != "" && a[0] == b[0] && a[1..] == b[1..] { assert a == [a[0]] + a[1..] && b == [b[0]] + b[1..]; }
  }

  lemma Order(a: Pos, b: Pos, c: Pos)
    ensures !Below(a, a)
    ensures a == b || Below(a, b) || Below(b, a)
    ensures !(Below(a, b) && Below(b, a))
    ensures Below(a, b) && Below(b, c) ==> Below(a, c)
  {
    TextOrder(a.id, b.id, c.id);
  }

  /** Identifiers compare at their first difference; a proper prefix comes first. */
  lemma {:induction false} TextBelowIff(a: string, b: string)
    ensures TextBelow(a, b) <==> a < b || exists k :: 0 <= k < |a| && k < |b| && a[..k] == b[..k] && a[k] < b[k]
  {
    if a != "" && b != "" {
      TextBelowIff(a[1..], b[1..]);
      assert a == [a[0]] + a[1..] && b == [b[0]] + b[1..];
      if a[0] == b[0] {
        forall k | 0 <= k < |a| - 1 && k < |b| - 1 ensures a[1..][..k] == b[1..][..k] <==> a[..k + 1] == b[..k + 1] {
          assert a[..k + 1] == [a[0]] + a[1..][..k] && b[..k + 1] == [b[0]] + b[1..][..k];
          assert a[1..][..k] == a[..k + 1][1..] && b[1..][..k] == b[..k + 1][1..];
        }
        SameHead(a, b);
      } else if a[0] < b[0] {
        assert a[..0] == b[..0];
      } else {
        forall k | 0 < k < |a| && k < |b| ensures a[..k] != b[..k] { assert a[..k][0] != b[..k][0]; }
      }
    }
  }

  lemma SameHead(a: string, b: string)
    requires a != "" && b != "" && a[0] == b[0]
    requires forall k :: 0 <= k < |a| - 1 && k < |b| - 1 ==> (a[1..][..k] == b[1..][..k] <==> a[..k + 1] == b[..k + 1])
    ensures a < b <==> a[1..] < b[1..]
    ensures (exists k :: 0 <= k < |a| && k < |b| && a[..k] == b[..k] && a[k] < b[k])
       <==> exists k :: 0 <= k < |a| - 1 && k < |b| - 1 && a[1..][..k] == b[1..][..k] && a[1..][k] < b[1..][k]
  {
    assert a == [a[0]] + a[1..] && b == [b[0]] + b[1..];
    if j :| 0 <= j < |a| && j < |b| && a[..j] == b[..j] && a[j] < b[j] {
      var k := j - 1;
      assert a[1..][..k] == b[1..][..k] && a[1..][k] < b[1..][k];
    }
    if k :| 0 <= k < |a| - 1 && k < |b| - 1 && a[1..][..k] == b[1..][..k] && a[1..][k] < b[1..][k] {
      assert a[..k + 1] == b[..k + 1] && a[k + 1] < b[k + 1];
    }
  }

  /** The block decides first, then the log's place in it, then the id. */
  lemma OlderFirst(a: Pos, b: Pos)
    ensures a.block < b.block ==> Below(a, b)
    ensures a.block == b.block && a.index < b.index ==> Below(a, b)
    ensures a.block == b.block && a.index == b.index ==> (Below(a, b) <==> TextBelow(a.id, b.id))
  {
  }

  // ------------------------------------------------------------------- one page

  datatype Filter = Filter(claimId: Option<nat>, tx: Option<string>, submission: Option<bool>,
                           status: Option<nat>, fromBlock: Option<nat>, toBlock: Option<nat>)

  predicate Wanted(f: Filter, e: Event) {
    && (f.claimId.Some? ==> e.claimId == f.claimId.value)
    && (f.tx.Some? ==> e.tx == Lower(f.tx.value))
    && (f.submission.Some? ==> e.submission == f.submission.value)
    && (f.status.Some? ==> e.status == f.status.value)
    && (f.fromBlock.Some? ==> e.pos.block >= f.fromBlock.value)
    && (f.toBlock.Some? ==> e.pos.block <= f.toBlock.value)
  }

  predicate Matches(f: Filter, before: Option<Pos>, e: Event) {
    Wanted(f, e) && (before.Some? ==> Below(e.pos, before.value))
  }

  /** No filter wants everything, and each one keeps exactly the events of its own column
      whatever the others say. */
  lemma FiltersNarrow(f: Filter, e: Event, claimId: nat, tx: string, submission: bool, status: nat, block: nat)
    ensures Wanted(Filter(None, None, None, None, None, None), e)
    ensures Wanted(f.(claimId := Some(claimId)), e) <==> Wanted(f.(claimId := None), e) && e.claimId == claimId
    ensures Wanted(f.(tx := Some(tx)), e) <==> Wanted(f.(tx := None), e) && e.tx == Lower(tx)
    ensures Wanted(f.(submission := Some(submission)), e)
       <==> Wanted(f.(submission := None), e) && e.submission == submission
    ensures Wanted(f.(status := Some(status)), e) <==> Wanted(f.(status := None), e) && e.status == status
    ensures Wanted(f.(fromBlock := Some(block)), e) <==> Wanted(f.(fromBlock := None), e) && block <= e.pos.block
    ensures Wanted(f.(toBlock := Some(block)), e) <==> Wanted(f.(toBlock := None), e) && e.pos.block <= block
  {
  }

  function Insert(e: Event, s: seq<Event>): seq<Event> {
    if s == [] || Below(s[0].pos, e.pos) then [e] + s else [s[0]] + Insert(e, s[1..])
  }

  /** WHERE ... ORDER BY block DESC, index DESC, id DESC. */
  function Older(rows: seq<Event>, f: Filter, before: Option<Pos>): seq<Event> {
    if rows == [] then []
    else
      var rest, e := Older(rows[..|rows| - 1], f, before), rows[|rows| - 1];
      if Matches(f, before, e) then Insert(e, rest) else rest
  }

  datatype Page = Page(events: seq<Event>, hasMore: bool)

  datatype Search = Found(page: Page) | Rejected

  /** `search_events`: one row more than the limit tells whether an older page exists. */
  function SearchEvents(rows: seq<Event>, f: Filter, before: Option<Pos>, limit: int): Search {
    if (f.status.Some? && f.status.value > 4)
       || (f.fromBlock.Some? && f.toBlock.Some? && f.fromBlock.value > f.toBlock.value)
       || !(1 <= limit <= 50)
       || (before.Some? && before.value.id == "") then Rejected
    else
      var fetched := Older(rows, f, before);
      var events := if |fetched| > limit + 1 then fetched[..limit + 1] else fetched;
      Found(Page(if |events| > limit then events[..limit] else events, |events| > limit))
  }

  /** A search is refused exactly for a status that does not exist, an empty block range, a
      limit out of bounds or a cursor without an id. */
  lemma RejectedIff(rows: seq<Event>, f: Filter, before: Option<Pos>, limit: int)
    ensures SearchEvents(rows, f, before, limit).Rejected?
      <==> || (f.status.Some? && f.status.value !in {0, 1, 2, 3, 4})
           || (f.fromBlock.Some? && f.toBlock.Some? && f.toBlock.value < f.fromBlock.value)
           || limit < 1 || limit > 50
           || (before.Some? && before.value.id == "")
  {
  }

  ghost predicate Descending(s: seq<Event>) {
    forall i, j :: 0 <= i < j < |s| ==> Below(s[j].pos, s[i].pos)
  }

  /** The audit's primary key is the event id. */
  ghost predicate Distinct(rows: seq<Event>) {
    (forall i, j :: 0 <= i < j < |rows| ==> rows[i].pos != rows[j].pos)
    && forall i :: 0 <= i < |rows| ==> rows[i].pos.id != ""
  }

  lemma {:induction false} InsertElements(e: Event, s: seq<Event>)
    ensures forall x :: x in Insert(e, s) <==> x == e || x in s
    ensures |Insert(e, s)| == |s| + 1
  {
    if !(s == [] || Below(s[0].pos, e.pos)) {
      InsertElements(e, s[1..]);
      assert s == [s[0]] + s[1..];
    }
  }

  lemma {:induction false} InsertDescends(e: Event, s: seq<Event>)
    requires Descending(s) && forall x :: x in s ==> x.pos != e.pos
    ensures Descending(Insert(e, s))
  {
    if s != [] {
      Order(s[0].pos, e.pos, e.pos);
      if Below(s[0].pos, e.pos) {
        forall x | x in s[1..] ensures Below(x.pos, e.pos) { Order(x.pos, s[0].pos, e.pos); }
      } else {
        InsertDescends(e, s[1..]);
        InsertElements(e, s[1..]);
        assert forall x :: x in Insert(e, s[1..]) ==> Below(x.pos, s[0].pos);
      }
    }
  }

  /** A page's rows are the matching rows, each once, strictly newest first. */
  lemma {:induction false} OlderIsSorted(rows: seq<Event>, f: Filter, before: Option<Pos>)
    requires Distinct(rows)
    ensures forall e :: e in Older(rows, f, before) <==> e in rows && Matches(f, before, e)
    ensures Descending(Older(rows, f, before))
  {
    if rows != [] {
      var n := |rows| - 1;
      OlderIsSorted(rows[..n], f, before);
      InsertElements(rows[n], Older(rows[..n], f, before));
      assert rows == rows[..n] + [rows[n]];
      if Matches(f, before, rows[n]) {
        forall x | x in Older(rows[..n], f, before) ensures x.pos != rows[n].pos {
          var i :| 0 <= i < n && rows[..n][i] == x;
        }
        InsertDescends(rows[n], Older(rows[..n], f, before));
      }
    }
  }

  lemma TailOf(a: seq<Event>, e: Event)
    requires Descending(a) && a != []
    ensures e in a[1..] <==> e in a && e != a[0]
  {
    Order(a[0].pos, a[0].pos, a[0].pos);
    assert a == [a[0]] + a[1..];
  }

  /** Order and elements determine the sequence. */
  lemma {:induction false} SameElementsSameOrder(a: seq<Event>, b: seq<Event>)
    requires Descending(a) && Descending(b) && forall e :: e in a <==> e in b
    ensures a == b
  {
    assert b != [] ==> b[0] in b;
    if a != [] {
      assert a[0] in b && (b == [] || b[0] in a);
      Order(a[0].pos, b[0].pos, a[0].pos);
      assert a[0] == b[0];
      forall e ensures e in a[1..] <==> e in b[1..] {
        TailOf(a, e);
        TailOf(b, e);
      }
      SameElementsSameOrder(a[1..], b[1..]);
      assert a == [a[0]] + a[1..] && b == [b[0]] + b[1..];
    }
  }

  // ------------------------------------------------------------------------- walks

  /** Pages of a walk: page `i` is read from `tables[i]`, below the last row of the page
      before; between two pages rows are only added. */
  datatype Walk = Walk(tables: seq<seq<Event>>, pages: seq<Page>)

  function Cursor(pages: seq<Page>, i: nat): Option<Pos>
    requires i <= |pages| && forall j :: 0 <= j < i ==> pages[j].events != []
  {
    if i == 0 then None else Some(pages[i - 1].events[|pages[i - 1].events| - 1].pos)
  }

  ghost predicate IsWalk(w: Walk, f: Filter, limit: nat) {
    && limit > 0 && |w.tables| == |w.pages| > 0
    && (forall i :: 0 <= i < |w.tables| ==> Distinct(w.tables[i]))
    && (forall i, j :: 0 <= i <= j < |w.tables| ==> w.tables[i] <= w.tables[j])
    && (forall i :: 0 <= i < |w.pages| - 1 ==> w.pages[i].hasMore)
    && (forall i :: 0 <= i < |w.pages| && w.pages[i].hasMore ==> w.pages[i].events != [])
    && (forall i :: 0 <= i < |w.pages| ==> IsPage(w, f, limit, i))
  }

  ghost predicate IsPage(w: Walk, f: Filter, limit: nat, i: nat)
    requires i < |w.pages| == |w.tables| && forall j :: 0 <= j < i ==> w.pages[j].events != []
  {
    SearchEvents(w.tables[i], f, Cursor(w.pages, i), limit) == Found(w.pages[i])
  }

  /** All rows returned by the first `n` pages. */
  function Returned(pages: seq<Page>, n: nat): seq<Event>
    requires n <= |pages|
  {
    if n == 0 then [] else Returned(pages, n - 1) + pages[n - 1].events
  }

  /** One page cuts the matching rows at its last row. */
  lemma PageCuts(rows: seq<Event>, f: Filter, before: Option<Pos>, limit: nat, page: Page)
    requires Distinct(rows) && SearchEvents(rows, f, before, limit) == Found(page)
    ensures var d := Older(rows, f, before);
            && page.events == (if |d| > limit then d[..limit] else d)
            && (page.hasMore <==> |d| > limit)
    ensures Descending(page.events)
    ensures forall e :: e in page.events ==> e in rows && Matches(f, before, e)
    ensures forall e :: e in rows && Matches(f, before, e) ==>
              e in page.events
              || (page.hasMore && page.events != [] && Below(e.pos, page.events[|page.events| - 1].pos))
  {
    OlderIsSorted(rows, f, before);
    var d := Older(rows, f, before);
    assert forall i :: 0 <= i < |page.events| ==> d[i] == page.events[i];
    forall e | e in rows && Matches(f, before, e) && e !in page.events
      ensures page.hasMore && page.events != [] && Below(e.pos, page.events[|page.events| - 1].pos)
    {
      var i :| 0 <= i < |d| && d[i] == e;
      assert i >= |page.events|;
    }
  }

  /** What `done` rows ending with `page` have covered of the starting table. */
  ghost predicate Complete(start: seq<Event>, rows: seq<Event>, f: Filter, done: seq<Event>, page: Page) {
    && Descending(done)
    && (forall e :: e in done ==> Wanted(f, e) && e in rows)
    && (page.events != [] ==> forall e :: e in done ==> !Below(e.pos, page.events[|page.events| - 1].pos))
    && (forall e :: e in start && Wanted(f, e) ==>
          e in done
          || (page.hasMore && page.events != [] && Below(e.pos, page.events[|page.events| - 1].pos)))
  }

  lemma JoinDescending(a: seq<Event>, b: seq<Event>, c: Pos)
    requires Descending(a) && Descending(b)
    requires forall e :: e in a ==> !Below(e.pos, c)
    requires forall e :: e in b ==> Below(e.pos, c)
    ensures Descending(a + b)
  {
    forall x, y | x in a && y in b ensures Below(y.pos, x.pos) { Order(y.pos, c, x.pos); Order(x.pos, c, c); }
  }

  lemma LowestLast(s: seq<Event>, e: Event)
    requires Descending(s) && e in s
    ensures !Below(e.pos, s[|s| - 1].pos)
  {
    var i :| 0 <= i < |s| && s[i] == e;
    Order(e.pos, s[|s| - 1].pos, e.pos);
  }

  /** Joining a page below `c` to rows that end at `c`. */
  lemma Joined(done: seq<Event>, events: seq<Event>, c: Pos)
    requires Descending(done) && Descending(events)
    requires forall e :: e in done ==> !Below(e.pos, c)
    requires forall e :: e in events ==> Below(e.pos, c)
    ensures Descending(done + events)
    ensures events != [] ==> forall e :: e in done + events ==> !Below(e.pos, events[|events| - 1].pos)
  {
    JoinDescending(done, events, c);
    forall e | e in done + events && events != [] ensures !Below(e.pos, events[|events| - 1].pos) {
      if e in events { LowestLast(events, e); } else { Order(e.pos, events[|events| - 1].pos, c); }
    }
  }

  /** One more page of a larger table, below the last row of the page before. */
  lemma Extended(start: seq<Event>, rows: seq<Event>, rows': seq<Event>, f: Filter, done: seq<Event>, prev: Page, page: Page)
    requires Complete(start, rows, f, done, prev) && prev.events != [] && rows <= rows' && start <= rows'
    requires Descending(page.events)
    requires var c := prev.events[|prev.events| - 1].pos;
             && (forall e :: e in page.events ==> e in rows' && Matches(f, Some(c), e))
             && (forall e :: e in rows' && Matches(f, Some(c), e) ==>
                   e in page.events
                   || (page.hasMore && page.events != [] && Below(e.pos, page.events[|page.events| - 1].pos)))
    ensures Complete(start, rows', f, done + page.events, page)
  {
    Joined(done, page.events, prev.events[|prev.events| - 1].pos);
  }

  /** The first page of a walk covers what it returns and leaves the rest below it. */
  lemma FirstPage(w: Walk, f: Filter, limit: nat)
    requires IsWalk(w, f, limit)
    ensures Complete(w.tables[0], w.tables[0], f, w.pages[0].events, w.pages[0])
  {
    var page := w.pages[0];
    assert IsPage(w, f, limit, 0);
    PageCuts(w.tables[0], f, None, limit, page);
    forall e | e in page.events ensures !Below(e.pos, page.events[|page.events| - 1].pos) { LowestLast(page.events, e); }
  }

  lemma {:induction false} PrefixComplete(w: Walk, f: Filter, limit: nat, n: nat)
    requires IsWalk(w, f, limit) && 0 < n <= |w.pages|
    ensures Complete(w.tables[0], w.tables[n - 1], f, Returned(w.pages, n), w.pages[n - 1])
  {
    if n == 1 {
      FirstPage(w, f, limit);
      assert Returned(w.pages, 1) == w.pages[0].events;
    } else {
      PrefixComplete(w, f, limit, n - 1);
      NextPage(w, f, limit, n - 1, Returned(w.pages, n - 1));
    }
  }

  lemma NextPage(w: Walk, f: Filter, limit: nat, n: nat, done: seq<Event>)
    requires IsWalk(w, f, limit) && 0 < n < |w.pages|
    requires Complete(w.tables[0], w.tables[n - 1], f, done, w.pages[n - 1])
    ensures Complete(w.tables[0], w.tables[n], f, done + w.pages[n].events, w.pages[n])
  {
    assert IsPage(w, f, limit, n);
    PageExtends(w.tables[0], w.tables[n - 1], w.tables[n], f, done, w.pages[n - 1], limit, w.pages[n]);
  }

  lemma PageExtends(start: seq<Event>, rows: seq<Event>, rows': seq<Event>, f: Filter, done: seq<Event>, prev: Page,
                    limit: nat, page: Page)
    requires Complete(start, rows, f, done, prev) && prev.events != [] && rows <= rows' && start <= rows'
    requires Distinct(rows') && SearchEvents(rows', f, Some(prev.events[|prev.events| - 1].pos), limit) == Found(page)
    ensures Complete(start, rows', f, done + page.events, page)
  {
    PageCuts(rows', f, Some(prev.events[|prev.events| - 1].pos), limit, page);
    Extended(start, rows, rows', f, done, prev, page);
  }

  /** A finished walk: strictly descending positions, so no row twice; every matching row
      present at the start exactly once; and nothing that does not match. */
  lemma WalkIsComplete(w: Walk, f: Filter, limit: nat)
    requires IsWalk(w, f, limit) && !w.pages[|w.pages| - 1].hasMore
    ensures Descending(Returned(w.pages, |w.pages|))
    ensures forall e :: e in w.tables[0] && Wanted(f, e) ==> e in Returned(w.pages, |w.pages|)
    ensures forall e :: e in Returned(w.pages, |w.pages|) ==> Wanted(f, e) && e in w.tables[|w.tables| - 1]
  {
    PrefixComplete(w, f, limit, |w.pages|);
  }

  /** A walk with more rows to come can always go on: its next search is not refused. */
  lemma WalkGoesOn(w: Walk, f: Filter, limit: nat, rows: seq<Event>)
    requires IsWalk(w, f, limit) && w.pages[|w.pages| - 1].hasMore
    ensures SearchEvents(rows, f, Cursor(w.pages, |w.pages|), limit).Found?
  {
    var n := |w.pages| - 1;
    var page := w.pages[n];
    assert IsPage(w, f, limit, n);
    PageCuts(w.tables[n], f, Cursor(w.pages, n), limit, page);
    var last := page.events[|page.events| - 1];
    assert last in w.tables[n];
    RejectedIff(w.tables[n], f, Cursor(w.pages, n), limit);
    RejectedIff(rows, f, Some(last.pos), limit);
  }

  // ------------------------------------------------------------------- termination

  /** The inserts of a walk stay newer than the cursor they happen under. */
  ghost predicate InsertsNewer(w: Walk, f: Filter)
    requires |w.tables| == |w.pages| && forall i :: 0 <= i < |w.pages| - 1 ==> w.pages[i].events != []
  {
    forall i, e :: 0 < i < |w.tables| && e in w.tables[i] && e !in w.tables[i - 1]
      ==> !Below(e.pos, Cursor(w.pages, i).value)
  }

  /** A sorted sequence splits at one of its rows: what comes after is what is below. */
  lemma SplitsAt(d: seq<Event>, k: nat, e: Event)
    requires Descending(d) && 0 < k <= |d| && e in d
    ensures Below(e.pos, d[k - 1].pos) <==> e in d[k..]
  {
    var c := d[k - 1].pos;
    var i :| 0 <= i < |d| && d[i] == e;
    Order(e.pos, c, e.pos);
    assert i >= k ==> d[k..][i - k] == e;
    if e in d[k..] {
      var m :| 0 <= m < |d| - k && d[k..][m] == e;
    }
  }

  /** Rows below the `limit`-th of a page, after rows no older than it were added. */
  lemma NewerInsertsKeepRest(rows: seq<Event>, rows': seq<Event>, f: Filter, before: Option<Pos>, c: Pos,
                             rest: seq<Event>, limit: nat)
    requires Distinct(rows) && Distinct(rows') && rows <= rows' && rest == Older(rows, f, before)
    requires 0 < limit < |rest| && c == rest[limit - 1].pos
    requires forall e :: e in rows' && e !in rows ==> !Below(e.pos, c)
    ensures Older(rows', f, Some(c)) == rest[limit..]
  {
    OlderIsSorted(rows, f, before);
    OlderIsSorted(rows', f, Some(c));
    assert rest[limit - 1] in rest;
    forall e ensures e in Older(rows', f, Some(c)) <==> e in rest[limit..] {
      if e in rest { SplitsAt(rest, limit, e); }
      if e in rows && Wanted(f, e) && Below(e.pos, c) && before.Some? { Order(e.pos, c, before.value); }
    }
    SameElementsSameOrder(Older(rows', f, Some(c)), rest[limit..]);
  }

  /** What a page of a walk cuts off. */
  lemma PageOf(w: Walk, f: Filter, limit: nat, i: nat)
    requires IsWalk(w, f, limit) && i < |w.pages|
    ensures var d := Older(w.tables[i], f, Cursor(w.pages, i));
            && w.pages[i].events == (if |d| > limit then d[..limit] else d)
            && (w.pages[i].hasMore <==> |d| > limit)
  {
    assert IsPage(w, f, limit, i);
    PageCuts(w.tables[i], f, Cursor(w.pages, i), limit, w.pages[i]);
  }

  /** The next page finds what the page before left. */
  lemma NextRest(w: Walk, f: Filter, limit: nat, i: nat)
    requires IsWalk(w, f, limit) && InsertsNewer(w, f) && 0 < i < |w.pages|
    ensures var rest := Older(w.tables[i - 1], f, Cursor(w.pages, i - 1));
            |rest| > limit && Older(w.tables[i], f, Cursor(w.pages, i)) == rest[limit..]
  {
    PageOf(w, f, limit, i - 1);
    var rest := Older(w.tables[i - 1], f, Cursor(w.pages, i - 1));
    var c := Cursor(w.pages, i).value;
    assert c == rest[limit - 1].pos;
    NewerInsertsKeepRest(w.tables[i - 1], w.tables[i], f, Cursor(w.pages, i - 1), c, rest, limit);
  }

  /** How many rows `i` full pages hold. */
  function Offset(i: nat, limit: nat): nat {
    if i == 0 then 0 else Offset(i - 1, limit) + limit
  }

  lemma {:induction false} OffsetIsProduct(i: nat, limit: nat)
    ensures Offset(i, limit) == i * limit
  {
    if i > 0 {
      OffsetIsProduct(i - 1, limit);
      assert i * limit == (i - 1) * limit + limit;
    }
  }

  /** Cutting `limit` rows off again and again. */
  ghost predicate CutAt(rests: seq<seq<Event>>, limit: nat, i: nat)
    requires 0 < i < |rests|
  {
    |rests[i - 1]| > limit && rests[i] == rests[i - 1][limit..]
  }

  lemma {:induction false} CutsAreSuffixes(rests: seq<seq<Event>>, limit: nat, i: nat)
    requires i < |rests| && forall j :: 0 < j < |rests| ==> CutAt(rests, limit, j)
    ensures Offset(i, limit) <= |rests[0]| && rests[i] == rests[0][Offset(i, limit)..]
    ensures i > 0 ==> Offset(i, limit) < |rests[0]|
  {
    if i > 0 {
      CutsAreSuffixes(rests, limit, i - 1);
      assert CutAt(rests, limit, i);
    }
  }

  /** What was left below the cursor before each page. */
  function Rests(w: Walk, f: Filter, limit: nat): (rests: seq<seq<Event>>)
    requires IsWalk(w, f, limit)
    ensures |rests| == |w.pages|
    ensures forall j :: 0 <= j < |rests| ==> rests[j] == Older(w.tables[j], f, Cursor(w.pages, j))
  {
    seq(|w.pages|,
        j requires 0 <= j < |w.pages| == |w.tables| && forall k :: 0 <= k < j ==> w.pages[k].events != []
        => Older(w.tables[j], f, Cursor(w.pages, j)))
  }

  /** Below the cursor only a suffix of the starting rows is left. */
  lemma RestIsSuffix(w: Walk, f: Filter, limit: nat, i: nat)
    requires IsWalk(w, f, limit) && InsertsNewer(w, f) && i < |w.pages|
    ensures var d := Older(w.tables[0], f, None);
            Offset(i, limit) <= |d| && Older(w.tables[i], f, Cursor(w.pages, i)) == d[Offset(i, limit)..]
            && (i > 0 ==> Offset(i, limit) < |d|)
  {
    var rests := Rests(w, f, limit);
    forall j | 0 < j < |rests| ensures CutAt(rests, limit, j) { NextRest(w, f, limit, j); }
    CutsAreSuffixes(rests, limit, i);
  }

  /** Then a walk has at most ceil(n / limit) pages for n matching rows at the start, or
      one page if there are none, and exactly that many once it has ended. */
  lemma WalkTerminates(w: Walk, f: Filter, limit: nat)
    requires IsWalk(w, f, limit) && InsertsNewer(w, f)
    ensures var n := |Older(w.tables[0], f, None)|;
            var most := if n == 0 then 1 else (n + limit - 1) / limit;
            |w.pages| <= most && (!w.pages[|w.pages| - 1].hasMore ==> |w.pages| == most)
  {
    var p := |w.pages| - 1;
    RestIsSuffix(w, f, limit, p);
    PageOf(w, f, limit, p);
    OffsetIsProduct(p, limit);
    OffsetIsProduct(p + 1, limit);
    Ceiling(|Older(w.tables[0], f, None)|, limit, p);
  }

  lemma LessByFactor(a: int, b: int, c: nat)
    requires a * c < b * c
    ensures a < b
  {
  }

  lemma Ceiling(n: nat, limit: nat, p: nat)
    requires limit > 0 && p * limit <= n && (p > 0 ==> p * limit < n)
    ensures var most := if n == 0 then 1 else (n + limit - 1) / limit;
            p + 1 <= most && (n <= (p + 1) * limit ==> p + 1 == most)
  {
    if n > 0 {
      var q := (n + limit - 1) / limit;
      assert (q - 1) * limit < n <= q * limit;
      LessByFactor(p, q, limit);
      if n <= (p + 1) * limit { LessByFactor(q - 1, p + 1, limit); }
    }
  }
}
