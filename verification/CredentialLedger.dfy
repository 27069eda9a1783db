/** The per-credential allowance as a run of charges: a minute deque for each credential
    and one table of daily counters whose old days every admission deletes. */
module CredentialLedger {
  import opened SlidingWindow

  /** One authenticated call, with the quota configured for its credential. */
  datatype Charge = Charge(id: string, quota: nat, now: int)

  datatype Verdict = MinuteFull | DayFull | Admitted

  datatype Book = Book(queues: map<string, seq<int>>, usage: map<(string, int), nat>,
                       histories: map<string, seq<int>>)

  const EMPTY := Book(map[], map[], map[])

  function Deque(attempts: map<string, seq<int>>, key: string): seq<int> {
    if key in attempts then attempts[key] else []
  }

  function Used(usage: map<(string, int), nat>, day: (string, int)): nat {
    if day in usage then usage[day] else 0
  }

  function Since(usage: map<(string, int), nat>, today: int): map<(string, int), nat> {
    map key | key in usage && key.1 >= today :: usage[key]
  }

  /** The two checks of `_reserve_principal`, in order. */
  function Decide(pruned: nat, limit: nat, used: nat, quota: nat): Verdict {
    if pruned >= limit then MinuteFull else if used >= quota then DayFull else Admitted
  }

  /** The daily counters after a decision: an admission counts and drops the old days;
      reading a missing counter creates it. */
  function Counted(usage: map<(string, int), nat>, day: (string, int), v: Verdict): map<(string, int), nat> {
    match v
    case MinuteFull => usage
    case DayFull => usage[day := Used(usage, day)]
    case Admitted => Since(usage[day := Used(usage, day) + 1], day.1)
  }

  function Judged(b: Book, c: Charge, limit: nat): Verdict {
    Decide(|Prune(Deque(b.queues, c.id), c.now - MINUTE)|, limit, Used(b.usage, (c.id, c.now / DAY)), c.quota)
  }

  function Reserved(history: seq<int>, now: int, v: Verdict): seq<int> {
    history + if v.Admitted? then [now] else []
  }

  function Charged(b: Book, c: Charge, limit: nat): Book {
    var v := Judged(b, c, limit);
    Book(b.queues[c.id := Reserved(Prune(Deque(b.queues, c.id), c.now - MINUTE), c.now, v)],
         Counted(b.usage, (c.id, c.now / DAY), v),
         b.histories[c.id := Reserved(Deque(b.histories, c.id), c.now, v)])
  }

  /** The books after a run of charges, in the order of the lock. */
  function Books(charges: seq<Charge>, limit: nat): Book {
    if charges == [] then EMPTY
    else Charged(Books(charges[..|charges| - 1], limit), charges[|charges| - 1], limit)
  }

  /** Every reservation a credential ever got. */
  function HistoryOf(b: Book, id: string): seq<int> { Deque(b.histories, id) }

  function InDay(history: seq<int>, day: int): nat { CountIn(history, day * DAY, (day + 1) * DAY) }

  /** Every UTC day holds at most the quota. */
  ghost predicate DaysBounded(history: seq<int>, quota: nat) { forall day :: InDay(history, day) <= quota }

  ghost predicate QuotaIs(charges: seq<Charge>, id: string, quota: nat) {
    forall i :: 0 <= i < |charges| && charges[i].id == id ==> charges[i].quota == quota
  }

  lemma BooksNext(charges: seq<Charge>, c: Charge, limit: nat, b: Book)
    requires b == Books(charges, limit)
    ensures Books(charges + [c], limit) == Charged(b, c, limit)
  {
    assert (charges + [c])[..|charges|] == charges;
  }

  lemma QuotaNext(charges: seq<Charge>, c: Charge, id: string, quota: nat)
    requires QuotaIs(charges, id, quota) && c.quota == quota
    ensures QuotaIs(charges + [c], id, quota)
  {
  }

  lemma QuotaPrefix(charges: seq<Charge>, id: string, quota: nat)
    requires QuotaIs(charges, id, quota) && charges != []
    ensures QuotaIs(charges[..|charges| - 1], id, quota)
  {
    assert forall i :: 0 <= i < |charges| - 1 ==> charges[..|charges| - 1][i] == charges[i];
  }

  /** The day of a time is the only one it counts in. */
  lemma DayOf(now: int, day: int)
    ensures day * DAY <= now < (day + 1) * DAY <==> now / DAY == day
  {
  }

  lemma ChargedOwn(b: Book, c: Charge, limit: nat)
    ensures var v, b' := Judged(b, c, limit), Charged(b, c, limit);
            && Deque(b'.queues, c.id) == Reserved(Prune(Deque(b.queues, c.id), c.now - MINUTE), c.now, v)
            && HistoryOf(b', c.id) == Reserved(HistoryOf(b, c.id), c.now, v)
  {
  }

  lemma ChargedOther(b: Book, c: Charge, limit: nat, id: string)
    requires id != c.id
    ensures var b' := Charged(b, c, limit);
            Deque(b'.queues, id) == Deque(b.queues, id) && HistoryOf(b', id) == HistoryOf(b, id)
  {
  }

  lemma HistoryKept(h: seq<int>)
    ensures h + [] == h
  {
  }

  // ---------------------------------------------------- the counters, with any clocks

  /** A counter never exceeds what was admitted on its day. */
  ghost predicate CountersBelow(b: Book) {
    forall id, day :: (id, day) in b.usage ==> b.usage[(id, day)] <= InDay(HistoryOf(b, id), day)
  }

  lemma CounterBelow(b: Book, id: string, day: int)
    requires CountersBelow(b)
    ensures Used(b.usage, (id, day)) <= InDay(HistoryOf(b, id), day)
  {
  }

  lemma ChargeCountersBelow(b: Book, c: Charge, limit: nat)
    requires CountersBelow(b)
    ensures CountersBelow(Charged(b, c, limit))
  {
    var b' := Charged(b, c, limit);
    forall id, day | (id, day) in b'.usage ensures b'.usage[(id, day)] <= InDay(HistoryOf(b', id), day) {
      CounterBelow(b, id, day);
      HistoryKept(HistoryOf(b, id));
      if id == c.id {
        CountStep(HistoryOf(b, id), c.now, day * DAY, (day + 1) * DAY);
        DayOf(c.now, day);
      }
    }
  }

  lemma {:induction false} BooksCountersBelow(charges: seq<Charge>, limit: nat)
    ensures CountersBelow(Books(charges, limit))
  {
    if charges != [] {
      BooksCountersBelow(charges[..|charges| - 1], limit);
      ChargeCountersBelow(Books(charges[..|charges| - 1], limit), charges[|charges| - 1], limit);
    }
  }

  // ------------------------------------------------------------ one slot, wide quota

  /** As many minutes as a day has. */
  const MINUTES: nat := 1440

  lemma {:induction false} SpacedSpan(history: seq<int>, i: nat, k: nat)
    requires Spaced(history, 1) && i + k < |history|
    ensures history[i + k] >= history[i] + k * MINUTE
  {
    if k > 0 { SpacedSpan(history, i, k - 1); }
  }

  /** Reservations a minute apart: at most 1440 a day, and if a day has that many before
      `now`, then `now` is not a minute after the last one on the same day. */
  lemma DayHoldsMinutes(history: seq<int>, day: int)
    requires Sorted(history) && Spaced(history, 1)
    ensures InDay(history, day) <= MINUTES
    ensures InDay(history, day) == MINUTES ==>
              history != [] && history[|history| - 1] + MINUTE >= (day + 1) * DAY
  {
    var n := InDay(history, day);
    if n > 0 {
      var i := WindowIsContiguous(history, day * DAY, (day + 1) * DAY);
      SpacedSpan(history, i, n - 1);
    }
  }

  ghost predicate Single(b: Book, id: string) {
    SlidingWindow.Single(Ledger(Deque(b.queues, id), HistoryOf(b, id)))
  }

  lemma ChargeSingle(b: Book, c: Charge, id: string)
    requires Single(b, id) && CountersBelow(b) && (c.id == id ==> c.quota >= MINUTES)
    ensures Single(Charged(b, c, 1), id)
  {
    if c.id == id {
      var h, queue := HistoryOf(b, id), Deque(b.queues, id);
      CounterBelow(b, id, c.now / DAY);
      DayHoldsMinutes(h, c.now / DAY);
      DayOf(c.now, c.now / DAY);
      if h == [] {
        assert Prune(queue, c.now - MINUTE) == [];
      } else {
        PruneOne(h[|h| - 1], c.now - MINUTE);
      }
      SingleNext(h, queue, c.now, Judged(b, c, 1), Used(b.usage, (id, c.now / DAY)), c.quota);
    }
  }

  lemma SingleNext(h: seq<int>, queue: seq<int>, now: int, v: Verdict, used: nat, quota: nat)
    requires SlidingWindow.Single(Ledger(queue, h))
    requires v == Decide(|Prune(queue, now - MINUTE)|, 1, used, quota)
    requires Prune(queue, now - MINUTE) == if h == [] || h[|h| - 1] <= now - MINUTE then [] else queue
    requires (h == [] || h[|h| - 1] <= now - MINUTE) ==> used < quota
    ensures SlidingWindow.Single(Ledger(Reserved(Prune(queue, now - MINUTE), now, v), Reserved(h, now, v)))
  {
    if v.Admitted? {
      SpacedAppends(h, now);
      assert [] + [now] == [now];
    } else {
      assert queue + [] == queue && h + [] == h;
    }
  }

  lemma {:induction false} BooksSingle(charges: seq<Charge>, id: string, quota: nat)
    requires QuotaIs(charges, id, quota) && quota >= MINUTES
    ensures Single(Books(charges, 1), id)
  {
    if charges != [] {
      var init := charges[..|charges| - 1];
      QuotaPrefix(charges, id, quota);
      BooksSingle(init, id, quota);
      BooksCountersBelow(init, 1);
      ChargeSingle(Books(init, 1), charges[|charges| - 1], id);
    }
  }

  // --------------------------------------------------------------- calls in clock order

  ghost predicate InOrder(charges: seq<Charge>) {
    forall i, j :: 0 <= i < j < |charges| ==> charges[i].now <= charges[j].now
  }

  /** A credential's deque tracks its history, as of some time up to `now`. */
  ghost predicate TracksBy(b: Book, id: string, limit: nat, now: int) {
    exists touched :: touched <= now && Tracks(Deque(b.queues, id), HistoryOf(b, id), touched, limit)
  }

  lemma ChargeTracks(b: Book, c: Charge, id: string, limit: nat, now: int)
    requires TracksBy(b, id, limit, now) && now <= c.now && limit > 0
    ensures TracksBy(Charged(b, c, limit), id, limit, c.now)
  {
    var touched :| touched <= now && Tracks(Deque(b.queues, id), HistoryOf(b, id), touched, limit);
    if c.id == id {
      ChargedOwn(b, c, limit);
      DequeTracks(Deque(b.queues, id), HistoryOf(b, id), touched, limit, c.now, Judged(b, c, limit));
    } else {
      ChargedOther(b, c, limit, id);
    }
  }

  lemma DequeTracks(queue: seq<int>, history: seq<int>, touched: int, limit: nat, now: int, v: Verdict)
    requires limit > 0 && Tracks(queue, history, touched, limit) && touched <= now
    requires v.Admitted? ==> |Prune(queue, now - MINUTE)| < limit
    ensures Tracks(Reserved(Prune(queue, now - MINUTE), now, v), Reserved(history, now, v), now, limit)
  {
    if v.Admitted? {
      ReserveTracks(queue, history, touched, limit, now);
    } else {
      PruneTracks(queue, history, touched, limit, now);
      assert Prune(queue, now - MINUTE) + [] == Prune(queue, now - MINUTE) && history + [] == history;
    }
  }

  /** Today's counters, and later ones, are exact. */
  ghost predicate CountersExact(b: Book, id: string, today: int) {
    forall day :: day >= today ==> Used(b.usage, (id, day)) == InDay(HistoryOf(b, id), day)
  }

  lemma ChargeExact(b: Book, c: Charge, id: string, limit: nat, today: int)
    requires CountersExact(b, id, today) && today <= c.now / DAY
    ensures CountersExact(Charged(b, c, limit), id, c.now / DAY)
  {
    var b' := Charged(b, c, limit);
    forall day | day >= c.now / DAY ensures Used(b'.usage, (id, day)) == InDay(HistoryOf(b', id), day) {
      assert Used(b.usage, (id, day)) == InDay(HistoryOf(b, id), day);
      CountStep(HistoryOf(b, id), c.now, day * DAY, (day + 1) * DAY);
      DayOf(c.now, day);
      HistoryKept(HistoryOf(b, id));
    }
  }

  lemma ChargeWithinQuota(b: Book, c: Charge, id: string, limit: nat, today: int, quota: nat)
    requires CountersExact(b, id, today) && today <= c.now / DAY && (c.id == id ==> c.quota == quota)
    requires DaysBounded(HistoryOf(b, id), quota)
    ensures DaysBounded(HistoryOf(Charged(b, c, limit), id), quota)
  {
    var h := HistoryOf(b, id);
    HistoryKept(h);
    forall day ensures InDay(HistoryOf(Charged(b, c, limit), id), day) <= quota {
      assert InDay(h, day) <= quota;
      CountStep(h, c.now, day * DAY, (day + 1) * DAY);
      DayOf(c.now, day);
    }
  }

  /** With calls in clock order the minute deque and the daily counter both do what they
      are for, although other credentials delete counters too. */
  lemma {:induction false} InOrderBounded(charges: seq<Charge>, limit: nat, id: string, quota: nat)
    requires InOrder(charges) && QuotaIs(charges, id, quota) && limit > 0
    ensures DaysBounded(HistoryOf(Books(charges, limit), id), quota)
    ensures charges != [] ==>
              var now := charges[|charges| - 1].now;
              TracksBy(Books(charges, limit), id, limit, now) && CountersExact(Books(charges, limit), id, now / DAY)
  {
    if charges != [] {
      var init, c := charges[..|charges| - 1], charges[|charges| - 1];
      QuotaPrefix(charges, id, quota);
      InOrderBounded(init, limit, id, quota);
      if init == [] {
        assert Tracks(Deque(EMPTY.queues, id), HistoryOf(EMPTY, id), c.now, limit);
        OrderStep(EMPTY, c, id, limit, c.now, quota);
      } else {
        OrderStep(Books(init, limit), c, id, limit, init[|init| - 1].now, quota);
      }
    }
  }

  lemma DaysInOrder(a: int, b: int)
    requires a <= b
    ensures a / DAY <= b / DAY
  {
  }

  lemma OrderStep(b: Book, c: Charge, id: string, limit: nat, now: int, quota: nat)
    requires TracksBy(b, id, limit, now) && CountersExact(b, id, now / DAY) && now <= c.now && limit > 0
    requires DaysBounded(HistoryOf(b, id), quota) && (c.id == id ==> c.quota == quota)
    ensures DaysBounded(HistoryOf(Charged(b, c, limit), id), quota)
    ensures TracksBy(Charged(b, c, limit), id, limit, c.now)
    ensures CountersExact(Charged(b, c, limit), id, c.now / DAY)
  {
    DaysInOrder(now, c.now);
    ChargeTracks(b, c, id, limit, now);
    ChargeExact(b, c, id, limit, now / DAY);
    ChargeWithinQuota(b, c, id, limit, now / DAY, quota);
  }

  lemma TrackedBounded(b: Book, id: string, limit: nat, now: int)
    requires TracksBy(b, id, limit, now)
    ensures MinutesBounded(HistoryOf(b, id), limit)
  {
    SpacedBounded(HistoryOf(b, id), limit);
  }

  lemma InOrderMinutes(charges: seq<Charge>, limit: nat, id: string, quota: nat)
    requires InOrder(charges) && QuotaIs(charges, id, quota) && limit > 0
    ensures MinutesBounded(HistoryOf(Books(charges, limit), id), limit)
  {
    InOrderBounded(charges, limit, id, quota);
    if charges == [] {
      SpacedBounded([], limit);
    } else {
      TrackedBounded(Books(charges, limit), id, limit, charges[|charges| - 1].now);
    }
  }

  // ------------------------------------------------------ any clocks, several slots

  /** The books after `n` rounds, with `h` admitted. */
  function Zigzagged(id: string, n: nat, h: seq<int>): Book {
    if n == 0 then EMPTY else Book(map[id := [n * DAY]], map[(id, n) := 1], map[id := h])
  }

  lemma ZigFirst(id: string, quota: nat, n: nat, h: seq<int>, limit: nat)
    requires limit >= 2 && quota > 0 && (n == 0 ==> h == [])
    ensures var b := Charged(Zigzagged(id, n, h), Charge(id, quota, 0), limit);
            && b.queues == map[id := if n == 0 then [0] else [n * DAY, 0]]
            && b.usage == (if n == 0 then map[(id, 0) := 1] else map[(id, n) := 1, (id, 0) := 1])
            && b.histories == map[id := h + [0]]
  {
    var b := Zigzagged(id, n, h);
    var queue := Deque(b.queues, id);
    assert 0 / DAY == 0;
    assert Prune(queue, 0 - MINUTE) == queue by {
      if n > 0 { PruneOne(n * DAY, 0 - MINUTE); }
    }
    assert queue + [0] == if n == 0 then [0] else [n * DAY, 0];
    assert Judged(b, Charge(id, quota, 0), limit) == Admitted;
    assert b.queues[id := queue + [0]] == map[id := queue + [0]];
    assert b.histories[id := h + [0]] == map[id := h + [0]];
  }

  lemma ZigSecond(b: Book, id: string, quota: nat, n: nat, h: seq<int>, limit: nat)
    requires limit >= 2 && quota > 0
    requires b.queues == map[id := if n == 0 then [0] else [n * DAY, 0]]
    requires b.usage == if n == 0 then map[(id, 0) := 1] else map[(id, n) := 1, (id, 0) := 1]
    requires b.histories == map[id := h]
    ensures Charged(b, Charge(id, quota, (n + 1) * DAY), limit) == Zigzagged(id, n + 1, h + [(n + 1) * DAY])
  {
    var now := (n + 1) * DAY;
    PruneClears(b.queues[id], now - MINUTE);
    assert now / DAY == n + 1;
    assert [] + [now] == [now];
    assert Since(b.usage[(id, n + 1) := 1], n + 1) == map[(id, n + 1) := 1];
  }

  lemma ZigRound(before: seq<Charge>, id: string, quota: nat, n: nat, h: seq<int>, limit: nat)
      returns (charges: seq<Charge>)
    requires limit >= 2 && quota > 0 && (n == 0 ==> h == [])
    requires Books(before, limit) == Zigzagged(id, n, h) && QuotaIs(before, id, quota)
    ensures Books(charges, limit) == Zigzagged(id, n + 1, h + [0] + [(n + 1) * DAY]) && QuotaIs(charges, id, quota)
  {
    var first, second := Charge(id, quota, 0), Charge(id, quota, (n + 1) * DAY);
    var mid := Charged(Zigzagged(id, n, h), first, limit);
    BooksNext(before, first, limit, Zigzagged(id, n, h));
    QuotaNext(before, first, id, quota);
    ZigFirst(id, quota, n, h, limit);
    BooksNext(before + [first], second, limit, mid);
    QuotaNext(before + [first], second, id, quota);
    ZigSecond(mid, id, quota, n, h + [0], limit);
    charges := before + [first] + [second];
  }

  lemma ZigCounts(h: seq<int>, n: nat)
    requires n > 0 && InMinute(h, 0) >= n - 1 && InDay(h, 0) >= n - 1
    ensures InMinute(h + [0] + [n * DAY], 0) >= n && InDay(h + [0] + [n * DAY], 0) >= n
  {
    CountStep(h, 0, 0, MINUTE);
    CountStep(h + [0], n * DAY, 0, MINUTE);
    CountStep(h, 0, 0, DAY);
    CountStep(h + [0], n * DAY, 0, DAY);
  }

  /** Back and forth between the first instant of day 0 and ever later days: each later
      call empties the deque and deletes the counter of day 0, so every call at that
      instant is admitted. */
  lemma {:induction false} Zigzag(id: string, quota: nat, n: nat, limit: nat)
      returns (charges: seq<Charge>, h: seq<int>)
    requires limit >= 2 && quota > 0
    ensures Books(charges, limit) == Zigzagged(id, n, h) && QuotaIs(charges, id, quota) && (n == 0 ==> h == [])
    ensures InMinute(h, 0) >= n && InDay(h, 0) >= n
  {
    if n == 0 {
      charges, h := [], [];
    } else {
      charges, h := Zigzag(id, quota, n - 1, limit);
      charges := ZigRound(charges, id, quota, n - 1, h, limit);
      ZigCounts(h, n);
      h := h + [0] + [n * DAY];
    }
  }

  // ------------------------------------------------------ any clocks, a narrow quota

  /** The credential is idle: nothing recent, and nothing counted today or later. */
  ghost predicate Idle(b: Book, id: string, day: int) {
    && Prune(Deque(b.queues, id), day * DAY - MINUTE) == []
    && forall later :: later >= day ==> Used(b.usage, (id, later)) == 0
  }

  /** After `n` ticks of a day. */
  ghost predicate Ticked(b: Book, id: string, day: nat, n: nat) {
    && n > 0 && Deque(b.queues, id) == [day * DAY + (n - 1) * MINUTE] && Used(b.usage, (id, day)) == n
    && forall other :: other != day ==> Used(b.usage, (id, other)) == 0
  }

  lemma TickDay(day: nat, n: nat)
    requires n < MINUTES
    ensures (day * DAY + n * MINUTE) / DAY == day
  {
  }

  lemma TickNext(b: Book, id: string, quota: nat, day: nat, n: nat)
    requires n < MINUTES && if n == 0 then Idle(b, id, day) else Ticked(b, id, day, n)
    ensures var c, b' := Charge(id, quota, day * DAY + n * MINUTE), Charged(b, Charge(id, quota, day * DAY + n * MINUTE), 1);
            if n < quota then
              Ticked(b', id, day, n + 1) && HistoryOf(b', id) == HistoryOf(b, id) + [c.now]
            else
              Deque(b'.queues, id) == [] && HistoryOf(b', id) == HistoryOf(b, id)
              && forall other :: other != day ==> Used(b'.usage, (id, other)) == Used(b.usage, (id, other))
  {
    var now := day * DAY + n * MINUTE;
    TickDay(day, n);
    if n > 0 { PruneOne(day * DAY + (n - 1) * MINUTE, now - MINUTE); }
    HistoryKept(HistoryOf(b, id));
    assert [] + [now] == [now];
  }

  lemma TickCounts(h: seq<int>, now: int, day: nat, n: nat)
    requires 0 < n <= MINUTES && now == day * DAY + (n - 1) * MINUTE
    ensures InDay(h + [now], 0) == InDay(h, 0) + if day == 0 then 1 else 0
    ensures InMinute(h + [now], 0) == InMinute(h, 0) + if day == 0 && n == 1 then 1 else 0
  {
    CountStep(h, now, 0, DAY);
    CountStep(h, now, 0, MINUTE);
  }

  lemma OneTick(before: seq<Charge>, b: Book, id: string, quota: nat, day: nat, n: nat)
      returns (charges: seq<Charge>, b': Book)
    requires 0 < n <= quota && n <= MINUTES && b == Books(before, 1) && QuotaIs(before, id, quota)
    requires if n == 1 then Idle(b, id, day) else Ticked(b, id, day, n - 1)
    ensures b' == Books(charges, 1) && QuotaIs(charges, id, quota) && Ticked(b', id, day, n)
    ensures InDay(HistoryOf(b', id), 0) == InDay(HistoryOf(b, id), 0) + if day == 0 then 1 else 0
    ensures InMinute(HistoryOf(b', id), 0) == InMinute(HistoryOf(b, id), 0) + if day == 0 && n == 1 then 1 else 0
  {
    var c := Charge(id, quota, day * DAY + (n - 1) * MINUTE);
    charges, b' := before + [c], Charged(b, c, 1);
    BooksNext(before, c, 1, b);
    QuotaNext(before, c, id, quota);
    TickNext(b, id, quota, day, n - 1);
    TickCounts(HistoryOf(b, id), c.now, day, n);
  }

  /** One admission a minute, from the first instant of a day. */
  lemma {:induction false} Ticks(before: seq<Charge>, b: Book, id: string, quota: nat, day: nat, n: nat)
      returns (charges: seq<Charge>, b': Book)
    requires 0 < n <= quota && n <= MINUTES && b == Books(before, 1) && QuotaIs(before, id, quota) && Idle(b, id, day)
    ensures b' == Books(charges, 1) && QuotaIs(charges, id, quota) && Ticked(b', id, day, n)
    ensures InDay(HistoryOf(b', id), 0) >= InDay(HistoryOf(b, id), 0) + if day == 0 then n else 0
    ensures InMinute(HistoryOf(b', id), 0) >= InMinute(HistoryOf(b, id), 0) + if day == 0 then 1 else 0
  {
    charges, b' := before, b;
    if n > 1 { charges, b' := Ticks(before, b, id, quota, day, n - 1); }
    charges, b' := OneTick(charges, b', id, quota, day, n);
  }

  lemma DayOver(b: Book, id: string, quota: nat)
    requires 0 < quota < MINUTES && Ticked(b, id, 0, quota)
    ensures Idle(b, id, 1)
  {
    PruneOne((quota - 1) * MINUTE, DAY - MINUTE);
  }

  lemma LastAdmitted(b: Book, id: string, quota: nat)
    requires quota > 0 && Deque(b.queues, id) == [] && Used(b.usage, (id, 0)) == 0
    ensures var h := HistoryOf(b, id);
            && HistoryOf(Charged(b, Charge(id, quota, 0), 1), id) == h + [0]
            && InDay(h + [0], 0) == InDay(h, 0) + 1 && InMinute(h + [0], 0) == InMinute(h, 0) + 1
  {
    CountStep(HistoryOf(b, id), 0, 0, DAY);
    CountStep(HistoryOf(b, id), 0, 0, MINUTE);
    assert 0 / DAY == 0;
  }

  /** A call refused by the quota alone empties the deque. */
  lemma Refused(before: seq<Charge>, b: Book, id: string, quota: nat) returns (charges: seq<Charge>, b': Book)
    requires 0 < quota < MINUTES && b == Books(before, 1) && QuotaIs(before, id, quota) && Ticked(b, id, 1, quota)
    ensures b' == Books(charges, 1) && QuotaIs(charges, id, quota) && HistoryOf(b', id) == HistoryOf(b, id)
    ensures Deque(b'.queues, id) == [] && Used(b'.usage, (id, 0)) == 0
  {
    var c := Charge(id, quota, DAY + quota * MINUTE);
    charges, b' := before + [c], Charged(b, c, 1);
    BooksNext(before, c, 1, b);
    QuotaNext(before, c, id, quota);
    TickNext(b, id, quota, 1, quota);
  }

  lemma RolledBack(before: seq<Charge>, b: Book, id: string, quota: nat) returns (charges: seq<Charge>, b': Book)
    requires quota > 0 && b == Books(before, 1) && QuotaIs(before, id, quota)
    requires Deque(b.queues, id) == [] && Used(b.usage, (id, 0)) == 0
    ensures b' == Books(charges, 1) && QuotaIs(charges, id, quota)
    ensures InDay(HistoryOf(b', id), 0) == InDay(HistoryOf(b, id), 0) + 1
    ensures InMinute(HistoryOf(b', id), 0) == InMinute(HistoryOf(b, id), 0) + 1
  {
    var c := Charge(id, quota, 0);
    charges, b' := before + [c], Charged(b, c, 1);
    BooksNext(before, c, 1, b);
    QuotaNext(before, c, id, quota);
    LastAdmitted(b, id, quota);
  }

  /** Day 0 and day 1 up to the quota; a call that only the quota refuses, and that empties
      the deque; then a clock at the first instant of day 0, whose counter is gone. */
  lemma Rollback(id: string, quota: nat) returns (charges: seq<Charge>, b: Book)
    requires 0 < quota < MINUTES
    ensures b == Books(charges, 1) && QuotaIs(charges, id, quota)
    ensures InDay(HistoryOf(b, id), 0) > quota && InMinute(HistoryOf(b, id), 0) > 1
  {
    assert Idle(EMPTY, id, 0);
    charges, b := Ticks([], EMPTY, id, quota, 0, quota);
    DayOver(b, id, quota);
    charges, b := Ticks(charges, b, id, quota, 1, quota);
    charges, b := Refused(charges, b, id, quota);
    charges, b := RolledBack(charges, b, id, quota);
  }

  /** Whatever the clocks: the limit of a credential holds for every run of charges of any
      credentials exactly when it is one and the quota admits one a minute all day; and
      the same is exactly when the quota holds. */
  lemma BoundedIff(id: string, quota: nat, limit: nat)
    requires limit > 0 && quota > 0
    ensures (forall charges :: QuotaIs(charges, id, quota) ==>
              MinutesBounded(HistoryOf(Books(charges, limit), id), limit))
            <==> limit == 1 && quota >= MINUTES
    ensures (forall charges :: QuotaIs(charges, id, quota) ==> DaysBounded(HistoryOf(Books(charges, limit), id), quota))
            <==> limit == 1 && quota >= MINUTES
  {
    if limit == 1 && quota >= MINUTES {
      forall charges | QuotaIs(charges, id, quota)
        ensures MinutesBounded(HistoryOf(Books(charges, limit), id), limit)
        ensures DaysBounded(HistoryOf(Books(charges, limit), id), quota)
      {
        AnyClocksBounded(charges, id, quota);
      }
    } else {
      var charges := Disorder(id, quota, limit);
      assert InMinute(HistoryOf(Books(charges, limit), id), 0) > limit;
      assert InDay(HistoryOf(Books(charges, limit), id), 0) > quota;
    }
  }

  lemma AnyClocksBounded(charges: seq<Charge>, id: string, quota: nat)
    requires QuotaIs(charges, id, quota) && quota >= MINUTES
    ensures MinutesBounded(HistoryOf(Books(charges, 1), id), 1)
    ensures DaysBounded(HistoryOf(Books(charges, 1), id), quota)
  {
    BooksSingle(charges, id, quota);
    var h := HistoryOf(Books(charges, 1), id);
    SpacedBounded(h, 1);
    forall day ensures InDay(h, day) <= quota { DayHoldsMinutes(h, day); }
  }

  lemma Disorder(id: string, quota: nat, limit: nat) returns (charges: seq<Charge>)
    requires limit > 0 && quota > 0 && !(limit == 1 && quota >= MINUTES)
    ensures QuotaIs(charges, id, quota)
    ensures InMinute(HistoryOf(Books(charges, limit), id), 0) > limit
    ensures InDay(HistoryOf(Books(charges, limit), id), 0) > quota
  {
    if limit == 1 {
      var b: Book;
      charges, b := Rollback(id, quota);
    } else {
      var h: seq<int>;
      charges, h := Zigzag(id, quota, limit + quota, limit);
    }
  }
}
