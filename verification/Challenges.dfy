/** Wallet-challenge issue and consumption: two counting windows over one SQL table whose
    expired rows are deleted on the way. Transactions run one after the other, in any
    order and with any clock readings. */
module Challenges {
  import opened Text
  import opened ClaimIndex
  import SlidingWindow

  const MINUTE: int := SlidingWindow.MINUTE
  const DAY: int := SlidingWindow.DAY

  datatype Challenge = Challenge(id: nat, nonce: string, wallet: string, client: string,
                                 issuedAt: int, expiresAt: int, consumedAt: Option<int>)

  /** What rate limiting sees of a challenge. */
  datatype Stamp = Stamp(client: string, wallet: string, issuedAt: int, expiresAt: int)

  datatype Dimension = ByClient | ByWallet

  datatype Outcome = Issued | ClientLimited | WalletLimited | Conflict

  datatype Limits = Limits(client: nat, wallet: nat)

  function Limit(l: Limits, d: Dimension): nat { if d.ByClient? then l.client else l.wallet }

  function StampOf(c: Challenge): Stamp { Stamp(c.client, Lower(c.wallet), c.issuedAt, c.expiresAt) }

  function Stamps(rows: seq<Challenge>): seq<Stamp> {
    seq(|rows|, i requires 0 <= i < |rows| => StampOf(rows[i]))
  }

  function Key(s: Stamp, d: Dimension): string { if d.ByClient? then s.client else s.wallet }

  /** `COUNT(*) ... WHERE issued_at >= since` for one client or wallet. */
  function CountSince(s: seq<Stamp>, d: Dimension, key: string, since: int): nat {
    if s == [] then 0
    else
      var last := s[|s| - 1];
      CountSince(s[..|s| - 1], d, key, since) + if Key(last, d) == key && last.issuedAt >= since then 1 else 0
  }

  /** How many challenges of one client or wallet were issued in a closed minute. */
  function CountMinute(s: seq<Stamp>, d: Dimension, key: string, from: int): nat {
    if s == [] then 0
    else
      var last := s[|s| - 1];
      CountMinute(s[..|s| - 1], d, key, from) + if Key(last, d) == key && from <= last.issuedAt <= from + MINUTE then 1 else 0
  }

  /** What a deletion of everything expired before `bound` leaves. */
  function Kept(s: seq<Stamp>, bound: int): seq<Stamp> {
    if s == [] then []
    else
      var last := s[|s| - 1];
      Kept(s[..|s| - 1], bound) + if last.expiresAt >= bound then [last] else []
  }

  function Delete(rows: seq<Challenge>, bound: int): seq<Challenge> {
    if rows == [] then []
    else
      var last := rows[|rows| - 1];
      Delete(rows[..|rows| - 1], bound) + if last.expiresAt >= bound then [last] else []
  }

  lemma {:induction false} DeleteKeeps(rows: seq<Challenge>, bound: int)
    ensures Stamps(Delete(rows, bound)) == Kept(Stamps(rows), bound)
    ensures forall c :: c in Delete(rows, bound) ==> c in rows
  {
    if rows != [] {
      var n := |rows| - 1;
      DeleteKeeps(rows[..n], bound);
      assert Stamps(rows)[..n] == Stamps(rows[..n]);
    }
  }

  /** A deletion removes exactly what expired before its bound. */
  lemma {:induction false} DeleteIff(rows: seq<Challenge>, bound: int, c: Challenge)
    ensures c in Delete(rows, bound) <==> c in rows && c.expiresAt >= bound
  {
    if rows != [] {
      var n := |rows| - 1;
      DeleteIff(rows[..n], bound, c);
      assert rows == rows[..n] + [rows[n]];
    }
  }

  lemma KeptLast(s: seq<Stamp>, bound: int)
    requires s != []
    ensures var n, kept := |s| - 1, Kept(s, bound);
            if s[n].expiresAt >= bound then kept != [] && kept[|kept| - 1] == s[n] && kept[..|kept| - 1] == Kept(s[..n], bound)
            else kept == Kept(s[..n], bound)
  {
  }

  lemma {:induction false} KeptTwice(s: seq<Stamp>, a: int, b: int)
    ensures Kept(Kept(s, a), b) == Kept(s, if a >= b then a else b)
  {
    if s != [] {
      var n := |s| - 1;
      KeptTwice(s[..n], a, b);
      KeptLast(s, a);
    }
  }

  // --------------------------------------------------------------- runs of requests

  /** A primary-key or nonce collision. */
  predicate Taken(rows: seq<Challenge>, c: Challenge) {
    exists i | 0 <= i < |rows| :: rows[i].id == c.id || rows[i].nonce == c.nonce
  }

  /** The three refusals of `issue`, in order; none of them leaves a trace. */
  function Verdict(rows: seq<Challenge>, c: Challenge, l: Limits): Outcome {
    if CountSince(Stamps(rows), ByClient, c.client, c.issuedAt - MINUTE) >= l.client then ClientLimited
    else if CountSince(Stamps(rows), ByWallet, Lower(c.wallet), c.issuedAt - MINUTE) >= l.wallet then WalletLimited
    else if c.issuedAt >= c.expiresAt || Taken(Delete(rows, c.issuedAt - DAY), c) then Conflict
    else Issued
  }

  /** The rows of one client or wallet issued in the minute before a request, or later. */
  ghost function RecentRows(rows: seq<Challenge>, d: Dimension, c: Challenge): set<nat> {
    set i: nat | i < |rows| && rows[i].issuedAt >= c.issuedAt - 60_000_000
                 && if d.ByClient? then rows[i].client == c.client else Lower(rows[i].wallet) == Lower(c.wallet)
  }

  lemma RecentOfPrefix(rows: seq<Challenge>, n: nat, d: Dimension, c: Challenge)
    requires |rows| == n + 1
    ensures RecentRows(rows, d, c) == RecentRows(rows[..n], d, c) + if n in RecentRows(rows, d, c) then {n} else {}
    ensures n !in RecentRows(rows[..n], d, c)
  {
    assert forall i: nat :: i < n ==> (i in RecentRows(rows[..n], d, c) <==> i in RecentRows(rows, d, c));
  }

  lemma CountPrefix(rows: seq<Challenge>, n: nat, d: Dimension, key: string, since: int)
    requires |rows| == n + 1
    ensures CountSince(Stamps(rows), d, key, since)
            == CountSince(Stamps(rows[..n]), d, key, since)
               + if Key(StampOf(rows[n]), d) == key && rows[n].issuedAt >= since then 1 else 0
  {
    assert Stamps(rows)[..n] == Stamps(rows[..n]);
  }

  lemma {:induction false} RecentCounted(rows: seq<Challenge>, d: Dimension, c: Challenge)
    ensures CountSince(Stamps(rows), d, Key(StampOf(c), d), c.issuedAt - MINUTE) == |RecentRows(rows, d, c)|
  {
    if rows == [] {
      assert RecentRows(rows, d, c) == {};
    } else {
      var n := |rows| - 1;
      RecentCounted(rows[..n], d, c);
      RecentOfPrefix(rows, n, d, c);
      CountPrefix(rows, n, d, Key(StampOf(c), d), c.issuedAt - MINUTE);
    }
  }

  /** Which answer a request gets, in terms of the rows it finds. */
  lemma VerdictIff(rows: seq<Challenge>, c: Challenge, l: Limits)
    ensures Verdict(rows, c, l)
         == if |RecentRows(rows, ByClient, c)| >= l.client then ClientLimited
            else if |RecentRows(rows, ByWallet, c)| >= l.wallet then WalletLimited
            else if c.issuedAt >= c.expiresAt
                    || exists r :: r in rows && r.expiresAt >= c.issuedAt - 86_400_000_000
                                   && (r.id == c.id || r.nonce == c.nonce)
            then Conflict else Issued
  {
    RecentCounted(rows, ByClient, c);
    RecentCounted(rows, ByWallet, c);
    var left := Delete(rows, c.issuedAt - DAY);
    if Taken(left, c) {
      var i :| 0 <= i < |left| && (left[i].id == c.id || left[i].nonce == c.nonce);
      DeleteIff(rows, c.issuedAt - DAY, left[i]);
    }
    if r :| r in rows && r.expiresAt >= c.issuedAt - DAY && (r.id == c.id || r.nonce == c.nonce) {
      DeleteIff(rows, c.issuedAt - DAY, r);
    }
  }

  function After(rows: seq<Challenge>, c: Challenge, l: Limits): seq<Challenge> {
    if Verdict(rows, c, l) == Issued then Delete(rows, c.issuedAt - DAY) + [c] else rows
  }

  /** The rows after a run of requests, as if none had been consumed. */
  function Table(requests: seq<Challenge>, l: Limits): seq<Challenge> {
    if requests == [] then []
    else After(Table(requests[..|requests| - 1], l), requests[|requests| - 1], l)
  }

  /** What the run issued. */
  function IssuedBy(requests: seq<Challenge>, l: Limits): seq<Stamp> {
    if requests == [] then []
    else
      var init, last := requests[..|requests| - 1], requests[|requests| - 1];
      IssuedBy(init, l) + if Verdict(Table(init, l), last, l) == Issued then [StampOf(last)] else []
  }

  lemma RunStep(init: seq<Challenge>, c: Challenge, l: Limits)
    ensures Table(init + [c], l) == After(Table(init, l), c, l)
    ensures IssuedBy(init + [c], l)
            == IssuedBy(init, l) + if Verdict(Table(init, l), c, l) == Issued then [StampOf(c)] else []
  {
    assert (init + [c])[..|init|] == init;
  }

  lemma KeptStep(s: seq<Stamp>, r: Stamp, bound: int)
    ensures Kept(s + [r], bound) == Kept(s, bound) + if r.expiresAt >= bound then [r] else []
  {
    assert (s + [r])[..|s|] == s;
  }

  function Other(d: Dimension): Dimension { if d.ByClient? then ByWallet else ByClient }

  /** What `issue` checks, in either order of the dimensions. */
  lemma Admits(rows: seq<Challenge>, c: Challenge, l: Limits, d: Dimension)
    requires CountSince(Stamps(rows), d, Key(StampOf(c), d), c.issuedAt - MINUTE) < Limit(l, d)
    requires CountSince(Stamps(rows), Other(d), Key(StampOf(c), Other(d)), c.issuedAt - MINUTE) < Limit(l, Other(d))
    requires c.issuedAt < c.expiresAt && !Taken(Delete(rows, c.issuedAt - DAY), c)
    ensures Verdict(rows, c, l) == Issued && After(rows, c, l) == Delete(rows, c.issuedAt - DAY) + [c]
  {
  }

  /** Requests as the only caller makes them: a fixed lifetime, fresh ids and nonces. */
  ghost predicate Requests(requests: seq<Challenge>, ttl: int) {
    && (forall i :: 0 <= i < |requests| ==>
          requests[i].expiresAt == requests[i].issuedAt + ttl && requests[i].consumedAt == None)
    && forall i, j :: 0 <= i < j < |requests| ==>
         requests[i].id != requests[j].id && requests[i].nonce != requests[j].nonce
  }

  ghost predicate Outlive(s: seq<Stamp>, ttl: int) {
    forall i :: 0 <= i < |s| ==> s[i].expiresAt >= s[i].issuedAt + ttl
  }

  lemma {:induction false} IssuedOutlive(requests: seq<Challenge>, l: Limits, ttl: int)
    requires forall i :: 0 <= i < |requests| ==> requests[i].expiresAt >= requests[i].issuedAt + ttl
    ensures Outlive(IssuedBy(requests, l), ttl)
  {
    if requests != [] { IssuedOutlive(requests[..|requests| - 1], l, ttl); }
  }

  /** No challenge was issued more than `slack` behind an earlier one. */
  ghost predicate StepsBack(s: seq<Stamp>, slack: int) {
    forall i, j :: 0 <= i < j < |s| ==> s[i].issuedAt - s[j].issuedAt <= slack
  }

  /** The latest issue time. */
  ghost predicate IsHorizon(s: seq<Stamp>, h: int) {
    (forall i :: 0 <= i < |s| ==> s[i].issuedAt <= h) && (s != [] ==> exists i :: 0 <= i < |s| && s[i].issuedAt == h)
  }

  // -------------------------------------------------------------- skewed clocks

  /** How far a clock may step back and still count right: a day less the window, and
      the lifetime, because rows are deleted a day after they expire. */
  function Slack(ttl: int): int { DAY - MINUTE + ttl }

  /** No deletion so far can have removed a challenge a new window still counts. */
  lemma {:induction false} DeletedDoNotMatter(s: seq<Stamp>, d: Dimension, key: string, horizon: int, t: int, from: int, ttl: int)
    requires Outlive(s, ttl) && horizon - t <= Slack(ttl) && from <= t <= from + MINUTE
    ensures CountMinute(s, d, key, from) <= CountSince(Kept(s, horizon - DAY), d, key, t - MINUTE)
  {
    if s != [] {
      var n := |s| - 1;
      DeletedDoNotMatter(s[..n], d, key, horizon, t, from, ttl);
      KeptLast(s, horizon - DAY);
    }
  }

  /** Every closed minute of issue times holds at most `limit` challenges of each key. */
  ghost predicate Bounded(s: seq<Stamp>, d: Dimension, limit: nat) {
    forall key, from :: CountMinute(s, d, key, from) <= limit
  }

  lemma BoundedAppends(s: seq<Stamp>, d: Dimension, limit: nat, horizon: int, r: Stamp, ttl: int)
    requires Bounded(s, d, limit) && Outlive(s, ttl) && horizon - r.issuedAt <= Slack(ttl)
    requires CountSince(Kept(s, horizon - DAY), d, Key(r, d), r.issuedAt - MINUTE) < limit
    ensures Bounded(s + [r], d, limit)
  {
    forall key, from ensures CountMinute(s + [r], d, key, from) <= limit {
      assert (s + [r])[..|s|] == s;
      assert CountMinute(s, d, key, from) <= limit;
      if Key(r, d) == key && from <= r.issuedAt <= from + MINUTE {
        DeletedDoNotMatter(s, d, key, horizon, r.issuedAt, from, ttl);
      }
    }
  }

  /** The table lacks only what no count needs, and both bounds hold. */
  ghost predicate Counted(rows: seq<Challenge>, s: seq<Stamp>, h: int, l: Limits) {
    && Stamps(rows) == Kept(s, h - DAY)
    && Bounded(s, ByClient, l.client) && Bounded(s, ByWallet, l.wallet)
  }

  lemma IssueKeeps(rows: seq<Challenge>, s: seq<Stamp>, h: int, c: Challenge, ttl: int)
    requires Stamps(rows) == Kept(s, h - DAY)
    requires 0 <= ttl && c.expiresAt >= c.issuedAt + ttl && h - c.issuedAt <= Slack(ttl)
    ensures Stamps(Delete(rows, c.issuedAt - DAY) + [c])
            == Kept(s + [StampOf(c)], (if h < c.issuedAt then c.issuedAt else h) - DAY)
  {
    var left, horizon := Delete(rows, c.issuedAt - DAY), if h < c.issuedAt then c.issuedAt else h;
    DeleteKeeps(rows, c.issuedAt - DAY);
    KeptTwice(s, h - DAY, c.issuedAt - DAY);
    KeptStep(s, StampOf(c), horizon - DAY);
    StampsGrow(left, c);
  }

  lemma IssueBounded(rows: seq<Challenge>, s: seq<Stamp>, h: int, c: Challenge, l: Limits, ttl: int)
    requires Stamps(rows) == Kept(s, h - DAY) && Outlive(s, ttl) && h - c.issuedAt <= Slack(ttl)
    requires Bounded(s, ByClient, l.client) && Bounded(s, ByWallet, l.wallet) && Verdict(rows, c, l) == Issued
    ensures Bounded(s + [StampOf(c)], ByClient, l.client) && Bounded(s + [StampOf(c)], ByWallet, l.wallet)
  {
    BoundedAppends(s, ByClient, l.client, h, StampOf(c), ttl);
    BoundedAppends(s, ByWallet, l.wallet, h, StampOf(c), ttl);
  }

  lemma IssueCounted(rows: seq<Challenge>, s: seq<Stamp>, h: int, c: Challenge, l: Limits, ttl: int)
    requires Counted(rows, s, h, l) && Outlive(s, ttl) && Verdict(rows, c, l) == Issued
    requires 0 <= ttl && c.expiresAt >= c.issuedAt + ttl && h - c.issuedAt <= Slack(ttl)
    ensures Counted(Delete(rows, c.issuedAt - DAY) + [c], s + [StampOf(c)], if h < c.issuedAt then c.issuedAt else h, l)
  {
    IssueBounded(rows, s, h, c, l, ttl);
    IssueKeeps(rows, s, h, c, ttl);
  }

  lemma HorizonStep(s: seq<Stamp>, h: int, r: Stamp, slack: int)
    requires IsHorizon(s, h) && StepsBack(s + [r], slack) && (s == [] ==> h == r.issuedAt) && 0 <= slack
    ensures h - r.issuedAt <= slack && IsHorizon(s + [r], if h < r.issuedAt then r.issuedAt else h)
  {
    var longer := s + [r];
    assert longer[|s|] == r;
    if s != [] {
      var i :| 0 <= i < |s| && s[i].issuedAt == h;
      assert longer[i].issuedAt - longer[|s|].issuedAt <= slack;
      assert longer[i].issuedAt == h;
    }
  }

  lemma RequestCounted(rows: seq<Challenge>, s: seq<Stamp>, h: int, c: Challenge, l: Limits, ttl: int)
      returns (later: int)
    requires Counted(rows, s, h, l) && IsHorizon(s, h) && (s == [] ==> h == c.issuedAt)
    requires Outlive(s, ttl) && 0 <= ttl && c.expiresAt >= c.issuedAt + ttl
    requires Verdict(rows, c, l) == Issued ==> StepsBack(s + [StampOf(c)], Slack(ttl))
    ensures var s' := s + if Verdict(rows, c, l) == Issued then [StampOf(c)] else [];
            Counted(After(rows, c, l), s', later, l) && IsHorizon(s', later)
  {
    if Verdict(rows, c, l) == Issued {
      HorizonStep(s, h, StampOf(c), Slack(ttl));
      IssueCounted(rows, s, h, c, l, ttl);
      later := if h < c.issuedAt then c.issuedAt else h;
    } else {
      assert s + [] == s;
      later := h;
    }
  }

  /** Whatever requests come in whatever order of clocks: within the slack every closed
      minute of issue times holds at most the limit per client and per wallet. */
  lemma {:induction false} WithinSlackCounted(requests: seq<Challenge>, l: Limits, ttl: int) returns (h: int)
    requires 0 <= ttl && StepsBack(IssuedBy(requests, l), Slack(ttl))
    requires forall i :: 0 <= i < |requests| ==> requests[i].expiresAt >= requests[i].issuedAt + ttl
    ensures Counted(Table(requests, l), IssuedBy(requests, l), h, l) && IsHorizon(IssuedBy(requests, l), h)
  {
    if requests == [] {
      h := 0;
    } else {
      var init, c := requests[..|requests| - 1], requests[|requests| - 1];
      assert requests == init + [c];
      RunStep(init, c, l);
      StepsBackPrefix(IssuedBy(init, l), IssuedBy(requests, l), Slack(ttl));
      h := WithinSlackCounted(init, l, ttl);
      IssuedOutlive(init, l, ttl);
      h := RequestCounted(Table(init, l), IssuedBy(init, l), if IssuedBy(init, l) == [] then c.issuedAt else h, c, l, ttl);
    }
  }

  lemma StepsBackPrefix(s: seq<Stamp>, longer: seq<Stamp>, slack: int)
    requires s <= longer && StepsBack(longer, slack)
    ensures StepsBack(s, slack)
  {
  }

  // ------------------------------------------------------------- beyond the slack

  /** Request `i` of a crowd that shares its client, or its wallet. */
  function Guest(d: Dimension, ttl: nat, i: nat, at: int): Challenge {
    Challenge(i, Decimal(i), if d.ByClient? then Decimal(i) else "w", if d.ByClient? then "c" else Decimal(i),
              at, at + ttl, None)
  }

  function Crowd(d: Dimension, ttl: nat, n: nat): seq<Challenge> {
    seq(n, i requires 0 <= i < n => Guest(d, ttl, i, 0))
  }

  function Shared(d: Dimension): string { if d.ByClient? then "c" else "w" }

  /** Someone else, whose clock is far enough ahead to delete the whole crowd. */
  function Stranger(ttl: nat, n: nat): Challenge {
    Challenge(n, Decimal(n), "x", "y", DAY + ttl + 1, DAY + ttl + 1 + ttl, None)
  }

  lemma LowerDecimal(n: nat)
    ensures Lower(Decimal(n)) == Decimal(n)
  {
    var s := Decimal(n);
    assert forall i :: 0 <= i < |s| ==> LowerChar(s[i]) == s[i];
  }

  lemma DecimalsDiffer(m: nat, n: nat)
    requires m != n
    ensures Decimal(m) != Decimal(n)
  {
    NumeralOfDecimal(m);
    NumeralOfDecimal(n);
  }

  /** No member of the crowd collides with the next request. */
  lemma CrowdKeys(d: Dimension, ttl: nat, n: nat, at: int)
    ensures !Taken(Crowd(d, ttl, n), Guest(d, ttl, n, at))
    ensures forall i :: 0 <= i < n ==>
              Key(StampOf(Guest(d, ttl, i, 0)), d) == Shared(d)
              && Key(StampOf(Guest(d, ttl, i, 0)), Other(d)) == Decimal(i) != Decimal(n)
  {
    forall i | 0 <= i < n
      ensures Crowd(d, ttl, n)[i].id != n && Crowd(d, ttl, n)[i].nonce != Decimal(n)
      ensures Key(StampOf(Guest(d, ttl, i, 0)), d) == Shared(d)
      ensures Key(StampOf(Guest(d, ttl, i, 0)), Other(d)) == Decimal(i) != Decimal(n)
    {
      DecimalsDiffer(i, n);
      LowerDecimal(i);
      assert Lower("w") == "w";
    }
  }

  /** The counts over a crowd, for its own key and for a newcomer's. */
  lemma {:induction false} CrowdCounts(d: Dimension, ttl: nat, n: nat, newcomer: string)
    requires forall i :: 0 <= i < n ==> Key(StampOf(Guest(d, ttl, i, 0)), d) == Shared(d)
    requires forall i :: 0 <= i < n ==> Key(StampOf(Guest(d, ttl, i, 0)), Other(d)) != newcomer
    ensures CountSince(Stamps(Crowd(d, ttl, n)), d, Shared(d), -MINUTE) == n
    ensures CountSince(Stamps(Crowd(d, ttl, n)), Other(d), newcomer, -MINUTE) == 0
    ensures CountMinute(Stamps(Crowd(d, ttl, n)), d, Shared(d), 0) == n
  {
    if n > 0 {
      CrowdCounts(d, ttl, n - 1, newcomer);
      assert Stamps(Crowd(d, ttl, n))[..n - 1] == Stamps(Crowd(d, ttl, n - 1));
      assert Stamps(Crowd(d, ttl, n))[n - 1] == StampOf(Guest(d, ttl, n - 1, 0));
    }
  }

  lemma {:induction false} NothingOld(rows: seq<Challenge>, bound: int)
    requires forall i :: 0 <= i < |rows| ==> rows[i].expiresAt >= bound
    ensures Delete(rows, bound) == rows
  {
    if rows != [] { NothingOld(rows[..|rows| - 1], bound); }
  }

  lemma {:induction false} AllOld(rows: seq<Challenge>, bound: int)
    requires forall i :: 0 <= i < |rows| ==> rows[i].expiresAt < bound
    ensures Delete(rows, bound) == []
  {
    if rows != [] { AllOld(rows[..|rows| - 1], bound); }
  }

  /** `issue` with nothing to delete. */
  lemma AdmitsAll(rows: seq<Challenge>, c: Challenge, l: Limits, d: Dimension, key: string, other: string)
    requires Key(StampOf(c), d) == key && Key(StampOf(c), Other(d)) == other
    requires CountSince(Stamps(rows), d, key, c.issuedAt - MINUTE) < Limit(l, d)
    requires CountSince(Stamps(rows), Other(d), other, c.issuedAt - MINUTE) < Limit(l, Other(d))
    requires c.issuedAt < c.expiresAt && !Taken(rows, c)
    requires forall i :: 0 <= i < |rows| ==> rows[i].expiresAt >= c.issuedAt - DAY
    ensures Verdict(rows, c, l) == Issued && After(rows, c, l) == rows + [c]
  {
    NothingOld(rows, c.issuedAt - DAY);
    Admits(rows, c, l, d);
  }

  lemma GuestIssued(d: Dimension, ttl: nat, n: nat, l: Limits)
    requires ttl > 0 && l.client > 0 && l.wallet > 0 && n < Limit(l, d)
    ensures Verdict(Crowd(d, ttl, n), Guest(d, ttl, n, 0), l) == Issued
    ensures After(Crowd(d, ttl, n), Guest(d, ttl, n, 0), l) == Crowd(d, ttl, n) + [Guest(d, ttl, n, 0)]
  {
    CrowdKeys(d, ttl, n, 0);
    CrowdCounts(d, ttl, n, Decimal(n));
    GuestKeys(d, ttl, n, 0);
    AdmitsAll(Crowd(d, ttl, n), Guest(d, ttl, n, 0), l, d, Shared(d), Decimal(n));
  }

  lemma GuestKeys(d: Dimension, ttl: nat, n: nat, at: int)
    ensures Key(StampOf(Guest(d, ttl, n, at)), d) == Shared(d)
    ensures Key(StampOf(Guest(d, ttl, n, at)), Other(d)) == Decimal(n)
  {
    LowerDecimal(n);
    assert Lower("w") == "w";
  }

  lemma CrowdGrows(d: Dimension, ttl: nat, n: nat)
    ensures Crowd(d, ttl, n + 1) == Crowd(d, ttl, n) + [Guest(d, ttl, n, 0)]
    ensures Stamps(Crowd(d, ttl, n + 1)) == Stamps(Crowd(d, ttl, n)) + [StampOf(Guest(d, ttl, n, 0))]
  {
    StampsGrow(Crowd(d, ttl, n), Guest(d, ttl, n, 0));
  }

  lemma StampsGrow(rows: seq<Challenge>, c: Challenge)
    ensures Stamps(rows + [c]) == Stamps(rows) + [StampOf(c)]
  {
  }

  lemma IssuedNext(run: seq<Challenge>, c: Challenge, l: Limits, rows: seq<Challenge>, s: seq<Stamp>)
    requires Table(run, l) == rows && IssuedBy(run, l) == s && Verdict(rows, c, l) == Issued
    ensures Table(run + [c], l) == After(rows, c, l) && IssuedBy(run + [c], l) == s + [StampOf(c)]
  {
    RunStep(run, c, l);
  }

  /** The whole crowd is admitted, up to the limit. */
  lemma {:induction false} CrowdIssued(d: Dimension, ttl: nat, n: nat, l: Limits)
    requires ttl > 0 && l.client > 0 && l.wallet > 0 && n <= Limit(l, d)
    ensures Table(Crowd(d, ttl, n), l) == Crowd(d, ttl, n)
    ensures IssuedBy(Crowd(d, ttl, n), l) == Stamps(Crowd(d, ttl, n))
  {
    if n == 0 {
      assert Crowd(d, ttl, 0) == [];
    } else {
      CrowdIssued(d, ttl, n - 1, l);
      GuestIssued(d, ttl, n - 1, l);
      IssuedNext(Crowd(d, ttl, n - 1), Guest(d, ttl, n - 1, 0), l, Crowd(d, ttl, n - 1), Stamps(Crowd(d, ttl, n - 1)));
      CrowdGrows(d, ttl, n - 1);
    }
  }

  /** A crowd up to the limit, a stranger whose clock is ahead, and one more of the crowd
      at the other end of its minute. */
  function Overrun(d: Dimension, ttl: nat, n: nat): seq<Challenge> {
    Crowd(d, ttl, n) + [Stranger(ttl, n)] + [Guest(d, ttl, n + 1, MINUTE)]
  }

  lemma StrangerIssued(d: Dimension, ttl: nat, n: nat, l: Limits)
    requires ttl > 0 && l.client > 0 && l.wallet > 0 && n == Limit(l, d)
    ensures Table(Crowd(d, ttl, n) + [Stranger(ttl, n)], l) == [Stranger(ttl, n)]
    ensures IssuedBy(Crowd(d, ttl, n) + [Stranger(ttl, n)], l)
            == Stamps(Crowd(d, ttl, n)) + [StampOf(Stranger(ttl, n))]
  {
    CrowdIssued(d, ttl, n, l);
    RunStep(Crowd(d, ttl, n), Stranger(ttl, n), l);
    StrangerAdmitted(Crowd(d, ttl, n), ttl, n, l);
  }

  lemma StrangerAdmitted(rows: seq<Challenge>, ttl: nat, n: nat, l: Limits)
    requires ttl > 0 && l.client > 0 && l.wallet > 0
    requires forall i :: 0 <= i < |rows| ==> rows[i].issuedAt == 0 && rows[i].expiresAt == ttl
    ensures Verdict(rows, Stranger(ttl, n), l) == Issued && After(rows, Stranger(ttl, n), l) == [Stranger(ttl, n)]
  {
    var x := Stranger(ttl, n);
    AllOld(rows, x.issuedAt - DAY);
    NoneSince(Stamps(rows), ByClient, x.client, x.issuedAt - MINUTE);
    NoneSince(Stamps(rows), ByWallet, Lower(x.wallet), x.issuedAt - MINUTE);
    Admits(rows, x, l, ByClient);
    assert [] + [x] == [x];
  }

  lemma {:induction false} NoneSince(s: seq<Stamp>, d: Dimension, key: string, since: int)
    requires forall i :: 0 <= i < |s| ==> s[i].issuedAt < since || Key(s[i], d) != key
    ensures CountSince(s, d, key, since) == 0
  {
    if s != [] { NoneSince(s[..|s| - 1], d, key, since); }
  }

  lemma LastIssued(d: Dimension, ttl: nat, n: nat, l: Limits)
    requires ttl > 0 && l.client > 0 && l.wallet > 0
    ensures Verdict([Stranger(ttl, n)], Guest(d, ttl, n + 1, MINUTE), l) == Issued
  {
    var x, g := Stranger(ttl, n), Guest(d, ttl, n + 1, MINUTE);
    GuestKeys(d, ttl, n + 1, MINUTE);
    OwnKeys(d, ttl, n);
    OneOfAnother(x, d, Shared(d), g.issuedAt - MINUTE);
    OneOfAnother(x, Other(d), Decimal(n + 1), g.issuedAt - MINUTE);
    DecimalsDiffer(n, n + 1);
    AdmitsAll([x], g, l, d, Shared(d), Decimal(n + 1));
  }

  lemma OneOfAnother(c: Challenge, d: Dimension, key: string, since: int)
    requires Key(StampOf(c), d) != key
    ensures CountSince(Stamps([c]), d, key, since) == 0
  {
    NoneSince(Stamps([c]), d, key, since);
  }

  lemma OwnKeys(d: Dimension, ttl: nat, n: nat)
    ensures Key(StampOf(Stranger(ttl, n)), d) != Shared(d)
    ensures Key(StampOf(Stranger(ttl, n)), Other(d)) != Decimal(n + 1)
  {
    assert AllDigits(Decimal(n + 1)) && IsDigit(Decimal(n + 1)[0]);
    assert Lower("x")[0] == 'x';
  }

  /** One tick beyond the slack, for every limit and every lifetime: the minute from 0
      to `MINUTE` ends up with one challenge more than the limit. */
  lemma BeyondSlackOverruns(d: Dimension, ttl: nat, l: Limits)
    requires ttl > 0 && l.client > 0 && l.wallet > 0
    ensures var requests := Overrun(d, ttl, Limit(l, d));
            && Requests(requests, ttl)
            && StepsBack(IssuedBy(requests, l), Slack(ttl) + 1)
            && CountMinute(IssuedBy(requests, l), d, Shared(d), 0) == Limit(l, d) + 1
  {
    var n := Limit(l, d);
    var before, last := Crowd(d, ttl, n) + [Stranger(ttl, n)], Guest(d, ttl, n + 1, MINUTE);
    StrangerIssued(d, ttl, n, l);
    LastIssued(d, ttl, n, l);
    RunStep(before, last, l);
    OverrunRequests(d, ttl, n);
    OverrunCount(d, ttl, n);
    OverrunSteps(d, ttl, n);
  }

  lemma OverrunSteps(d: Dimension, ttl: nat, n: nat)
    ensures StepsBack(Stamps(Crowd(d, ttl, n)) + [StampOf(Stranger(ttl, n))] + [StampOf(Guest(d, ttl, n + 1, MINUTE))],
                      Slack(ttl) + 1)
  {
    assert forall i :: 0 <= i < n ==> Stamps(Crowd(d, ttl, n))[i].issuedAt == 0;
  }

  lemma OverrunRequests(d: Dimension, ttl: nat, n: nat)
    ensures Requests(Overrun(d, ttl, n), ttl)
  {
    var r := Overrun(d, ttl, n);
    assert forall i :: 0 <= i < |r| ==> r[i].id == i && r[i].expiresAt == r[i].issuedAt + ttl && r[i].consumedAt == None;
    forall i, j | 0 <= i < j < |r| ensures r[i].id != r[j].id && r[i].nonce != r[j].nonce {
      assert r[i].nonce == Decimal(i) && r[j].nonce == Decimal(j);
      DecimalsDiffer(i, j);
    }
  }

  lemma OverrunCount(d: Dimension, ttl: nat, n: nat)
    ensures CountMinute(Stamps(Crowd(d, ttl, n)) + [StampOf(Stranger(ttl, n))] + [StampOf(Guest(d, ttl, n + 1, MINUTE))],
                        d, Shared(d), 0) == n + 1
  {
    var crowd, x, g := Stamps(Crowd(d, ttl, n)), StampOf(Stranger(ttl, n)), StampOf(Guest(d, ttl, n + 1, MINUTE));
    CrowdKeys(d, ttl, n, 0);
    CrowdCounts(d, ttl, n, Decimal(n));
    GuestKeys(d, ttl, n + 1, MINUTE);
    MinuteStep(crowd, x, d, Shared(d), 0);
    MinuteStep(crowd + [x], g, d, Shared(d), 0);
  }

  lemma MinuteStep(s: seq<Stamp>, r: Stamp, d: Dimension, key: string, from: int)
    ensures CountMinute(s + [r], d, key, from)
            == CountMinute(s, d, key, from) + if Key(r, d) == key && from <= r.issuedAt <= from + MINUTE then 1 else 0
  {
    assert (s + [r])[..|s|] == s;
  }

  /** The exact tolerance, for every limit and lifetime and for either kind of key. */
  lemma BoundedIff(l: Limits, ttl: nat, slack: int, d: Dimension)
    requires ttl > 0 && l.client > 0 && l.wallet > 0
    ensures (forall requests :: Requests(requests, ttl) && StepsBack(IssuedBy(requests, l), slack)
               ==> Bounded(IssuedBy(requests, l), d, Limit(l, d)))
            <==> slack <= Slack(ttl)
  {
    if slack <= Slack(ttl) {
      forall requests | Requests(requests, ttl) && StepsBack(IssuedBy(requests, l), slack)
        ensures Bounded(IssuedBy(requests, l), d, Limit(l, d))
      {
        var _ := WithinSlackCounted(requests, l, ttl);
      }
    } else {
      var requests := Overrun(d, ttl, Limit(l, d));
      BeyondSlackOverruns(d, ttl, l);
      assert StepsBack(IssuedBy(requests, l), slack);
      assert CountMinute(IssuedBy(requests, l), d, Shared(d), 0) > Limit(l, d);
    }
  }

  // ------------------------------------------------------------------ the repository

  /** The rows as they were issued. */
  function Erase(rows: seq<Challenge>): seq<Challenge> {
    seq(|rows|, i requires 0 <= i < |rows| => rows[i].(consumedAt := None))
  }

  lemma {:induction false} DeleteErases(rows: seq<Challenge>, bound: int)
    ensures Erase(Delete(rows, bound)) == Delete(Erase(rows), bound)
  {
    if rows != [] {
      var n := |rows| - 1;
      DeleteErases(rows[..n], bound);
      assert Erase(rows)[..n] == Erase(rows[..n]);
    }
  }

  /** Consumption makes no difference to `issue`. */
  lemma VerdictErases(rows: seq<Challenge>, c: Challenge, l: Limits)
    ensures Verdict(Erase(rows), c, l) == Verdict(rows, c, l)
  {
    assert Stamps(Erase(rows)) == Stamps(rows);
    DeleteErases(rows, c.issuedAt - DAY);
    TakenErases(Delete(rows, c.issuedAt - DAY), c);
  }

  lemma TakenErases(rows: seq<Challenge>, c: Challenge)
    ensures Taken(Erase(rows), c) <==> Taken(rows, c)
  {
    assert forall i :: 0 <= i < |rows| ==> Erase(rows)[i].id == rows[i].id && Erase(rows)[i].nonce == rows[i].nonce;
    if Taken(rows, c) {
      var i :| 0 <= i < |rows| && (rows[i].id == c.id || rows[i].nonce == c.nonce);
      assert Erase(rows)[i].id == c.id || Erase(rows)[i].nonce == c.nonce;
    }
  }

  lemma AfterErases(rows: seq<Challenge>, c: Challenge, l: Limits)
    requires c.consumedAt == None
    ensures Erase(After(rows, c, l)) == After(Erase(rows), c, l)
  {
    VerdictErases(rows, c, l);
    DeleteErases(rows, c.issuedAt - DAY);
    var left := Delete(rows, c.issuedAt - DAY);
    assert Erase(left + [c]) == Erase(left) + [c];
  }

  class ClaimantAuthRepository {
    const limits: Limits
    var rows: seq<Challenge>

    /** Every request so far, in transaction order. */
    ghost var requests: seq<Challenge>
    /** Ids ever issued and ever consumed, and whether no id was issued twice. */
    ghost var ids: set<nat>
    ghost var spent: set<nat>
    ghost var unique: bool

    static ghost predicate RowsOk(rows: seq<Challenge>, ids: set<nat>, spent: set<nat>, unique: bool) {
      && (forall i :: 0 <= i < |rows| ==> rows[i].id in ids)
      && (forall i, j :: 0 <= i < j < |rows| ==> rows[i].id != rows[j].id)
      && spent <= ids
      && (unique ==> forall i :: 0 <= i < |rows| && rows[i].id in spent ==> rows[i].consumedAt.Some?)
    }

    ghost predicate Valid()
      reads this
    {
      Erase(rows) == Table(requests, limits) && RowsOk(rows, ids, spent, unique)
    }

    constructor (limits: Limits)
      ensures Valid() && unique && requests == [] && spent == {} && this.limits == limits
    {
      this.limits := limits;
      rows, requests, ids, spent, unique := [], [], {}, {}, true;
    }

    /** With clocks that step back by no more than the slack, every closed minute of
        issue times holds at most the limit per client and per wallet. */
    lemma EveryClosedMinuteBounded(key: string, from: int, ttl: nat)
      requires Valid() && Requests(requests, ttl) && StepsBack(IssuedBy(requests, limits), Slack(ttl))
      ensures CountMinute(IssuedBy(requests, limits), ByClient, key, from) <= limits.client
      ensures CountMinute(IssuedBy(requests, limits), ByWallet, key, from) <= limits.wallet
    {
      var _ := WithinSlackCounted(requests, limits, ttl);
    }

    /** `issue`: count both dimensions, delete the long expired, insert. */
    method Issue(c: Challenge) returns (r: Outcome)
      requires Valid() && c.consumedAt == None
      modifies this
      ensures Valid()
      ensures r == Verdict(old(rows), c, limits) && requests == old(requests) + [c] && spent == old(spent)
      ensures r != Issued ==>
                rows == old(rows) && unique == old(unique) && ids == old(ids)
                && IssuedBy(requests, limits) == IssuedBy(old(requests), limits)
      ensures r == Issued ==>
                rows == Delete(old(rows), c.issuedAt - DAY) + [c]
                && IssuedBy(requests, limits) == IssuedBy(old(requests), limits) + [StampOf(c)]
      ensures r == Issued ==> unique == (old(unique) && c.id !in old(ids)) && ids == old(ids) + {c.id}
    {
      r := Verdict(rows, c, limits);
      if r == Issued {
        Insert(c);
      } else {
        Refuse(c);
      }
    }

    /** The deletion and the insert. */
    method Insert(c: Challenge)
      requires Valid() && c.consumedAt == None && Verdict(rows, c, limits) == Issued
      modifies this
      ensures Valid() && requests == old(requests) + [c] && spent == old(spent)
      ensures rows == Delete(old(rows), c.issuedAt - DAY) + [c]
      ensures IssuedBy(requests, limits) == IssuedBy(old(requests), limits) + [StampOf(c)]
      ensures unique == (old(unique) && c.id !in old(ids)) && ids == old(ids) + {c.id}
    {
      var left := Delete(rows, c.issuedAt - DAY);
      RequestRecorded(c);
      IssuedIsFree(rows, c, limits);
      RowsFresh(c, left);
      Store(left + [c], ids + {c.id}, unique && c.id !in ids, requests + [c]);
    }

    method Store(rows: seq<Challenge>, ghost ids: set<nat>, ghost unique: bool, ghost requests: seq<Challenge>)
      requires Erase(rows) == Table(requests, limits) && RowsOk(rows, ids, spent, unique)
      modifies this
      ensures Valid() && this.rows == rows && this.requests == requests
      ensures this.ids == ids && this.unique == unique && spent == old(spent)
    {
      this.rows := rows;
      this.ids, this.unique, this.requests := ids, unique, requests;
    }

    static lemma IssuedIsFree(rows: seq<Challenge>, c: Challenge, l: Limits)
      requires Verdict(rows, c, l) == Issued
      ensures !Taken(Delete(rows, c.issuedAt - DAY), c)
    {
    }

    /** A refusal leaves no trace but the request itself. */
    ghost method Refuse(c: Challenge)
      requires Valid() && c.consumedAt == None && Verdict(rows, c, limits) != Issued
      modifies this`requests
      ensures Valid() && requests == old(requests) + [c]
      ensures IssuedBy(requests, limits) == IssuedBy(old(requests), limits)
    {
      RequestRecorded(c);
      requests := requests + [c];
    }

    /** The run after one more request, in terms of the actual rows. */
    lemma RequestRecorded(c: Challenge)
      requires Valid() && c.consumedAt == None
      ensures Verdict(rows, c, limits) == Issued ==>
                Erase(Delete(rows, c.issuedAt - DAY) + [c]) == Table(requests + [c], limits)
                && IssuedBy(requests + [c], limits) == IssuedBy(requests, limits) + [StampOf(c)]
      ensures Verdict(rows, c, limits) != Issued ==>
                Erase(rows) == Table(requests + [c], limits)
                && IssuedBy(requests + [c], limits) == IssuedBy(requests, limits)
    {
      RunStep(requests, c, limits);
      VerdictErases(rows, c, limits);
      AfterErases(rows, c, limits);
    }

    lemma RowsFresh(c: Challenge, left: seq<Challenge>)
      requires RowsOk(rows, ids, spent, unique) && left == Delete(rows, c.issuedAt - DAY) && !Taken(left, c)
      ensures RowsOk(left + [c], ids + {c.id}, spent, unique && c.id !in ids)
    {
      DeleteKeeps(rows, c.issuedAt - DAY);
      DeleteDistinct(rows, c.issuedAt - DAY);
      assert forall i :: 0 <= i < |left| ==> left[i] in rows;
    }

    /** `consume`: a compare-and-set on one unexpired row of the recovered wallet. */
    method Consume(id: nat, wallet: string, now: int) returns (ok: bool)
      requires Valid()
      modifies this`rows, this`spent
      ensures Valid()
      ensures ok <==> exists c :: c in old(rows) && c.id == id && Lower(c.wallet) == Lower(wallet)
                                  && c.consumedAt == None && c.issuedAt <= now <= c.expiresAt
      ensures !ok ==> rows == old(rows) && spent == old(spent)
      ensures ok ==> |rows| == |old(rows)| && spent == old(spent) + {id}
      ensures ok ==> forall i :: 0 <= i < |rows| ==>
                rows[i] == if old(rows)[i].id == id then old(rows)[i].(consumedAt := Some(now)) else old(rows)[i]
      ensures ok && unique ==> id !in old(spent)
    {
      for i := 0 to |rows|
        invariant rows == old(rows) && spent == old(spent)
        invariant forall j :: 0 <= j < i ==> !Consumable(rows[j], id, wallet, now)
      {
        if Consumable(rows[i], id, wallet, now) {
          rows := rows[i := rows[i].(consumedAt := Some(now))];
          spent := spent + {id};
          assert Erase(rows) == Erase(old(rows));
          return true;
        }
      }
      return false;
    }
  }

  /** The update's conditions; a consumption before the issue violates a table check. */
  predicate Consumable(c: Challenge, id: nat, wallet: string, now: int) {
    c.id == id && Lower(c.wallet) == Lower(wallet) && c.consumedAt == None && now <= c.expiresAt && c.issuedAt <= now
  }

  lemma {:induction false} DeleteDistinct(rows: seq<Challenge>, bound: int)
    requires forall i, j :: 0 <= i < j < |rows| ==> rows[i].id != rows[j].id
    ensures forall i, j :: 0 <= i < j < |Delete(rows, bound)| ==> Delete(rows, bound)[i].id != Delete(rows, bound)[j].id
  {
    if rows != [] {
      var n := |rows| - 1;
      DeleteDistinct(rows[..n], bound);
      DeleteKeeps(rows[..n], bound);
      forall c | c in Delete(rows[..n], bound) ensures c.id != rows[n].id {
        var i :| 0 <= i < n && rows[..n][i] == c;
        assert rows[i].id != rows[n].id;
      }
    }
  }
}
