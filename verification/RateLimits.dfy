/** The in-process submission boundary: credentials, per-minute deques and daily
    counters. One call runs under the lock at a time; the lock order is the call order. */
module RateLimits {
  import opened CredentialLedger
  import opened SlidingWindow
  import opened Text

  datatype Principal = Principal(insurerId: string, credentialId: string, maySubmit: bool,
                                 dailyQuota: nat, exempt: bool)

  datatype Credential = Credential(principal: Principal, digest: string)

  datatype Outcome =
    | Granted(principal: Principal)
    | InvalidCredential | OperationForbidden | InsurerMismatch
    | AddressLimited | InsurerLimited | QuotaExhausted

  const MINIMUM_KEY_LENGTH := 24

  function StripLeft(s: string): string {
    if s != [] && IsSpace(s[0]) then StripLeft(s[1..]) else s
  }

  function StripRight(s: string): string {
    if s != [] && IsSpace(s[|s| - 1]) then StripRight(s[..|s| - 1]) else s
  }

  function Strip(s: string): string { StripRight(StripLeft(s)) }

  function Address(client: string): string {
    if Strip(client) == "" then "unknown" else Strip(client)
  }

  predicate Spaces(s: string) { forall c :: c in s ==> IsSpace(c) }

  predicate Bare(s: string) { s != "" ==> !IsSpace(s[0]) && !IsSpace(s[|s| - 1]) }

  lemma {:induction false} StrippedLeft(s: string) returns (a: string)
    ensures Spaces(a) && s == a + StripLeft(s) && (StripLeft(s) != "" ==> !IsSpace(StripLeft(s)[0]))
  {
    a := "";
    if s != "" && IsSpace(s[0]) {
      a := StrippedLeft(s[1..]);
      a := [s[0]] + a;
    }
  }

  lemma {:induction false} StrippedRight(s: string) returns (b: string)
    ensures Spaces(b) && s == StripRight(s) + b
    ensures StripRight(s) != "" ==> !IsSpace(StripRight(s)[|StripRight(s)| - 1]) && StripRight(s)[0] == s[0]
  {
    b := "";
    if s != "" && IsSpace(s[|s| - 1]) {
      b := StrippedRight(s[..|s| - 1]);
      b := b + [s[|s| - 1]];
    }
  }

  /** `strip()` takes white space off both ends, all of it, and nothing else. */
  lemma StripIsBare(s: string) returns (a: string, b: string)
    ensures Spaces(a) && Spaces(b) && s == a + Strip(s) + b && Bare(Strip(s))
  {
    a := StrippedLeft(s);
    b := StrippedRight(StripLeft(s));
    Assoc(a, Strip(s), b);
  }

  /** A bare client address is its own name, and a blank one is called unknown. */
  lemma AddressNames(client: string)
    ensures Spaces(client) ==> Address(client) == "unknown"
    ensures client != "" && Bare(client) ==> Address(client) == client
  {
    var a, b := StripIsBare(client);
    if Strip(client) != "" {
      assert client[|a|] == Strip(client)[0];
      assert client[|a|] in client;
    }
    if a != "" { assert client[0] == a[0] && a[0] in a; }
    if b != "" { assert client[|client| - 1] == b[|b| - 1] && b[|b| - 1] in b; }
  }

  class SubmissionBoundary {
    const credentials: seq<Credential>
    const insurerLimit: nat
    const addressLimit: nat
    const bypassAllowed: bool
    const sha256: string -> string

    var addressAttempts: map<string, seq<int>>
    var insurerAttempts: map<string, seq<int>>
    var dailyUsage: map<(string, int), nat>

    /** The clock readings of all calls that reached the deque of each address, and all
        charges to credentials, in the order of the lock; nothing is ever dropped. */
    ghost var knocks: map<string, seq<int>>
    ghost var charges: seq<Charge>

    /** What the configuration parser demands. */
    ghost predicate Configured()
      reads {}
    {
      && insurerLimit > 0 && addressLimit > 0
      && forall i, j :: 0 <= i < j < |credentials| ==>
           credentials[i].principal.credentialId != credentials[j].principal.credentialId
           && credentials[i].digest != credentials[j].digest
    }

    ghost predicate IsConfigured(c: Charge)
      reads {}
    {
      exists k :: 0 <= k < |credentials| && credentials[k].principal.credentialId == c.id
                  && credentials[k].principal.dailyQuota == c.quota
    }

    ghost predicate AddressesOk(attempts: map<string, seq<int>>, knocks: map<string, seq<int>>)
      reads {}
    {
      && (forall a :: a in attempts <==> a in knocks)
      && forall a :: a in knocks ==> attempts[a] == Knocks(knocks[a], addressLimit).queue
    }

    ghost predicate CredentialsOk(queues: map<string, seq<int>>, usage: map<(string, int), nat>, charges: seq<Charge>)
      reads {}
    {
      && queues == Books(charges, insurerLimit).queues && usage == Books(charges, insurerLimit).usage
      && forall i :: 0 <= i < |charges| ==> IsConfigured(charges[i])
    }

    /** The deques and counters are what the runs of calls so far make of them, whatever
        the clocks said. */
    ghost predicate Valid()
      reads this
    {
      Configured() && AddressesOk(addressAttempts, knocks) && CredentialsOk(insurerAttempts, dailyUsage, charges)
    }

    constructor (credentials: seq<Credential>, insurerLimit: nat, addressLimit: nat, bypassAllowed: bool,
                 sha256: string -> string)
      requires insurerLimit > 0 && addressLimit > 0
      requires forall i, j :: 0 <= i < j < |credentials| ==>
                 credentials[i].principal.credentialId != credentials[j].principal.credentialId
                 && credentials[i].digest != credentials[j].digest
      ensures Valid() && knocks == map[] && charges == []
      ensures this.credentials == credentials && this.insurerLimit == insurerLimit && this.addressLimit == addressLimit
    {
      this.credentials, this.insurerLimit, this.addressLimit := credentials, insurerLimit, addressLimit;
      this.bypassAllowed, this.sha256 := bypassAllowed, sha256;
      addressAttempts, insurerAttempts, dailyUsage := map[], map[], map[];
      knocks, charges := map[], [];
    }

    // ------------------------------------------------------------ the guarantees

    /** Every reservation a source address ever got. */
    ghost function AddressHistory(address: string): seq<int>
      reads this`knocks
    {
      Knocks(Deque(knocks, address), addressLimit).history
    }

    ghost function CredentialHistory(id: string): seq<int>
      reads this`charges
    {
      HistoryOf(Books(charges, insurerLimit), id)
    }

    /** While its calls come in clock order, or whatever the clocks under a limit of one,
        every half-open minute holds at most the limit of reservations of an address, ... */
    lemma AddressWindowsBounded(address: string, from: int)
      requires Valid() && (addressLimit == 1 || Sorted(Deque(knocks, address)))
      ensures InMinute(AddressHistory(address), from) <= addressLimit
    {
      KnocksBounded(Deque(knocks, address), addressLimit);
    }

    lemma QuotaConfigured(c: Credential)
      requires Valid() && c in credentials
      ensures QuotaIs(charges, c.principal.credentialId, c.principal.dailyQuota)
    {
      forall i | 0 <= i < |charges| && charges[i].id == c.principal.credentialId
        ensures charges[i].quota == c.principal.dailyQuota
      {
        assert IsConfigured(charges[i]);
        var k :| 0 <= k < |credentials| && credentials[k].principal.credentialId == charges[i].id
                 && credentials[k].principal.dailyQuota == charges[i].quota;
        var j :| 0 <= j < |credentials| && credentials[j] == c;
        OneCredential(j, k);
      }
    }

    lemma OneCredential(j: nat, k: nat)
      requires Configured() && j < |credentials| && k < |credentials|
      requires credentials[j].principal.credentialId == credentials[k].principal.credentialId
      ensures j == k
    {
    }

    /** The disorder of clocks that does a credential no harm. */
    ghost predicate Harmless(c: Credential)
      reads this`charges
    {
      InOrder(charges) || (insurerLimit == 1 && c.principal.dailyQuota >= MINUTES)
    }

    /** ... at most the limit of a credential, ... */
    lemma InsurerWindowsBounded(c: Credential, from: int)
      requires Valid() && c in credentials && Harmless(c)
      ensures InMinute(CredentialHistory(c.principal.credentialId), from) <= insurerLimit
    {
      QuotaConfigured(c);
      if InOrder(charges) {
        InOrderMinutes(charges, insurerLimit, c.principal.credentialId, c.principal.dailyQuota);
      } else {
        AnyClocksBounded(charges, c.principal.credentialId, c.principal.dailyQuota);
      }
    }

    /** ... and every UTC day at most the credential's quota of admissions, although
        every admission deletes the counters of past days. */
    lemma DailyQuotaKept(c: Credential, day: int)
      requires Valid() && c in credentials && Harmless(c)
      ensures InDay(CredentialHistory(c.principal.credentialId), day) <= c.principal.dailyQuota
    {
      QuotaConfigured(c);
      if InOrder(charges) {
        InOrderBounded(charges, insurerLimit, c.principal.credentialId, c.principal.dailyQuota);
      } else {
        AnyClocksBounded(charges, c.principal.credentialId, c.principal.dailyQuota);
      }
    }

    /** In clock order the deque is exactly the reservations of the minute before the
        latest call. */
    lemma DequeIsRecentSuffix(address: string)
      requires Valid() && address in knocks && knocks[address] != [] && Sorted(knocks[address])
      ensures var h, q, last := AddressHistory(address), addressAttempts[address], knocks[address][|knocks[address]| - 1];
              && |q| <= |h| && q == h[|h| - |q|..]
              && forall i :: 0 <= i < |h| ==> (i >= |h| - |q| <==> h[i] > last - MINUTE)
    {
      var times := knocks[address];
      InOrderTracks(times, addressLimit);
      RecentIsSuffix(AddressHistory(address), times[|times| - 1] - MINUTE);
      RecentAreLater(AddressHistory(address), times[|times| - 1] - MINUTE);
    }

    // ------------------------------------------------------------ the operations

    /** The deque loop, one `popleft` at a time. */
    static method PruneDeque(attempts: seq<int>, cutoff: int) returns (pruned: seq<int>)
      ensures pruned == Prune(attempts, cutoff)
    {
      pruned := attempts;
      while pruned != [] && pruned[0] <= cutoff
        invariant Prune(pruned, cutoff) == Prune(attempts, cutoff)
      {
        pruned := pruned[1..];
      }
    }

    /** `_reserve_ip_attempt`. */
    method ReserveAddress(address: string, now: int) returns (ok: bool)
      requires Valid()
      modifies this`addressAttempts, this`knocks
      ensures Valid()
      ensures var pruned := Prune(Deque(old(addressAttempts), address), now - MINUTE);
              && ok == (|pruned| < addressLimit)
              && addressAttempts == old(addressAttempts)[address := pruned + if ok then [now] else []]
      ensures knocks == old(knocks)[address := Deque(old(knocks), address) + [now]]
      ensures AddressHistory(address) == old(AddressHistory(address)) + if ok then [now] else []
    {
      var attempts := if address in addressAttempts then addressAttempts[address] else [];
      attempts := PruneDeque(attempts, now - MINUTE);
      ok := |attempts| < addressLimit;
      if ok {
        attempts := attempts + [now];
      }
      KnockNext(Deque(knocks, address), now, addressLimit);
      assert attempts == Prune(Deque(addressAttempts, address), now - MINUTE) + if ok then [now] else [];
      addressAttempts := addressAttempts[address := attempts];
      knocks := knocks[address := Deque(knocks, address) + [now]];
    }

    /** The digest comparison. */
    predicate Matches(key: string, c: Credential) {
      |key| >= MINIMUM_KEY_LENGTH && c.digest == sha256(key)
    }

    /** `_find_principal`: every digest is compared, and the one that matches wins. */
    method FindPrincipal(key: string) returns (found: bool, principal: Principal)
      requires Configured()
      ensures found <==> |key| >= 24 && exists c :: c in credentials && c.digest == sha256(key)
      ensures found <==> exists c :: c in credentials && Matches(key, c)
      ensures forall c :: c in credentials && Matches(key, c) ==> c.principal == principal
      ensures found ==> exists c :: c in credentials && c.principal == principal
    {
      principal := Principal("", "", false, 0, false);
      found := false;
      if |key| < MINIMUM_KEY_LENGTH {
        return;
      }
      var digest := sha256(key);
      for i := 0 to |credentials|
        invariant found <==> exists j :: 0 <= j < i && credentials[j].digest == digest
        invariant forall j :: 0 <= j < i && credentials[j].digest == digest ==> credentials[j].principal == principal
      {
        if digest == credentials[i].digest {
          found, principal := true, credentials[i].principal;
        }
      }
      if found {
        ghost var j :| 0 <= j < |credentials| && credentials[j].digest == digest;
        assert credentials[j] in credentials && Matches(key, credentials[j]);
      }
    }

    /** Yesterday's counters go; what is left decides today. */
    method DropOldDays(today: int)
      modifies this`dailyUsage
      ensures dailyUsage == Since(old(dailyUsage), today)
    {
      var keys := dailyUsage.Keys;
      while keys != {}
        invariant keys <= old(dailyUsage).Keys
        invariant forall key :: key in dailyUsage <==> key in old(dailyUsage) && (key in keys || key.1 >= today)
        invariant forall key :: key in dailyUsage ==> dailyUsage[key] == old(dailyUsage)[key]
        decreases keys
      {
        var key :| key in keys;
        if key.1 < today {
          dailyUsage := map other | other in dailyUsage && other != key :: dailyUsage[other];
        }
        keys := keys - {key};
      }
    }

    static function Answer(v: Verdict, p: Principal): Outcome {
      match v
      case MinuteFull => InsurerLimited
      case DayFull => QuotaExhausted
      case Admitted => Granted(p)
    }

    static function ChargeOf(p: Principal, now: int): Charge { Charge(p.credentialId, p.dailyQuota, now) }

    /** `_reserve_principal`: both checks before either counter moves. */
    method ReservePrincipal(p: Principal, now: int) returns (outcome: Outcome)
      requires Valid() && exists c :: c in credentials && c.principal == p
      modifies this`insurerAttempts, this`dailyUsage, this`charges
      ensures Valid() && charges == old(charges) + [ChargeOf(p, now)]
      ensures var pruned := Prune(Deque(old(insurerAttempts), p.credentialId), now - MINUTE);
              outcome == if |pruned| >= insurerLimit then InsurerLimited
                         else if Used(old(dailyUsage), (p.credentialId, now / DAY)) >= p.dailyQuota then QuotaExhausted
                         else Granted(p)
      ensures CredentialHistory(p.credentialId)
              == old(CredentialHistory(p.credentialId)) + if outcome.Granted? then [now] else []
    {
      var attempts := if p.credentialId in insurerAttempts then insurerAttempts[p.credentialId] else [];
      attempts := PruneDeque(attempts, now - MINUTE);
      var day := (p.credentialId, now / DAY);
      var verdict := Decide(|attempts|, insurerLimit, Used(dailyUsage, day), p.dailyQuota);
      outcome := Answer(verdict, p);
      ChargeRecorded(p, now, attempts, verdict);
      insurerAttempts := insurerAttempts[p.credentialId := Reserved(attempts, now, verdict)];
      CountDay(day, verdict);
      charges := charges + [ChargeOf(p, now)];
    }

    /** The books after one more charge, field by field. */
    lemma ChargeRecorded(p: Principal, now: int, pruned: seq<int>, v: Verdict)
      requires Valid() && exists c :: c in credentials && c.principal == p
      requires pruned == Prune(Deque(insurerAttempts, p.credentialId), now - MINUTE)
      requires v == Decide(|pruned|, insurerLimit, Used(dailyUsage, (p.credentialId, now / DAY)), p.dailyQuota)
      ensures CredentialsOk(insurerAttempts[p.credentialId := Reserved(pruned, now, v)],
                            Counted(dailyUsage, (p.credentialId, now / DAY), v), charges + [ChargeOf(p, now)])
      ensures HistoryOf(Books(charges + [ChargeOf(p, now)], insurerLimit), p.credentialId)
              == Reserved(CredentialHistory(p.credentialId), now, v)
    {
      BooksNext(charges, ChargeOf(p, now), insurerLimit, Books(charges, insurerLimit));
      ChargedFields(Books(charges, insurerLimit), ChargeOf(p, now), insurerLimit, pruned, v);
      PrincipalConfigured(p, now);
    }

    static lemma ChargedFields(b: Book, c: Charge, limit: nat, pruned: seq<int>, v: Verdict)
      requires pruned == Prune(Deque(b.queues, c.id), c.now - MINUTE)
      requires v == Decide(|pruned|, limit, Used(b.usage, (c.id, c.now / DAY)), c.quota)
      ensures var b' := Charged(b, c, limit);
              && b'.queues == b.queues[c.id := Reserved(pruned, c.now, v)]
              && b'.usage == Counted(b.usage, (c.id, c.now / DAY), v)
              && HistoryOf(b', c.id) == Reserved(HistoryOf(b, c.id), c.now, v)
    {
    }

    lemma PrincipalConfigured(p: Principal, now: int)
      requires exists c :: c in credentials && c.principal == p
      requires forall i :: 0 <= i < |charges| ==> IsConfigured(charges[i])
      ensures var longer := charges + [ChargeOf(p, now)];
              forall i :: 0 <= i < |longer| ==> IsConfigured(longer[i])
    {
      var c :| c in credentials && c.principal == p;
      var k :| 0 <= k < |credentials| && credentials[k] == c;
    }

    method CountDay(day: (string, int), v: Verdict)
      modifies this`dailyUsage
      ensures dailyUsage == Counted(old(dailyUsage), day, v)
    {
      var used := Used(dailyUsage, day);
      if v.Admitted? {
        dailyUsage := dailyUsage[day := used + 1];
        DropOldDays(day.1);
      } else if v.DayFull? {
        dailyUsage := dailyUsage[day := used];
      }
    }

    /** Both opt-ins are set. */
    predicate Bypassed(p: Principal) { bypassAllowed && p.exempt }

    /** Authentication and insurer authorization, before any counter. */
    static function Judge(found: bool, p: Principal, claimedInsurer: string): Outcome {
      if !found then InvalidCredential
      else if !p.maySubmit then OperationForbidden
      else if p.insurerId != claimedInsurer then InsurerMismatch
      else Granted(p)
    }

    /** The address has a slot left. */
    ghost predicate Room(attempts: map<string, seq<int>>, address: string, now: int)
      reads {}
    {
      |Prune(Deque(attempts, address), now - MINUTE)| < addressLimit
    }

    /** What a call is due under the credential of `p`, from the deques and counters it finds. */
    ghost function Due(addresses: map<string, seq<int>>, minutes: map<string, seq<int>>, days: map<(string, int), nat>,
                       p: Principal, claimedInsurer: string, address: string, now: int): Outcome
      reads {}
    {
      if p.maySubmit && p.insurerId == claimedInsurer && bypassAllowed && p.exempt then Granted(p)
      else if |Prune(Deque(addresses, address), now - MINUTE)| >= addressLimit then AddressLimited
      else if !p.maySubmit then OperationForbidden
      else if p.insurerId != claimedInsurer then InsurerMismatch
      else if |Prune(Deque(minutes, p.credentialId), now - MINUTE)| >= insurerLimit then InsurerLimited
      else if Used(days, (p.credentialId, now / DAY)) >= p.dailyQuota then QuotaExhausted
      else Granted(p)
    }

    /** A call is free only when a bypass admits it. */
    ghost predicate Free(r: Outcome)
      reads {}
    {
      r.Granted? && bypassAllowed && r.principal.exempt
    }

    /** The critical section of `authorize_and_reserve`. */
    method Reserve(key: string, claimedInsurer: string, address: string, now: int) returns (r: Outcome)
      requires Valid()
      modifies this`addressAttempts, this`knocks, this`insurerAttempts, this`dailyUsage, this`charges
      ensures Valid()
      ensures forall c :: c in credentials && Matches(key, c) ==>
                r == Due(old(addressAttempts), old(insurerAttempts), old(dailyUsage), c.principal, claimedInsurer, address, now)
      ensures (forall c :: c in credentials ==> !Matches(key, c)) ==>
                r == if Room(old(addressAttempts), address, now) then InvalidCredential else AddressLimited
      ensures r.Granted? ==>
                && r.principal.maySubmit && r.principal.insurerId == claimedInsurer
                && exists c :: c in credentials && Matches(key, c) && c.principal == r.principal
      ensures knocks == if Free(r) then old(knocks) else old(knocks)[address := Deque(old(knocks), address) + [now]]
      ensures (r.Granted? && !Free(r)) || r.InsurerLimited? || r.QuotaExhausted? ==>
                exists c :: c in credentials && Matches(key, c) && charges == old(charges) + [ChargeOf(c.principal, now)]
      ensures Free(r) || !(r.Granted? || r.InsurerLimited? || r.QuotaExhausted?) ==> charges == old(charges)
    {
      var found, principal := FindPrincipal(key);
      r := Judge(found, principal, claimedInsurer);
      if r.Granted? && Bypassed(principal) {
        return;
      }
      r := Spend(r, address, now);
    }

    /** A slot of the address, and then the allowance of an accepted credential. */
    method Spend(judged: Outcome, address: string, now: int) returns (r: Outcome)
      requires Valid() && !judged.AddressLimited?
      requires judged.Granted? ==> exists c :: c in credentials && c.principal == judged.principal
      modifies this`addressAttempts, this`knocks, this`insurerAttempts, this`dailyUsage, this`charges
      ensures Valid() && knocks == old(knocks)[address := Deque(old(knocks), address) + [now]]
      ensures !Room(old(addressAttempts), address, now) ==> r == AddressLimited
      ensures r == AddressLimited || !judged.Granted? ==> charges == old(charges)
      ensures Room(old(addressAttempts), address, now) && !judged.Granted? ==> r == judged
      ensures Room(old(addressAttempts), address, now) && judged.Granted? ==>
                var p := judged.principal;
                && charges == old(charges) + [ChargeOf(p, now)]
                && r == if |Prune(Deque(old(insurerAttempts), p.credentialId), now - MINUTE)| >= insurerLimit
                        then InsurerLimited
                        else if Used(old(dailyUsage), (p.credentialId, now / DAY)) >= p.dailyQuota then QuotaExhausted
                        else judged
    {
      var slot := ReserveAddress(address, now);
      if !slot {
        r := AddressLimited;
      } else if judged.Granted? {
        r := ReservePrincipal(judged.principal, now);
      } else {
        r := judged;
      }
    }

    /** `authorize_and_reserve`: a refused or unknown caller costs its address a slot; an
        admitted one costs both its address and its credential. */
    method AuthorizeAndReserve(apiKey: string, claimedInsurer: string, client: string, now: int) returns (r: Outcome)
      requires Valid()
      modifies this
      ensures Valid()
      ensures forall c :: c in credentials && Matches(Strip(apiKey), c) ==>
                r == Due(old(addressAttempts), old(insurerAttempts), old(dailyUsage), c.principal, claimedInsurer,
                         Address(client), now)
      ensures (forall c :: c in credentials ==> !Matches(Strip(apiKey), c)) ==>
                r == if Room(old(addressAttempts), Address(client), now) then InvalidCredential else AddressLimited
      ensures knocks == if Free(r) then old(knocks)
                        else old(knocks)[Address(client) := Deque(old(knocks), Address(client)) + [now]]
      ensures (r.Granted? && !Free(r)) || r.InsurerLimited? || r.QuotaExhausted? ==>
                exists c :: c in credentials && Matches(Strip(apiKey), c)
                            && charges == old(charges) + [ChargeOf(c.principal, now)]
      ensures Free(r) || !(r.Granted? || r.InsurerLimited? || r.QuotaExhausted?) ==> charges == old(charges)
    {
      r := Reserve(Strip(apiKey), claimedInsurer, Address(client), now);
    }

    /** `authenticate`: only a refused caller costs a slot. */
    method Authenticate(apiKey: string, client: string, now: int) returns (r: Outcome)
      requires Valid()
      modifies this
      ensures Valid() && charges == old(charges)
      ensures forall c :: c in credentials && Matches(Strip(apiKey), c) ==>
                r == if c.principal.maySubmit then Granted(c.principal)
                     else if Room(old(addressAttempts), Address(client), now) then OperationForbidden else AddressLimited
      ensures (forall c :: c in credentials ==> !Matches(Strip(apiKey), c)) ==>
                r == if Room(old(addressAttempts), Address(client), now) then InvalidCredential else AddressLimited
      ensures knocks == if r.Granted? then old(knocks)
                        else old(knocks)[Address(client) := Deque(old(knocks), Address(client)) + [now]]
    {
      r := Check(Strip(apiKey), Address(client), now);
    }

    method Check(key: string, address: string, now: int) returns (r: Outcome)
      requires Valid()
      modifies this`addressAttempts, this`knocks
      ensures Valid()
      ensures forall c :: c in credentials && Matches(key, c) ==>
                r == if c.principal.maySubmit then Granted(c.principal)
                     else if Room(old(addressAttempts), address, now) then OperationForbidden else AddressLimited
      ensures (forall c :: c in credentials ==> !Matches(key, c)) ==>
                r == if Room(old(addressAttempts), address, now) then InvalidCredential else AddressLimited
      ensures knocks == if r.Granted? then old(knocks)
                        else old(knocks)[address := Deque(old(knocks), address) + [now]]
    {
      var found, principal := FindPrincipal(key);
      if found && principal.maySubmit {
        return Granted(principal);
      }
      var slot := ReserveAddress(address, now);
      r := if !slot then AddressLimited else if found then OperationForbidden else InvalidCredential;
    }

    // -------------------------------------------------------------------- a finding

    /** A call without a key costs its address a slot, if there is one left. */
    method GuessOnce(client: string, now: int)
      requires Valid()
      modifies this
      ensures Valid() && charges == old(charges)
      ensures Deque(knocks, Address(client)) == Deque(old(knocks), Address(client)) + [now]
    {
      var r := AuthorizeAndReserve("", "", client, now);
    }

    /** `n` such calls of one client at one instant. */
    method Guess(client: string, now: int, n: nat)
      requires Valid()
      modifies this
      ensures Valid() && charges == old(charges)
      ensures Deque(knocks, Address(client)) == Deque(old(knocks), Address(client)) + Repeat(now, n)
    {
      for i := 0 to n
        invariant Valid() && charges == old(charges)
        invariant Deque(knocks, Address(client)) == Deque(old(knocks), Address(client)) + Repeat(now, i)
      {
        GuessOnce(client, now);
        RepeatGrows(now, i);
      }
    }

    /** The clock is read before the lock is taken, so calls can enter in another order
        than their times. Under any address limit of two or more, after a full minute, a
        call of the next minute and one whose clock was read a microsecond earlier leave
        the first minute with one reservation too many. */
    method OverrunByOneTick(client: string)
      requires Valid() && addressLimit >= 2 && Address(client) !in knocks
      modifies this
      ensures Valid() && StepsBack(Deque(knocks, Address(client)), 1)
      ensures InMinute(AddressHistory(Address(client)), 0) == addressLimit + 1
    {
      Guess(client, 0, addressLimit);
      Guess(client, MINUTE, 1);
      Guess(client, MINUTE - 1, 1);
      OneTickOverruns(addressLimit);
      assert Deque(knocks, Address(client)) == Overrun(addressLimit);
    }
  }

  lemma {:induction false} RecentAreLater(history: seq<int>, cutoff: int)
    ensures forall i :: 0 <= i < |Recent(history, cutoff)| ==> Recent(history, cutoff)[i] > cutoff
  {
    if history != [] { RecentAreLater(history[1..], cutoff); }
  }
}
