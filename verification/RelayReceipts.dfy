/** What the relay worker concludes from a receipt, and how its failures are reported. */
module RelayReceipts {
  import opened Text

  datatype Error =
    | Dependency | FeeCap | NonceConsumed
    | AuthorizationInvalid | WrongTarget | GasCap
    | Reverted | EventMissing | PartiesMissing | EventMismatch | PartiesMismatch

  /** The message the chain adapter raises. */
  function Message(e: Error): string {
    match e
    case Dependency => "Could not read the relay transaction receipt"
    case FeeCap => "Current " + "network fees exceed" + " the configured sponsorship cap"
    case NonceConsumed => "Relayer " + "nonce was consumed" + " by an unknown transaction"
    case AuthorizationInvalid => "The gasless signature is " + "invalid, expired, or uses a stale nonce" + ""
    case WrongTarget => "Submission target " + "does not match" + " the active gasless deployment"
    case GasCap => "Relay transaction " + "exceeds the configured gas cap" + ""
    case Reverted => "Relay transaction " + "reverted on-chain" + ""
    case EventMissing => "Relay transaction " + "did not emit exactly one" + " ClaimSubmitted event"
    case PartiesMissing => "Public relay " + "did not emit exactly one" + " ClaimPartiesRecorded event"
    case EventMismatch => "ClaimSubmitted event " + "does not match" + " the authorized submission"
    case PartiesMismatch => "ClaimPartiesRecorded event " + "does not match" + " the authorized submission"
  }

  predicate OccursAt(s: string, part: string, i: nat) { i + |part| <= |s| && s[i..i + |part|] == part }

  predicate Contains(s: string, part: string) {
    exists i | 0 <= i <= |s| :: OccursAt(s, part, i)
  }

  /** `_failure`: the first marker found in the lower-cased message decides the code;
      the flag says whether the request is given up for good. */
  function Failure(message: string): (string, bool) {
    var m := Lower(message);
    if Contains(m, "invalid, expired, or uses a stale nonce") then ("authorization_invalid", true)
    else if Contains(m, "reverted on-chain") then ("relay_reverted", true)
    else if Contains(m, "did not emit exactly one") then ("receipt_event_missing", true)
    else if Contains(m, "does not match") then ("receipt_event_mismatch", true)
    else if Contains(m, "target does not match") then ("deployment_mismatch", true)
    else if Contains(m, "exceeds the configured gas cap") then ("transaction_gas_cap_exceeded", true)
    else if Contains(m, "network fees exceed") then ("fee_cap_exceeded", false)
    else if Contains(m, "nonce was consumed") then ("relayer_nonce_conflict", false)
    else ("relay_dependency_unavailable", false)
  }

  predicate Terminal(e: Error) { Failure(Message(e)).1 }

  lemma TargetIsMismatch(m: string)
    requires Contains(m, "target does not match")
    ensures Contains(m, "does not match")
  {
    var long, short := "target does not match", "does not match";
    var i :| 0 <= i <= |m| && OccursAt(m, long, i);
    assert m[i + 7..i + 7 + |short|] == m[i..i + |long|][7..] == long[7..] == short;
    assert OccursAt(m, short, i + 7);
  }

  /** The code for a wrong deployment can never be reported: every message that contains
      its marker also contains the earlier, shorter one of a receipt mismatch. */
  lemma DeploymentMismatchNeverReported(message: string)
    ensures Failure(message).0 != "deployment_mismatch"
  {
    if Contains(Lower(message), "target does not match") { TargetIsMismatch(Lower(message)); }
  }

  // ------------------------------------------------------------------------ receipts

  /** What the submitter authorized; `parties` is the public submission's part. */
  datatype Authorization = Authorization(claimant: string, claimHash: string, pointer: string, parties: Parties)
  datatype Parties = Private | Public(insurer: string, signer: string, commitment: string,
                                      permitId: string, issuer: string)

  datatype Submitted = Submitted(claimId: nat, claimant: string, claimHash: string, pointer: string)
  datatype Recorded = Recorded(claimId: nat, insurer: string, submittedBy: string, commitment: string,
                               permitId: string, issuer: string)

  datatype Events = Events(success: bool, submitted: seq<Submitted>, recorded: seq<Recorded>)

  datatype Verdict = Proven(claimId: nat) | Refused(error: Error)

  /** `confirm`: the checks in the order they are made. */
  function Confirm(a: Authorization, r: Events): Verdict {
    if !r.success then Refused(Reverted)
    else if |r.submitted| != 1 then Refused(EventMissing)
    else
      var e := r.submitted[0];
      if Lower(e.claimant) != Lower(a.claimant) || Lower(e.claimHash) != Lower(a.claimHash) || e.pointer != a.pointer
      then Refused(EventMismatch)
      else if a.parties.Private? then Proven(e.claimId)
      else if |r.recorded| != 1 then Refused(PartiesMissing)
      else
        var p := r.recorded[0];
        if p.claimId != e.claimId || Lower(p.insurer) != Lower(a.parties.insurer)
           || Lower(p.submittedBy) != Lower(a.parties.signer) || Lower(p.commitment) != Lower(a.parties.commitment)
           || Lower(p.permitId) != Lower(a.parties.permitId) || Lower(p.issuer) != Lower(a.parties.issuer)
        then Refused(PartiesMismatch)
        else Proven(e.claimId)
  }

  /** Chain evidence that this authorization, and no other, became claim `c`. */
  ghost predicate Evidence(a: Authorization, r: Events, c: nat) {
    && r.success
    && (exists e :: r.submitted == [e] && e.claimId == c && Lower(e.claimant) == Lower(a.claimant)
                    && Lower(e.claimHash) == Lower(a.claimHash) && e.pointer == a.pointer)
    && (a.parties.Public? ==>
          exists p :: r.recorded == [p] && p.claimId == c && Lower(p.insurer) == Lower(a.parties.insurer)
                      && Lower(p.submittedBy) == Lower(a.parties.signer)
                      && Lower(p.commitment) == Lower(a.parties.commitment)
                      && Lower(p.permitId) == Lower(a.parties.permitId) && Lower(p.issuer) == Lower(a.parties.issuer))
  }

  lemma ConfirmedIffEvidence(a: Authorization, r: Events, c: nat)
    ensures Confirm(a, r) == Proven(c) <==> Evidence(a, r, c)
  {
    if Confirm(a, r) == Proven(c) {
      assert r.submitted == [r.submitted[0]];
      if a.parties.Public? { assert r.recorded == [r.recorded[0]]; }
    }
  }

  /** One receipt cannot confirm two different claims, nor two different pointers. */
  lemma EvidenceNamesOneClaim(a: Authorization, b: Authorization, r: Events, c: nat, d: nat)
    requires Evidence(a, r, c) && Evidence(b, r, d)
    ensures c == d && a.pointer == b.pointer && Lower(a.claimHash) == Lower(b.claimHash)
    ensures Lower(a.claimant) == Lower(b.claimant)
  {
    var e :| r.submitted == [e] && e.claimId == c && e.pointer == a.pointer && Lower(e.claimHash) == Lower(a.claimHash)
             && Lower(e.claimant) == Lower(a.claimant);
    var f :| r.submitted == [f] && f.claimId == d && f.pointer == b.pointer && Lower(f.claimHash) == Lower(b.claimHash)
             && Lower(f.claimant) == Lower(b.claimant);
    assert [e][0] == [f][0];
  }
}
