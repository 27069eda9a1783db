/** Which relay errors end a request: the classification by text, error by error. */
module RelayErrors {
  import opened RelayReceipts
  import opened Text

  /** The texts that prove a request cannot continue. */
  predicate Marked(m: string) {
    Contains(m, "invalid, expired, or uses a stale nonce") || Contains(m, "reverted on-chain")
    || Contains(m, "did not emit exactly one") || Contains(m, "does not match")
    || Contains(m, "exceeds the configured gas cap")
  }

  /** For every message: the request is given up for good exactly when one of those texts
      is in it, letter case aside. */
  lemma TerminalIffMarked(message: string)
    ensures Failure(message).1 <==> Marked(Lower(message))
  {
    if Contains(Lower(message), "target does not match") { TargetIsMismatch(Lower(message)); }
  }

  lemma Holds(a: string, part: string, b: string)
    requires forall c :: c in part ==> LowerChar(c) == c
    ensures Contains(Lower(a + part + b), part)
  {
    forall i | 0 <= i < |part| ensures Lower(part)[i] == part[i] { assert part[i] in part; }
    assert Lower(a + part + b)[|a|..|a| + |part|] == Lower(part) == part;
    assert OccursAt(Lower(a + part + b), part, |a|);
  }

  predicate Lacks(m: string, letter: char) { forall c :: c in m ==> LowerChar(c) != letter }

  /** A text cannot occur without one of its letters. */
  lemma LetterMissing(m: string, part: string, j: nat)
    requires j < |part| && Lacks(m, part[j])
    ensures !Contains(Lower(m), part)
  {
    forall i | 0 <= i <= |m| ensures !OccursAt(Lower(m), part, i) {
      if OccursAt(Lower(m), part, i) { LetterOccurs(m, part, i, j); }
    }
  }

  lemma LetterOccurs(m: string, part: string, i: nat, j: nat)
    requires OccursAt(Lower(m), part, i) && j < |part|
    ensures i + j < |m| && LowerChar(m[i + j]) == part[j] && !Lacks(m, part[j])
  {
    assert Lower(m)[i..i + |part|][j] == part[j];
    assert m[i + j] in m;
  }

  /** Letters that tell a text from the markers. */
  predicate Without(m: string, a: char, b: char, c: char) {
    forall x :: x in m ==> LowerChar(x) != a && LowerChar(x) != b && LowerChar(x) != c
  }

  lemma NotInvalid(m: string)
    requires Lacks(m, ',')
    ensures !Contains(Lower(m), "invalid, expired, or uses a stale nonce")
  {
    LetterMissing(m, "invalid, expired, or uses a stale nonce", 7);
  }

  lemma NotReverted(m: string)
    requires Lacks(m, '-')
    ensures !Contains(Lower(m), "reverted on-chain")
  {
    LetterMissing(m, "reverted on-chain", 11);
  }

  lemma NotMissing(m: string)
    requires Lacks(m, 'm') || Lacks(m, 'x')
    ensures !Contains(Lower(m), "did not emit exactly one")
  {
    LetterMissing(m, "did not emit exactly one", if Lacks(m, 'm') then 9 else 14);
  }

  lemma NotMismatch(m: string)
    requires Lacks(m, 'm') || Lacks(m, 'h')
    ensures !Contains(Lower(m), "does not match")
  {
    LetterMissing(m, "does not match", if Lacks(m, 'm') then 9 else 13);
  }

  /** The first three checks pass a text by. */
  lemma NotEarly(m: string)
    requires Without(m, ',', '-', 'm') || Without(m, ',', '-', 'x')
    ensures !Contains(Lower(m), "invalid, expired, or uses a stale nonce")
    ensures !Contains(Lower(m), "reverted on-chain") && !Contains(Lower(m), "did not emit exactly one")
  {
    NotInvalid(m);
    NotReverted(m);
    NotMissing(m);
  }

  lemma AuthorizationCode()
    ensures Failure(Message(AuthorizationInvalid)) == ("authorization_invalid", true)
  {
    Holds("The gasless signature is ", "invalid, expired, or uses a stale nonce", "");
  }

  lemma RevertedCode()
    ensures Failure(Message(Reverted)) == ("relay_reverted", true)
  {
    assert Lacks("Relay transaction ", ',') && Lacks("reverted on-chain", ',');
    NotInvalid("Relay transaction " + "reverted on-chain" + "");
    Holds("Relay transaction ", "reverted on-chain", "");
  }

  lemma MissingCode(a: string, b: string)
    requires Without(a, ',', '-', ',') && Without(b, ',', '-', ',')
    ensures Failure(a + "did not emit exactly one" + b) == ("receipt_event_missing", true)
  {
    var m := a + "did not emit exactly one" + b;
    assert Without("did not emit exactly one", ',', '-', ',');
    NotInvalid(m);
    NotReverted(m);
    Holds(a, "did not emit exactly one", b);
  }

  lemma MismatchCode(a: string, b: string)
    requires Without(a, ',', '-', 'x') && Without(b, ',', '-', 'x')
    ensures Failure(a + "does not match" + b) == ("receipt_event_mismatch", true)
  {
    assert Without("does not match", ',', '-', 'x');
    NotEarly(a + "does not match" + b);
    Holds(a, "does not match", b);
  }

  lemma MismatchCodes()
    ensures Failure(Message(EventMismatch)) == ("receipt_event_mismatch", true)
    ensures Failure(Message(PartiesMismatch)) == ("receipt_event_mismatch", true)
    ensures Failure(Message(WrongTarget)) == ("receipt_event_mismatch", true)
  {
    MismatchPlain();
    MismatchPlainParties();
    MismatchPlainEnds();
    MismatchPlainTarget();
    MismatchCode("ClaimSubmitted event ", " the authorized submission");
    MismatchCode("ClaimPartiesRecorded event ", " the authorized submission");
    MismatchCode("Submission target ", " the active gasless deployment");
  }

  lemma MismatchPlain()
    ensures Without("ClaimSubmitted event ", ',', '-', 'x')
  {
  }

  lemma MismatchPlainParties()
    ensures Without("ClaimPartiesRecorded event ", ',', '-', 'x')
  {
  }

  lemma MismatchPlainEnds()
    ensures Without(" the authorized submission", ',', '-', 'x') && Without("Submission target ", ',', '-', 'x')
  {
  }

  lemma MismatchPlainTarget()
    ensures Without(" the active gasless deployment", ',', '-', 'x')
  {
  }

  lemma MissingPlain()
    ensures Without("Relay transaction ", ',', '-', ',') && Without(" ClaimSubmitted event", ',', '-', ',')
    ensures Without("Public relay ", ',', '-', ',') && Without(" ClaimPartiesRecorded event", ',', '-', ',')
  {
  }

  lemma MissingCodes()
    ensures Failure(Message(EventMissing)) == ("receipt_event_missing", true)
    ensures Failure(Message(PartiesMissing)) == ("receipt_event_missing", true)
  {
    MissingPlain();
    MissingCode("Relay transaction ", " ClaimSubmitted event");
    MissingCode("Public relay ", " ClaimPartiesRecorded event");
  }

  /** The first five checks pass a text by. */
  lemma NotReceipt(m: string)
    requires Without(m, ',', '-', 'm') || (Without(m, ',', '-', 'x') && Lacks(m, 'h'))
    ensures !Contains(Lower(m), "invalid, expired, or uses a stale nonce")
    ensures !Contains(Lower(m), "reverted on-chain") && !Contains(Lower(m), "did not emit exactly one")
    ensures !Contains(Lower(m), "does not match") && !Contains(Lower(m), "target does not match")
  {
    NotEarly(m);
    NotMismatch(m);
    LetterMissing(m, "target does not match", if Lacks(m, 'm') then 16 else 20);
  }

  lemma RelayPlain()
    ensures Without("Relay transaction ", ',', '-', 'm')
  {
  }

  lemma GasCapPlain()
    ensures Without("exceeds the configured gas cap", ',', '-', 'm')
  {
  }

  lemma GasCapHeld()
    ensures Contains(Lower(Message(GasCap)), "exceeds the configured gas cap")
  {
    Holds("Relay transaction ", "exceeds the configured gas cap", "");
  }

  lemma GasCapCode()
    ensures Failure(Message(GasCap)) == ("transaction_gas_cap_exceeded", true)
  {
    RelayPlain();
    GasCapPlain();
    GasCapHeld();
    NotReceipt("Relay transaction " + "exceeds the configured gas cap" + "");
  }

  lemma DependencyPlain()
    ensures Without("Could not read the relay transaction receipt", ',', '-', 'm')
  {
  }

  lemma DependencyLacks()
    ensures Lacks("Could not read the relay transaction receipt", 'x')
  {
  }

  lemma DependencyCode()
    ensures Failure(Message(Dependency)) == ("relay_dependency_unavailable", false)
  {
    DependencyPlain();
    DependencyLacks();
    Unrecognised(Message(Dependency));
  }

  lemma Unrecognised(m: string)
    requires Without(m, ',', '-', 'm') && Lacks(m, 'x')
    ensures Failure(m) == ("relay_dependency_unavailable", false)
  {
    NotReceipt(m);
    LetterMissing(m, "exceeds the configured gas cap", 1);
    LetterMissing(m, "network fees exceed", 14);
    LetterMissing(m, "nonce was consumed", 15);
  }

  lemma NoncePlain()
    ensures Without("Relayer ", ',', '-', 'x') && Without("nonce was consumed", ',', '-', 'x')
    ensures Without(" by an unknown transaction", ',', '-', 'x')
  {
  }

  lemma NonceLacks()
    ensures Lacks("Relayer ", 'h') && Lacks("nonce was consumed", 'h') && Lacks(" by an unknown transaction", 'h')
  {
  }

  lemma Consumed(m: string)
    requires Without(m, ',', '-', 'x') && Lacks(m, 'h') && Contains(Lower(m), "nonce was consumed")
    ensures Failure(m) == ("relayer_nonce_conflict", false)
  {
    NotReceipt(m);
    LetterMissing(m, "exceeds the configured gas cap", 1);
    LetterMissing(m, "network fees exceed", 14);
  }

  lemma NonceCode()
    ensures Failure(Message(NonceConsumed)) == ("relayer_nonce_conflict", false)
  {
    NoncePlain();
    NonceLacks();
    Holds("Relayer ", "nonce was consumed", " by an unknown transaction");
    Consumed("Relayer " + "nonce was consumed" + " by an unknown transaction");
  }

  lemma FeeCapSplit()
    ensures "network fees exceed" == "network fees e" + "x" + "ceed"
  {
  }

  lemma Regroup(a: string, b: string, c: string, d: string)
    ensures a + (b + "x" + c) + d == (a + b) + "x" + (c + d)
  {
  }

  lemma FeeCapPlain()
    ensures Without("Current ", ',', '-', 'm') && Without("network fees e", ',', '-', 'm')
    ensures Without("ceed", ',', '-', 'm')
  {
  }

  lemma FeeCapPlainEnd()
    ensures Without(" the configured sponsorship cap", ',', '-', 'm')
  {
  }

  lemma FeeCapLacks()
    ensures Lacks("Current ", 'x') && Lacks("network fees e", 'x') && Lacks("ceed", 'x')
    ensures Lacks(" the configured sponsorship cap", 'x')
  {
  }

  lemma OnlyOne(a: string, b: string, i: nat)
    requires Lacks(a, 'x') && Lacks(b, 'x') && i < |a + "x" + b| && LowerChar((a + "x" + b)[i]) == 'x'
    ensures i == |a|
  {
    forall j | 0 <= j < |a| ensures LowerChar(a[j]) != 'x' { assert a[j] in a; }
    forall j | 0 <= j < |b| ensures LowerChar(b[j]) != 'x' { assert b[j] in b; }
  }

  /** The only x is not followed by "ceeds". */
  lemma NotGasCap(a: string, b: string)
    requires Lacks(a, 'x') && Lacks(b, 'x') && |b| > 4 && LowerChar(b[4]) != 's'
    ensures !Contains(Lower(a + "x" + b), "exceeds the configured gas cap")
  {
    var m, part := a + "x" + b, "exceeds the configured gas cap";
    forall i | 0 <= i <= |m| ensures !OccursAt(Lower(m), part, i) {
      if OccursAt(Lower(m), part, i) {
        LetterOccurs(m, part, i, 1);
        OnlyOne(a, b, i + 1);
        LetterOccurs(m, part, i, 6);
      }
    }
  }

  lemma FeesTooHigh(m: string, a: string, b: string)
    requires m == a + "x" + b && Without(m, ',', '-', 'm') && Contains(Lower(m), "network fees exceed")
    requires Lacks(a, 'x') && Lacks(b, 'x') && |b| > 4 && LowerChar(b[4]) != 's'
    ensures Failure(m) == ("fee_cap_exceeded", false)
  {
    NotReceipt(m);
    NotGasCap(a, b);
  }

  lemma FeeCapCode()
    ensures Failure(Message(FeeCap)) == ("fee_cap_exceeded", false)
  {
    FeeCapPlain();
    FeeCapPlainEnd();
    FeeCapLacks();
    FeeCapSplit();
    Regroup("Current ", "network fees e", "ceed", " the configured sponsorship cap");
    Holds("Current ", "network fees exceed", " the configured sponsorship cap");
    FeesTooHigh(Message(FeeCap), "Current " + "network fees e", "ceed" + " the configured sponsorship cap");
  }

  /** The code reported for each error. A wrong deployment goes as a mismatching receipt. */
  lemma ReportedCodes(e: Error)
    ensures Failure(Message(e)) ==
              match e
              case AuthorizationInvalid => ("authorization_invalid", true)
              case Reverted => ("relay_reverted", true)
              case EventMissing => ("receipt_event_missing", true)
              case PartiesMissing => ("receipt_event_missing", true)
              case EventMismatch => ("receipt_event_mismatch", true)
              case PartiesMismatch => ("receipt_event_mismatch", true)
              case WrongTarget => ("receipt_event_mismatch", true)
              case GasCap => ("transaction_gas_cap_exceeded", true)
              case FeeCap => ("fee_cap_exceeded", false)
              case NonceConsumed => ("relayer_nonce_conflict", false)
              case Dependency => ("relay_dependency_unavailable", false)
  {
    match e
    case AuthorizationInvalid => AuthorizationCode();
    case Reverted => RevertedCode();
    case EventMissing => MissingCodes();
    case PartiesMissing => MissingCodes();
    case EventMismatch => MismatchCodes();
    case PartiesMismatch => MismatchCodes();
    case WrongTarget => MismatchCodes();
    case GasCap => GasCapCode();
    case FeeCap => FeeCapCode();
    case NonceConsumed => NonceCode();
    case Dependency => DependencyCode();
  }

  /** Only an unreadable chain, fees above the cap and a consumed nonce leave a request alive. */
  lemma TerminalIff(e: Error)
    ensures Terminal(e) <==> !e.Dependency? && !e.FeeCap? && !e.NonceConsumed?
  {
    ReportedCodes(e);
  }

  /** Every refusal of a receipt ends the request. */
  lemma RefusalsAreTerminal(a: Authorization, r: Events)
    requires Confirm(a, r).Refused?
    ensures Terminal(Confirm(a, r).error)
  {
    TerminalIff(Confirm(a, r).error);
  }
}
