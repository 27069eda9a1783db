/** Wallet session tokens: three dot-separated parts, the middle one a signed payload.
    The digests, the checksum spelling of an address and the clock are parameters. */
module Sessions {
  import opened Text
  import opened ClaimIndex
  import opened Codecs
  import B = Base64
  import J = Json

  const SECOND: int := 1_000_000          // clock readings are in microseconds

  /** `mac` signs a token's text, `subject` names a wallet's owner, `checksum` spells an
      address canonically or refuses it. */
  datatype Keys = Keys(mac: string -> seq<B.Byte>, subject: string -> string, checksum: string -> Option<string>)

  datatype Session = Session(subjectId: string, address: string, expires: int)

  datatype Issued = Issued(token: string, expires: int, address: string)

  const SUBJECT_LENGTH := 73

  /** What the library functions behind the keys promise. */
  ghost predicate Sound(k: Keys) {
    && (forall t :: k.mac(t) != [])
    && (forall w :: |k.subject(w)| == SUBJECT_LENGTH && "claimant-" <= k.subject(w))
    && (forall v, w :: Lower(v) == Lower(w) ==> k.subject(v) == k.subject(w))
    && (forall w :: k.checksum(w).Some? ==>
          Lower(k.checksum(w).value) == Lower(w) && k.checksum(k.checksum(w).value) == k.checksum(w))
  }

  function Payload(k: Keys, wallet: string, address: string, now: nat, ttl: nat): seq<J.Field> {
    [J.Field("address", J.Str(address)), J.Field("exp", J.Int((now + ttl * SECOND) / SECOND)),
     J.Field("iat", J.Int(now / SECOND)), J.Field("sub", J.Str(k.subject(wallet))), J.Field("version", J.Int(1))]
  }

  function Sign(k: Keys, payload: string): string { "v1." + payload + "." + B.Encode(k.mac("v1." + payload)) }

  /** The end of `create_session`, once the challenge is consumed for `wallet`. */
  function CreateSession(k: Keys, wallet: string, now: nat, ttl: nat): Option<Issued> {
    match k.checksum(wallet)
    case None => None
    case Some(address) =>
      Some(Issued(Sign(k, Pack(J.Dict(Payload(k, wallet, address, now, ttl)))), now + ttl * SECOND, address))
  }

  /** `str.split(".")`. */
  function Split(s: string): (parts: seq<string>)
    ensures parts != []
  {
    if s == "" then [""]
    else
      var rest := Split(s[1..]);
      if s[0] == '.' then [""] + rest else [[s[0]] + rest[0]] + rest[1..]
  }

  /** `_b64decode`: empty values and white space are refused, other characters skipped. */
  function Decode(s: string): Option<seq<B.Byte>> {
    if s == "" || exists i | 0 <= i < |s| :: IsSpace(s[i]) then None else B.Decode(s, false)
  }

  function Names(fields: seq<J.Field>): set<string> { set i | 0 <= i < |fields| :: fields[i].name }

  predicate PayloadNames(fields: seq<J.Field>) {
    Names(fields) == {"address", "exp", "iat", "sub", "version"}
  }

  /** `authenticate`; None stands for every refusal. */
  function Authenticate(k: Keys, token: string, now: int): Option<Session> {
    var parts := Split(token);
    if |parts| != 3 || parts[0] != "v1" then None
    else
      match (Decode(parts[2]), Decode(parts[1]))
      case (Some(signature), Some(bytes)) =>
        if signature != k.mac("v1." + parts[1]) then None
        else
          (match FromUtf8(bytes)
           case None => None
           case Some(text) => Verify(k, J.Parse(text), now))
      case _ => None
  }

  function Verify(k: Keys, payload: Option<J.Json>, now: int): Option<Session> {
    match payload
    case Some(Dict(f)) =>
      if !PayloadNames(f) then None
      else
        (match (Get(f, "version"), Get(f, "address"), Get(f, "sub"), Get(f, "exp"), Get(f, "iat"))
         case (Some(version), Some(Str(raw)), Some(Str(subject)), Some(Int(exp)), Some(Int(iat))) =>
           if !IsOne(version) || k.checksum(raw) == None then None
           else
             var address := k.checksum(raw).value;
             if exp * SECOND <= now || iat * SECOND > now + 30 * SECOND then None
             else if !("claimant-" <= subject) || |subject| != SUBJECT_LENGTH || subject != k.subject(address) then None
             else Some(Session(subject, address, exp * SECOND))
         case _ => None)
    case _ => None
  }

  // -------------------------------------------------------------------- round trip

  lemma {:induction false} SplitWithoutDots(s: string)
    requires '.' !in s
    ensures Split(s) == [s]
  {
    if s != "" {
      SplitWithoutDots(s[1..]);
      assert s == [s[0]] + s[1..];
    }
  }

  lemma {:induction false} SplitAtDot(a: string, b: string)
    requires '.' !in a
    ensures Split(a + "." + b) == [a] + Split(b)
  {
    var s := a + "." + b;
    if a == "" {
      assert s[0] == '.' && s[1..] == b;
    } else {
      SplitAtDot(a[1..], b);
      assert s[1..] == a[1..] + "." + b && s[0] == a[0] && a == [a[0]] + a[1..];
    }
  }

  /** A token splits into exactly its three parts. */
  lemma TokenSplits(p: string, q: string)
    requires '.' !in p && '.' !in q
    ensures Split("v1." + p + "." + q) == ["v1", p, q]
  {
    assert "v1." + p + "." + q == "v1" + "." + (p + "." + q);
    SplitAtDot("v1", p + "." + q);
    SplitAtDot(p, q);
    SplitWithoutDots(q);
  }

  lemma NoSpaces(s: string)
    requires s != "" && forall c :: c in s ==> ' ' < c <= '~'
    ensures Decode(s) == B.Decode(s, false)
  {
    forall i | 0 <= i < |s| ensures !IsSpace(s[i]) { assert s[i] in s; }
  }

  lemma PayloadFound(k: Keys, wallet: string, address: string, now: nat, ttl: nat)
    ensures var f := Payload(k, wallet, address, now, ttl);
            && PayloadNames(f)
            && Get(f, "address") == Some(J.Str(address)) && Get(f, "sub") == Some(J.Str(k.subject(wallet)))
            && Get(f, "exp") == Some(J.Int((now + ttl * SECOND) / SECOND))
            && Get(f, "iat") == Some(J.Int(now / SECOND)) && Get(f, "version") == Some(J.Int(1))
  {
    var f := Payload(k, wallet, address, now, ttl);
    assert f[0].name == "address" && f[1].name == "exp" && f[2].name == "iat" && f[3].name == "sub" && f[4].name == "version";
    assert f[0].name[0] == 'a' && f[1].name[0] == 'e' && f[2].name[0] == 'i' && f[3].name[0] == 's' && f[4].name[0] == 'v';
    assert forall i, j :: 0 <= i < j < 5 ==> f[i].name[0] != f[j].name[0];
    forall i | 0 <= i < 5 ensures Get(f, f[i].name) == Some(f[i].value) { GetFinds(f, i); }
    var names := Names(f);
    assert f[0].name in names && f[1].name in names && f[2].name in names && f[3].name in names && f[4].name in names;
  }

  /** The payload a token carries is accepted at `t` exactly from half a minute before
      the whole second of its issue until the whole second of its expiry. */
  lemma PayloadAccepted(k: Keys, wallet: string, address: string, now: nat, ttl: nat, t: int)
    requires Sound(k) && k.checksum(wallet) == Some(address)
    ensures Verify(k, Some(J.Dict(Payload(k, wallet, address, now, ttl))), t)
         == if t < (now / SECOND + ttl) * SECOND && now / SECOND * SECOND <= t + 30 * SECOND
            then Some(Session(k.subject(wallet), address, (now / SECOND + ttl) * SECOND)) else None
  {
    PayloadFound(k, wallet, address, now, ttl);
    assert (now + ttl * SECOND) / SECOND == now / SECOND + ttl;
    assert k.subject(address) == k.subject(wallet);
  }

  /** An issued token splits into exactly three parts and authenticates, to the wallet's
      address and subject, at exactly those times. */
  lemma IssuedAuthenticates(k: Keys, wallet: string, now: nat, ttl: nat, t: int)
    requires Sound(k) && k.checksum(wallet).Some?
    ensures var issued := CreateSession(k, wallet, now, ttl).value;
            && |Split(issued.token)| == 3
            && issued.address == k.checksum(wallet).value
            && Authenticate(k, issued.token, t)
               == if t < (now / SECOND + ttl) * SECOND && now / SECOND * SECOND <= t + 30 * SECOND
                  then Some(Session(k.subject(wallet), issued.address, (now / SECOND + ttl) * SECOND)) else None
  {
    var address := k.checksum(wallet).value;
    var v := J.Dict(Payload(k, wallet, address, now, ttl));
    var p := Pack(v);
    TokenRead(k, v, t);
    PayloadAccepted(k, wallet, address, now, ttl, t);
  }

  /** A signed payload is read back and verified as it was packed. */
  lemma TokenRead(k: Keys, v: J.Json, t: int)
    requires Sound(k)
    ensures |Split(Sign(k, Pack(v)))| == 3
    ensures Authenticate(k, Sign(k, Pack(v)), t) == Verify(k, Some(v), t)
  {
    var p := Pack(v);
    var signature := k.mac("v1." + p);
    var q := B.Encode(signature);
    PackCharacters(v);
    B.EncodedCharacters(signature);
    TokenSplits(p, q);
    NoSpaces(p);
    NoSpaces(q);
    B.RoundTrip(signature, false);
    PayloadBytes(v);
  }

  lemma PayloadBytes(v: J.Json)
    ensures B.Decode(Pack(v), false).Some? && FromUtf8(B.Decode(Pack(v), false).value).Some?
    ensures J.Parse(FromUtf8(B.Decode(Pack(v), false).value).value) == Some(v)
  {
    PackRoundTrip(v, false);
  }

  // ---------------------------------------------------------------- what is accepted

  /** `text` encodes `bytes`: nonempty, without white space, in the lenient alphabet. */
  predicate Encodes(text: string, bytes: seq<B.Byte>) {
    text != "" && (forall c :: c in text ==> !IsSpace(c)) && B.Decode(text, false) == Some(bytes)
  }

  /** The part `text` packs a payload object with these fields. */
  ghost predicate PacksObject(text: string, f: seq<J.Field>) {
    exists bytes, payload :: Encodes(text, bytes) && FromUtf8(bytes) == Some(payload) && J.Parse(payload) == Some(J.Dict(f))
  }

  /** The fields of an unexpired session: exactly the five names, version 1, an address,
      its own subject, an expiry after `now` and an issue at most half a minute ahead. */
  ghost predicate SessionFields(k: Keys, f: seq<J.Field>, now: int, session: Session) {
    && (forall i :: 0 <= i < |f| ==> f[i].name in {"address", "exp", "iat", "sub", "version"})
    && (LastIs(f, "version", J.Int(1)) || LastIs(f, "version", J.Bool(true)))
    && (exists raw :: LastIs(f, "address", J.Str(raw)) && k.checksum(raw) == Some(session.address))
    && session.subjectId == k.subject(session.address) && LastIs(f, "sub", J.Str(session.subjectId))
    && "claimant-" <= session.subjectId && |session.subjectId| == 73
    && (exists exp :: LastIs(f, "exp", J.Int(exp)) && session.expires == exp * SECOND && now < session.expires)
    && (exists iat :: LastIs(f, "iat", J.Int(iat)) && iat * SECOND <= now + 30 * SECOND)
  }

  lemma DecodeIff(text: string, bytes: seq<B.Byte>)
    ensures Decode(text) == Some(bytes) <==> Encodes(text, bytes)
  {
    if forall c :: c in text ==> !IsSpace(c) {
      forall i | 0 <= i < |text| ensures !IsSpace(text[i]) { assert text[i] in text; }
    }
  }

  /** `".".join(parts)`. */
  function Joined(parts: seq<string>): string
    requires parts != []
  {
    if |parts| == 1 then parts[0] else parts[0] + "." + Joined(parts[1..])
  }

  lemma JoinedWithDot(rest: seq<string>)
    requires rest != []
    ensures Joined([""] + rest) == "." + Joined(rest)
  {
    assert ([""] + rest)[1..] == rest;
  }

  lemma JoinedWithLetter(c: char, rest: seq<string>)
    requires rest != []
    ensures Joined([[c] + rest[0]] + rest[1..]) == [c] + Joined(rest)
  {
    var parts := [[c] + rest[0]] + rest[1..];
    assert parts[1..] == rest[1..];
    if |rest| > 1 { assert [c] + rest[0] + "." + Joined(rest[1..]) == [c] + (rest[0] + "." + Joined(rest[1..])); }
  }

  /** Splitting loses nothing: the parts have no dots, and joined by dots they are the text. */
  lemma {:induction false} SplitJoins(s: string)
    ensures forall i :: 0 <= i < |Split(s)| ==> '.' !in Split(s)[i]
    ensures Joined(Split(s)) == s
  {
    if s != "" {
      var rest := Split(s[1..]);
      SplitJoins(s[1..]);
      JoinedWithDot(rest);
      JoinedWithLetter(s[0], rest);
      assert s == [s[0]] + s[1..];
    }
  }

  lemma JoinedThree(a: string, b: string, c: string)
    ensures Joined([a, b, c]) == a + "." + (b + "." + c)
  {
    assert [a, b, c][1..] == [b, c] && [b, c][1..] == [c];
    assert Joined([b, c]) == b + "." + Joined([c]);
  }

  lemma ThreeParts(token: string, p: string, q: string)
    ensures Split(token) == ["v1", p, q] <==> '.' !in p && '.' !in q && token == "v1." + p + "." + q
  {
    if Split(token) == ["v1", p, q] {
      SplitJoins(token);
      JoinedThree("v1", p, q);
      assert p == Split(token)[1] && q == Split(token)[2];
      assert "v1" + "." + (p + "." + q) == "v1." + p + "." + q;
    }
    if '.' !in p && '.' !in q && token == "v1." + p + "." + q {
      TokenSplits(p, q);
    }
  }

  predicate Named(f: seq<J.Field>, name: string) { exists i :: 0 <= i < |f| && f[i].name == name }

  lemma NamesOf(f: seq<J.Field>)
    requires forall i :: 0 <= i < |f| ==> f[i].name in {"address", "exp", "iat", "sub", "version"}
    requires Named(f, "address") && Named(f, "exp") && Named(f, "iat") && Named(f, "sub") && Named(f, "version")
    ensures PayloadNames(f)
  {
    var names := Names(f);
    forall name | name in names ensures name in {"address", "exp", "iat", "sub", "version"} { }
    forall name | Named(f, name) ensures name in names {
      var i :| 0 <= i < |f| && f[i].name == name;
    }
  }

  lemma NamesKnown(f: seq<J.Field>)
    requires PayloadNames(f)
    ensures forall i :: 0 <= i < |f| ==> f[i].name in {"address", "exp", "iat", "sub", "version"}
  {
    var names := Names(f);
    forall i | 0 <= i < |f| ensures f[i].name in {"address", "exp", "iat", "sub", "version"} { assert f[i].name in names; }
  }

  lemma VerifiedOnly(k: Keys, f: seq<J.Field>, now: int, session: Session)
    requires Verify(k, Some(J.Dict(f)), now) == Some(session)
    ensures SessionFields(k, f, now, session)
  {
    NamesKnown(f);
    var version, raw := Get(f, "version").value, Get(f, "address").value.s;
    GetIsLast(f, "version", version);
    GetIsLast(f, "address", J.Str(raw));
    GetIsLast(f, "sub", J.Str(session.subjectId));
    GetIsLast(f, "exp", Get(f, "exp").value);
    GetIsLast(f, "iat", Get(f, "iat").value);
  }

  lemma FieldsGot(k: Keys, f: seq<J.Field>, now: int, session: Session)
      returns (version: J.Json, raw: string, exp: int, iat: int)
    requires SessionFields(k, f, now, session)
    ensures Get(f, "version") == Some(version) && IsOne(version) && PayloadNames(f)
    ensures Get(f, "address") == Some(J.Str(raw)) && k.checksum(raw) == Some(session.address)
    ensures Get(f, "sub") == Some(J.Str(session.subjectId))
    ensures Get(f, "exp") == Some(J.Int(exp)) && session.expires == exp * SECOND && now < session.expires
    ensures Get(f, "iat") == Some(J.Int(iat)) && iat * SECOND <= now + 30 * SECOND
  {
    raw :| LastIs(f, "address", J.Str(raw)) && k.checksum(raw) == Some(session.address);
    exp :| LastIs(f, "exp", J.Int(exp)) && session.expires == exp * SECOND && now < session.expires;
    iat :| LastIs(f, "iat", J.Int(iat)) && iat * SECOND <= now + 30 * SECOND;
    version := if LastIs(f, "version", J.Int(1)) then J.Int(1) else J.Bool(true);
    Found(f, "version", version);
    Found(f, "address", J.Str(raw));
    Found(f, "sub", J.Str(session.subjectId));
    Found(f, "exp", J.Int(exp));
    Found(f, "iat", J.Int(iat));
    NamesOf(f);
  }

  lemma FieldsVerified(k: Keys, f: seq<J.Field>, now: int, session: Session)
    requires SessionFields(k, f, now, session)
    ensures Verify(k, Some(J.Dict(f)), now) == Some(session)
  {
    var version, raw, exp, iat := FieldsGot(k, f, now, session);
  }

  lemma Found(f: seq<J.Field>, name: string, v: J.Json)
    requires LastIs(f, name, v)
    ensures Get(f, name) == Some(v) && Named(f, name)
  {
    GetIsLast(f, name, v);
    var i :| 0 <= i < |f| && f[i] == J.Field(name, v);
  }

  /** A token authenticates to a session at a time exactly when it has three parts, its
      last part encodes the signature of the first two, and its payload carries that
      session, unexpired. No other token does. */
  lemma AuthenticatedIff(k: Keys, token: string, now: int, session: Session)
    ensures Authenticate(k, token, now) == Some(session)
      <==> exists p, q, f :: '.' !in p && '.' !in q && token == "v1." + p + "." + q
             && Encodes(q, k.mac("v1." + p)) && PacksObject(p, f) && SessionFields(k, f, now, session)
  {
    if Authenticate(k, token, now) == Some(session) {
      AuthenticatedOnly(k, token, now, session);
    }
    forall p, q, f | '.' !in p && '.' !in q && token == "v1." + p + "." + q
                     && Encodes(q, k.mac("v1." + p)) && PacksObject(p, f) && SessionFields(k, f, now, session)
      ensures Authenticate(k, token, now) == Some(session)
    {
      ThreeParts(token, p, q);
      DecodeIff(q, k.mac("v1." + p));
      var bytes, payload :| Encodes(p, bytes) && FromUtf8(bytes) == Some(payload) && J.Parse(payload) == Some(J.Dict(f));
      DecodeIff(p, bytes);
      FieldsVerified(k, f, now, session);
    }
  }

  lemma AuthenticatedOnly(k: Keys, token: string, now: int, session: Session)
    requires Authenticate(k, token, now) == Some(session)
    ensures exists p, q, f :: '.' !in p && '.' !in q && token == "v1." + p + "." + q
              && Encodes(q, k.mac("v1." + p)) && PacksObject(p, f) && SessionFields(k, f, now, session)
  {
    var parts := Split(token);
    var p, q := parts[1], parts[2];
    assert parts == ["v1", p, q];
    ThreeParts(token, p, q);
    var bytes := Decode(p).value;
    DecodeIff(p, bytes);
    DecodeIff(q, Decode(q).value);
    var f := J.Parse(FromUtf8(bytes).value).value.fields;
    VerifiedOnly(k, f, now, session);
    assert PacksObject(p, f);
  }

  /** A token whose last part encodes anything but the signature is refused at all times. */
  lemma ForgedRefused(k: Keys, p: string, q: string, now: int)
    requires '.' !in p && '.' !in q && !Encodes(q, k.mac("v1." + p))
    ensures Authenticate(k, "v1." + p + "." + q, now) == None
  {
    TokenSplits(p, q);
    DecodeIff(q, k.mac("v1." + p));
  }

  /** The advertised expiry is less than a second later than the enforced one: a token
      issued off the whole second is refused before the time its owner was told. */
  lemma AdvertisedExpiryIsLater(k: Keys, wallet: string, now: nat, ttl: nat)
    requires Sound(k) && k.checksum(wallet).Some? && ttl > 0
    ensures var issued := CreateSession(k, wallet, now, ttl).value;
            && (now / SECOND + ttl) * SECOND <= issued.expires < (now / SECOND + ttl) * SECOND + SECOND
            && ((exists t :: now <= t < issued.expires && Authenticate(k, issued.token, t) == None)
                <==> now % SECOND != 0)
  {
    var issued := CreateSession(k, wallet, now, ttl).value;
    forall t ensures Authenticate(k, issued.token, t) == None
      <==> !(t < (now / SECOND + ttl) * SECOND && now / SECOND * SECOND <= t + 30 * SECOND)
    {
      IssuedAuthenticates(k, wallet, now, ttl, t);
    }
    assert issued.expires - now % SECOND == (now / SECOND + ttl) * SECOND;
    if now % SECOND != 0 {
      var last := issued.expires - 1;
      assert Authenticate(k, issued.token, last) == None;
      assert now <= last;
    }
  }

  /** `_b64decode` inverts `_b64encode` on every byte string but the empty one, which it
      refuses. */
  lemma Base64Law(s: seq<B.Byte>)
    ensures Decode(B.Encode(s)) == if s == [] then None else Some(s)
  {
    B.EncodedCharacters(s);
    if s != [] {
      NoSpaces(B.Encode(s));
      B.RoundTrip(s, false);
    }
  }
}
