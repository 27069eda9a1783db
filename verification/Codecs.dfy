/** Opaque texts built from JSON: pagination cursors, Kafka messages and session tokens. */
module Codecs {
  import opened Text
  import opened ClaimIndex
  import B = Base64
  import J = Json
  import K = Keyset

  /** `encode("utf-8")` of ASCII text. */
  function Utf8(s: string): seq<B.Byte>
    requires J.Ascii(s)
  {
    seq(|s|, i requires 0 <= i < |s| => s[i] as nat)
  }

  /** `decode("utf-8")`; a multi-byte sequence is not modelled and reads as an error. */
  function FromUtf8(b: seq<B.Byte>): Option<string> {
    if exists i | 0 <= i < |b| :: b[i] >= 128 then None
    else Some(seq(|b|, i requires 0 <= i < |b| && b[i] < 128 => b[i] as char))
  }

  lemma Utf8RoundTrip(s: string)
    requires J.Ascii(s)
    ensures FromUtf8(Utf8(s)) == Some(s)
  {
    var b := Utf8(s);
    assert forall i :: 0 <= i < |b| ==> b[i] < 128;
    var t := FromUtf8(b).value;
    assert forall i :: 0 <= i < |t| ==> t[i] == s[i];
    assert t == s;
  }

  /** A printed value as unpadded base64url. */
  function Pack(v: J.Json): string {
    J.PrintIsAscii(v);
    B.Encode(Utf8(J.Print(v)))
  }

  function Unpack(s: string, strict: bool): Option<J.Json> {
    match B.Decode(s, strict)
    case None => None
    case Some(bytes) =>
      match FromUtf8(bytes)
      case None => None
      case Some(text) => J.Parse(text)
  }

  lemma PackRoundTrip(v: J.Json, strict: bool)
    ensures Unpack(Pack(v), strict) == Some(v)
  {
    J.PrintIsAscii(v);
    B.RoundTrip(Utf8(J.Print(v)), strict);
    Utf8RoundTrip(J.Print(v));
    J.RoundTrip(v);
  }

  lemma PackCharacters(v: J.Json)
    ensures Pack(v) != "" && forall c :: c in Pack(v) ==> c != '.' && ' ' < c <= '~'
  {
    J.PrintIsAscii(v);
    J.PrintStart(v);
    B.EncodedCharacters(Utf8(J.Print(v)));
  }

  /** Python's `== 1`, which also holds of True. */
  predicate IsOne(v: J.Json) { v == J.Int(1) || v == J.Bool(true) }

  // ----------------------------------------------------------------------- cursors

  /** `_encode_event_cursor`. */
  function EncodeCursor(p: K.Pos): string {
    Pack(J.List([J.Int(1), J.Int(p.block), J.Int(p.index), J.Str(p.id)]))
  }

  /** `_decode_event_cursor` of a cursor that is present. */
  function DecodeCursor(s: string): Option<K.Pos> {
    match Unpack(s, true)
    case Some(List(v)) =>
      if |v| == 4 && IsOne(v[0]) && v[1].Int? && v[1].n >= 0 && v[2].Int? && v[2].n >= 0 && v[3].Str? && v[3].s != ""
      then Some(K.Pos(v[1].n, v[2].n, v[3].s))
      else None
    case _ => None
  }

  /** A cursor carries its position, for every position a stored event can have; one
      with an empty event id, which no stored event has, is refused. */
  lemma CursorRoundTrip(p: K.Pos)
    ensures DecodeCursor(EncodeCursor(p)) == if p.id == "" then None else Some(p)
  {
    PackRoundTrip(J.List([J.Int(1), J.Int(p.block), J.Int(p.index), J.Str(p.id)]), true);
  }

  /** A text is a cursor of position `p` exactly when it packs a list of the version, a
      block number, a log index and a nonempty id: Python's True passes for the version. */
  lemma CursorReadIff(s: string, p: K.Pos)
    ensures DecodeCursor(s) == Some(p)
      <==> p.id != ""
           && exists one :: (one == J.Int(1) || one == J.Bool(true))
                            && Unpack(s, true) == Some(J.List([one, J.Int(p.block), J.Int(p.index), J.Str(p.id)]))
  {
    match Unpack(s, true)
    case Some(List(v)) =>
      if |v| == 4 { assert v == [v[0], v[1], v[2], v[3]]; }
      assert |[J.Null, J.Null, J.Null, J.Null]| == 4;
    case _ =>
  }

  // ------------------------------------------------------------------ Kafka messages

  const SCHEMA_VERSION := 1
  const EVENT_TYPE := "ClaimSubmitted"

  datatype Message = Message(
    schemaVersion: int, eventType: string, eventId: string, chainId: int, contract: string, claimId: int,
    claimant: string, claimHash: string, pointer: string, block: int, blockHash: string, tx: string,
    logIndex: int, time: int)

  function Fields(m: Message): seq<J.Field> {
    [J.Field("block_hash", J.Str(m.blockHash)), J.Field("block_number", J.Int(m.block)),
     J.Field("chain_id", J.Int(m.chainId)), J.Field("claim_hash", J.Str(m.claimHash)),
     J.Field("claim_id", J.Int(m.claimId)), J.Field("claimant", J.Str(m.claimant)),
     J.Field("contract_address", J.Str(m.contract)), J.Field("data_pointer", J.Str(m.pointer)),
     J.Field("event_id", J.Str(m.eventId)), J.Field("event_timestamp", J.Int(m.time)),
     J.Field("event_type", J.Str(m.eventType)), J.Field("log_index", J.Int(m.logIndex)),
     J.Field("schema_version", J.Int(m.schemaVersion)), J.Field("transaction_hash", J.Str(m.tx))]
  }

  /** `to_json_bytes`: keys in sorted order. */
  function ToJson(m: Message): string { J.Print(J.Dict(Fields(m))) }

  /** `dict.get` after parsing: the last of equal keys wins. */
  function Get(fields: seq<J.Field>, name: string): Option<J.Json> {
    if fields == [] then None
    else if fields[|fields| - 1].name == name then Some(fields[|fields| - 1].value)
    else Get(fields[..|fields| - 1], name)
  }

  /** The value of the last field of that name. */
  ghost predicate LastIs(fields: seq<J.Field>, name: string, v: J.Json) {
    exists i :: 0 <= i < |fields| && fields[i] == J.Field(name, v)
                && forall j :: i < j < |fields| ==> fields[j].name != name
  }

  lemma {:induction false} GetIsLast(fields: seq<J.Field>, name: string, v: J.Json)
    ensures Get(fields, name) == Some(v) <==> LastIs(fields, name, v)
  {
    if fields != [] {
      var n := |fields| - 1;
      GetIsLast(fields[..n], name, v);
      if fields[n].name == name {
        if LastIs(fields, name, v) { assert fields[n] == J.Field(name, v); }
      } else {
        if LastIs(fields[..n], name, v) {
          var i :| 0 <= i < n && fields[..n][i] == J.Field(name, v) && forall j :: i < j < n ==> fields[..n][j].name != name;
          assert fields[i] == J.Field(name, v);
        }
        if LastIs(fields, name, v) {
          var i :| 0 <= i <= n && fields[i] == J.Field(name, v) && forall j :: i < j <= n ==> fields[j].name != name;
          assert fields[..n][i] == J.Field(name, v);
        }
      }
    }
  }

  predicate Blank(s: string) { forall i :: 0 <= i < |s| ==> IsSpace(s[i]) }

  function RequiredInt(v: Option<J.Json>, minimum: int): Option<int> {
    match v
    case Some(Int(n)) => if n >= minimum then Some(n) else None
    case _ => None
  }

  function RequiredText(v: Option<J.Json>): Option<string> {
    match v
    case Some(Str(s)) => if Blank(s) then None else Some(s)
    case _ => None
  }

  /** `from_json_bytes`; None is the decode error. */
  function FromJson(text: string): Option<Message> {
    match J.Parse(text)
    case Some(Dict(fields)) => FromParts(PartsOf(fields))
    case _ => None
  }

  /** The checked values of one message; None where a check failed. */
  datatype Parts = Parts(version: Option<int>, kind: Option<string>, id: Option<string>, chain: Option<int>,
                         contract: Option<string>, claim: Option<int>, claimant: Option<string>, hash: Option<string>,
                         pointer: Option<string>, block: Option<int>, blockHash: Option<string>, tx: Option<string>,
                         index: Option<int>, time: Option<int>)

  function PartsOf(f: seq<J.Field>): Parts {
    Parts(RequiredInt(Get(f, "schema_version"), 1), RequiredText(Get(f, "event_type")),
          RequiredText(Get(f, "event_id")), RequiredInt(Get(f, "chain_id"), 1),
          RequiredText(Get(f, "contract_address")), RequiredInt(Get(f, "claim_id"), 0),
          RequiredText(Get(f, "claimant")), RequiredText(Get(f, "claim_hash")),
          RequiredText(Get(f, "data_pointer")), RequiredInt(Get(f, "block_number"), 0),
          RequiredText(Get(f, "block_hash")), RequiredText(Get(f, "transaction_hash")),
          RequiredInt(Get(f, "log_index"), 0), RequiredInt(Get(f, "event_timestamp"), 0))
  }

  function FromParts(p: Parts): Option<Message> {
    if p.version == None || p.chain == None || p.claim == None || p.block == None || p.index == None || p.time == None
       || p.kind == None || p.id == None || p.contract == None || p.claimant == None || p.hash == None
       || p.pointer == None || p.blockHash == None || p.tx == None then None
    else if p.version.value != SCHEMA_VERSION || p.kind.value != EVENT_TYPE then None
    else if p.chain.value < 0 || p.index.value < 0
            || p.id.value != EventId(p.chain.value, p.tx.value, p.index.value) then None
    else if !("ipfs://" <= p.pointer.value) then None
    else Some(Message(p.version.value, p.kind.value, p.id.value, p.chain.value, p.contract.value, p.claim.value,
                      p.claimant.value, p.hash.value, p.pointer.value, p.block.value, p.blockHash.value, p.tx.value,
                      p.index.value, p.time.value))
  }

  /** An event of the supported schema about one chain log. */
  predicate WellFormed(m: Message) {
    && m.schemaVersion == SCHEMA_VERSION && m.eventType == EVENT_TYPE
    && m.chainId >= 1 && m.claimId >= 0 && m.block >= 0 && m.logIndex >= 0 && m.time >= 0
    && !Blank(m.contract) && !Blank(m.claimant) && !Blank(m.claimHash) && !Blank(m.blockHash) && !Blank(m.tx)
    && m.eventId == EventId(m.chainId, m.tx, m.logIndex)
    && "ipfs://" <= m.pointer
  }

  /** Sorted names, compared at the letters that tell them apart. */
  predicate NameBelow(a: string, b: string) {
    |a| >= 8 && |b| >= 8 &&
    (a[0] < b[0] || (a[0] == b[0] &&
     (a[1] < b[1] || (a[1] == b[1] &&
      (a[5] < b[5] || (a[5] == b[5] &&
       (a[6] < b[6] || (a[6] == b[6] && a[7] < b[7]))))))))
  }

  ghost predicate NamesRise(fields: seq<J.Field>) {
    forall i :: 0 < i < |fields| ==> NameBelow(fields[i - 1].name, fields[i].name)
  }

  lemma {:induction false} RisingApart(fields: seq<J.Field>, i: nat, j: nat)
    requires NamesRise(fields) && i < j < |fields|
    ensures NameBelow(fields[i].name, fields[j].name)
  {
    if i < j - 1 { RisingApart(fields, i, j - 1); }
  }

  ghost predicate NamesApart(fields: seq<J.Field>) {
    forall i, j :: 0 <= i < j < |fields| ==> fields[i].name != fields[j].name
  }

  /** Under distinct names each field is found. */
  lemma {:induction false} GetFinds(fields: seq<J.Field>, i: nat)
    requires NamesApart(fields) && i < |fields|
    ensures Get(fields, fields[i].name) == Some(fields[i].value)
  {
    if i < |fields| - 1 { GetFinds(fields[..|fields| - 1], i); }
  }

  lemma FieldNamesRise(m: Message)
    ensures NamesRise(Fields(m))
  {
    var f := Fields(m);
    assert NameBelow(f[0].name, f[1].name) && NameBelow(f[1].name, f[2].name) && NameBelow(f[2].name, f[3].name);
    assert NameBelow(f[3].name, f[4].name) && NameBelow(f[4].name, f[5].name) && NameBelow(f[5].name, f[6].name);
    assert NameBelow(f[6].name, f[7].name) && NameBelow(f[7].name, f[8].name) && NameBelow(f[8].name, f[9].name);
    assert NameBelow(f[9].name, f[10].name) && NameBelow(f[10].name, f[11].name);
    assert NameBelow(f[11].name, f[12].name) && NameBelow(f[12].name, f[13].name);
  }

  lemma FieldsFound(m: Message)
    ensures var f := Fields(m);
            && Get(f, "block_hash") == Some(J.Str(m.blockHash)) && Get(f, "block_number") == Some(J.Int(m.block))
            && Get(f, "chain_id") == Some(J.Int(m.chainId)) && Get(f, "claim_hash") == Some(J.Str(m.claimHash))
            && Get(f, "claim_id") == Some(J.Int(m.claimId)) && Get(f, "claimant") == Some(J.Str(m.claimant))
            && Get(f, "contract_address") == Some(J.Str(m.contract)) && Get(f, "data_pointer") == Some(J.Str(m.pointer))
            && Get(f, "event_id") == Some(J.Str(m.eventId)) && Get(f, "event_timestamp") == Some(J.Int(m.time))
            && Get(f, "event_type") == Some(J.Str(m.eventType)) && Get(f, "log_index") == Some(J.Int(m.logIndex))
            && Get(f, "schema_version") == Some(J.Int(m.schemaVersion))
            && Get(f, "transaction_hash") == Some(J.Str(m.tx))
  {
    FieldNamesRise(m);
    forall i, j | 0 <= i < j < 14 ensures Fields(m)[i].name != Fields(m)[j].name { RisingApart(Fields(m), i, j); }
    forall i | 0 <= i < 14 ensures Get(Fields(m), Fields(m)[i].name) == Some(Fields(m)[i].value) {
      GetFinds(Fields(m), i);
    }
    var f := Fields(m);
    assert f[0].name == "block_hash" && f[1].name == "block_number" && f[2].name == "chain_id" && f[3].name == "claim_hash";
    assert f[4].name == "claim_id" && f[5].name == "claimant";
    assert f[6].name == "contract_address" && f[7].name == "data_pointer";
    assert f[8].name == "event_id" && f[9].name == "event_timestamp";
    assert f[10].name == "event_type" && f[11].name == "log_index";
    assert f[12].name == "schema_version" && f[13].name == "transaction_hash";
  }

  lemma KindNotBlank()
    ensures !Blank(EVENT_TYPE) && forall p: string :: "ipfs://" <= p ==> !Blank(p)
    ensures forall c: nat, t: string, i: nat :: !Blank(EventId(c, t, i))
  {
    assert EVENT_TYPE[0] == 'C';
    forall p: string | "ipfs://" <= p ensures !Blank(p) { assert p[0] == 'i'; }
    forall c: nat, t: string, i: nat ensures !Blank(EventId(c, t, i)) { assert IsDigit(EventId(c, t, i)[0]); }
  }

  function AtLeast(n: int, minimum: int): Option<int> { if n >= minimum then Some(n) else None }
  function NotBlank(s: string): Option<string> { if Blank(s) then None else Some(s) }

  function PartsFrom(m: Message): Parts {
    Parts(AtLeast(m.schemaVersion, 1), NotBlank(m.eventType), NotBlank(m.eventId), AtLeast(m.chainId, 1),
          NotBlank(m.contract), AtLeast(m.claimId, 0), NotBlank(m.claimant), NotBlank(m.claimHash),
          NotBlank(m.pointer), AtLeast(m.block, 0), NotBlank(m.blockHash), NotBlank(m.tx),
          AtLeast(m.logIndex, 0), AtLeast(m.time, 0))
  }

  lemma PartsFound(m: Message)
    ensures PartsOf(Fields(m)) == PartsFrom(m)
  {
    FieldsFound(m);
  }

  lemma PartsAccepted(m: Message)
    ensures FromParts(PartsFrom(m)) == if WellFormed(m) then Some(m) else None
  {
    KindNotBlank();
  }

  /** Reading a printed message gives it back exactly when it is well formed; every other
      message is refused. */
  lemma MessageRoundTrip(m: Message)
    ensures FromJson(ToJson(m)) == if WellFormed(m) then Some(m) else None
  {
    J.RoundTrip(J.Dict(Fields(m)));
    PartsFound(m);
    PartsAccepted(m);
  }

  /** What is read is well formed, whatever the text. */
  lemma ReadIsWellFormed(text: string)
    requires FromJson(text).Some?
    ensures WellFormed(FromJson(text).value)
  {
  }

  /** Two well-formed messages share an identity only if they are about the same log of
      the same transaction: removing repeats by id never merges two chain logs. */
  lemma IdentityIsTheLog(a: Message, b: Message)
    requires WellFormed(a) && WellFormed(b)
    ensures a.eventId == b.eventId
      <==> a.chainId == b.chainId && Lower(a.tx) == Lower(b.tx) && a.logIndex == b.logIndex
  {
    EventIdInjective(a.chainId, a.tx, a.logIndex, b.chainId, b.tx, b.logIndex);
  }
}
