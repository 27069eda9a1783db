/** Unpadded base64url (sections 3.2 and 5 of RFC 4648), with the decoder's scanner as
    the Python library runs it: lenient, or strict about padding and foreign characters. */
module Base64 {
  import opened Text
  import opened ClaimIndex

  type Byte = b: nat | b < 256
  type Sextet = v: nat | v < 64

  function Letter(v: Sextet): char {
    if v < 26 then 'A' + v as char
    else if v < 52 then 'a' + (v - 26) as char
    else if v < 62 then '0' + (v - 52) as char
    else if v == 62 then '-' else '_'
  }

  /** Both alphabets are read: the URL-safe characters are translated first. */
  function ValueOf(c: char): Option<Sextet> {
    if 'A' <= c <= 'Z' then Some((c - 'A') as int)
    else if 'a' <= c <= 'z' then Some((c - 'a') as int + 26)
    else if '0' <= c <= '9' then Some((c - '0') as int + 52)
    else if c == '-' || c == '+' then Some(62)
    else if c == '_' || c == '/' then Some(63)
    else None
  }

  lemma ValueOfLetter(v: Sextet)
    ensures ValueOf(Letter(v)) == Some(v) && UrlSafe(Letter(v))
  {
  }

  /** The alphabet of section 5 of RFC 4648: no plus sign and no slash. */
  predicate UrlSafe(c: char) {
    'A' <= c <= 'Z' || 'a' <= c <= 'z' || '0' <= c <= '9' || c == '-' || c == '_'
  }

  function First(a: Byte): Sextet { a / 4 }
  function Second(a: Byte, b: Byte): Sextet { a % 4 * 16 + b / 16 }
  function Third(b: Byte, c: Byte): Sextet { b % 16 * 4 + c / 64 }
  function Fourth(c: Byte): Sextet { c % 64 }

  /** `urlsafe_b64encode(...).rstrip("=")`. */
  function Encode(s: seq<Byte>): string {
    if |s| == 0 then ""
    else if |s| == 1 then [Letter(First(s[0])), Letter(Second(s[0], 0))]
    else if |s| == 2 then [Letter(First(s[0])), Letter(Second(s[0], s[1])), Letter(Third(s[1], 0))]
    else [Letter(First(s[0])), Letter(Second(s[0], s[1])), Letter(Third(s[1], s[2])), Letter(Fourth(s[2]))]
         + Encode(s[3..])
  }

  /** `"=" * (-len(value) % 4)`. */
  function Padding(length: nat): string {
    if length % 4 == 0 then "" else if length % 4 == 1 then "===" else if length % 4 == 2 then "==" else "="
  }

  function High(u: nat, v: nat): Byte
    requires u < 64 && v < 64
  {
    u * 4 + v / 16
  }

  function Middle(v: nat, x: nat): Byte
    requires v < 64 && x < 64
  {
    v % 16 * 16 + x / 4
  }

  function Low(x: nat, y: nat): Byte
    requires x < 64 && y < 64
  {
    x % 4 * 64 + y
  }

  /** The bytes that the sextets of a group, or of its beginning, already give. */
  function Bytes(held: seq<Sextet>): seq<Byte> {
    if |held| < 2 then []
    else if |held| == 2 then [High(held[0], held[1])]
    else if |held| == 3 then [High(held[0], held[1]), Middle(held[1], held[2])]
    else [High(held[0], held[1]), Middle(held[1], held[2]), Low(held[2], held[3])]
  }

  function Prepend(a: seq<Byte>, r: Option<seq<Byte>>): Option<seq<Byte>> {
    match r
    case None => None
    case Some(b) => Some(a + b)
  }

  /** The scanner: `held` sextets of the current group, `pads` equals signs since the
      last of them, `padded` once any equals sign was seen. */
  function Scan(s: string, strict: bool, held: seq<Sextet>, pads: nat, padded: bool): Option<seq<Byte>> {
    if s == "" then if held == [] then Some([]) else None
    else if s[0] == '=' then
      if strict && held == [] then None
      else if |held| >= 2 && |held| + pads + 1 >= 4 then
        if strict && |s| > 1 then None else Some(Bytes(held))
      else Scan(s[1..], strict, held, if |held| >= 2 then pads + 1 else pads, true)
    else
      match ValueOf(s[0])
      case None => if strict then None else Scan(s[1..], strict, held, pads, padded)
      case Some(v) =>
        if strict && padded then None
        else if |held| >= 3 then Prepend(Bytes(held + [v]), Scan(s[1..], strict, [], 0, padded))
        else Scan(s[1..], strict, held + [v], 0, padded)
  }

  function Decode(s: string, strict: bool): Option<seq<Byte>> {
    Scan(s + Padding(|s|), strict, [], 0, false)
  }

  lemma ScanLetter(v: Sextet, s: string, strict: bool, held: seq<Sextet>)
    requires |held| < 4
    ensures Scan([Letter(v)] + s, strict, held, 0, false)
         == if |held| == 3 then Prepend(Bytes(held + [v]), Scan(s, strict, [], 0, false))
            else Scan(s, strict, held + [v], 0, false)
  {
    ValueOfLetter(v);
    assert ([Letter(v)] + s)[1..] == s;
  }

  lemma ScanTwo(u: Sextet, v: Sextet, s: string, strict: bool)
    ensures Scan([Letter(u), Letter(v)] + s, strict, [], 0, false) == Scan(s, strict, [u, v], 0, false)
  {
    assert [Letter(u), Letter(v)] + s == [Letter(u)] + ([Letter(v)] + s);
    ScanLetter(u, [Letter(v)] + s, strict, []);
    assert [] + [u] == [u] && [u] + [v] == [u, v];
    ScanLetter(v, s, strict, [u]);
  }

  lemma ScanGroup(u: Sextet, v: Sextet, x: Sextet, y: Sextet, s: string, strict: bool)
    ensures Scan([Letter(u), Letter(v), Letter(x), Letter(y)] + s, strict, [], 0, false)
         == Prepend(Bytes([u, v, x, y]), Scan(s, strict, [], 0, false))
  {
    var rest := [Letter(x)] + ([Letter(y)] + s);
    assert [Letter(u), Letter(v), Letter(x), Letter(y)] + s == [Letter(u), Letter(v)] + rest;
    ScanTwo(u, v, rest, strict);
    ScanLetter(x, [Letter(y)] + s, strict, [u, v]);
    ScanLetter(y, s, strict, [u, v, x]);
    assert [u, v] + [x] == [u, v, x] && [u, v, x] + [y] == [u, v, x, y];
  }

  /** The letters of a group are the base-64 digits of its 24-bit number. */
  lemma GroupDigits(a: Byte, b: Byte, c: Byte)
    ensures ((First(a) * 64 + Second(a, b)) * 64 + Third(b, c)) * 64 + Fourth(c) == (a * 256 + b) * 256 + c
  {
  }

  lemma HighBack(a: Byte, b: Byte)
    ensures High(First(a), Second(a, b)) == a
  {
  }

  lemma MiddleBack(a: Byte, b: Byte, c: Byte)
    ensures Middle(Second(a, b), Third(b, c)) == b
  {
    assert Second(a, b) % 16 == b / 16 && Third(b, c) / 4 == b % 16;
  }

  lemma LowBack(b: Byte, c: Byte)
    ensures Low(Third(b, c), Fourth(c)) == c
  {
    assert Third(b, c) % 4 == c / 64;
  }

  lemma GroupBytes(a: Byte, b: Byte, c: Byte)
    ensures Bytes([First(a), Second(a, b), Third(b, c), Fourth(c)]) == [a, b, c]
    ensures Bytes([First(a), Second(a, b), Third(b, 0)]) == [a, b]
    ensures Bytes([First(a), Second(a, 0)]) == [a]
  {
    HighBack(a, b);
    HighBack(a, 0);
    MiddleBack(a, b, c);
    MiddleBack(a, b, 0);
    LowBack(b, c);
  }

  lemma OneByte(a: Byte, strict: bool)
    ensures Decode(Encode([a]), strict) == Some([a])
  {
    GroupBytes(a, 0, 0);
    var u, v := First(a), Second(a, 0);
    assert Encode([a]) == [Letter(u), Letter(v)] && Padding(2) == "==";
    ScanTwo(u, v, "==", strict);
    assert "=="[1..] == "=";
  }

  lemma TwoBytes(a: Byte, b: Byte, strict: bool)
    ensures Decode(Encode([a, b]), strict) == Some([a, b])
  {
    GroupBytes(a, b, 0);
    var u, v, x := First(a), Second(a, b), Third(b, 0);
    assert Encode([a, b]) == [Letter(u), Letter(v), Letter(x)] && Padding(3) == "=";
    assert Encode([a, b]) + "=" == [Letter(u), Letter(v)] + ([Letter(x)] + "=");
    ScanTwo(u, v, [Letter(x)] + "=", strict);
    ScanLetter(x, "=", strict, [u, v]);
    assert [u, v] + [x] == [u, v, x];
  }

  lemma PaddingRepeats(n: nat)
    ensures Padding(n + 4) == Padding(n)
  {
  }

  lemma EncodeMore(a: Byte, b: Byte, c: Byte, s: seq<Byte>)
    ensures Encode([a, b, c] + s)
         == [Letter(First(a)), Letter(Second(a, b)), Letter(Third(b, c)), Letter(Fourth(c))] + Encode(s)
    ensures |Encode([a, b, c] + s)| == |Encode(s)| + 4
  {
    var all := [a, b, c] + s;
    assert all[0] == a && all[1] == b && all[2] == c && all[3..] == s;
  }

  lemma MoreBytes(a: Byte, b: Byte, c: Byte, s: seq<Byte>, strict: bool)
    requires Decode(Encode(s), strict) == Some(s)
    ensures Decode(Encode([a, b, c] + s), strict) == Some([a, b, c] + s)
  {
    GroupBytes(a, b, c);
    var rest, all := Encode(s), [a, b, c] + s;
    var u, v, x, y := First(a), Second(a, b), Third(b, c), Fourth(c);
    EncodeMore(a, b, c, s);
    PaddingRepeats(|rest|);
    Assoc([Letter(u), Letter(v), Letter(x), Letter(y)], rest, Padding(|rest|));
    ScanGroup(u, v, x, y, rest + Padding(|rest|), strict);
  }

  /** Decoding an encoding gives the bytes back, in either mode, for every byte string. */
  lemma {:induction false} RoundTrip(s: seq<Byte>, strict: bool)
    ensures Decode(Encode(s), strict) == Some(s)
  {
    if |s| == 0 {
      assert Padding(0) == "";
    } else if |s| == 1 {
      assert s == [s[0]];
      OneByte(s[0], strict);
    } else if |s| == 2 {
      assert s == [s[0], s[1]];
      TwoBytes(s[0], s[1], strict);
    } else {
      RoundTrip(s[3..], strict);
      assert s == [s[0], s[1], s[2]] + s[3..];
      MoreBytes(s[0], s[1], s[2], s[3..], strict);
    }
  }

  /** Encodings use the URL-safe alphabet only, so no dot, equals sign or space, and have
      four letters for every three bytes, rounded up. */
  lemma {:induction false} EncodedCharacters(s: seq<Byte>)
    ensures forall c :: c in Encode(s) ==> UrlSafe(c)
    ensures |Encode(s)| == (4 * |s| + 2) / 3
  {
    if |s| == 1 {
      ValueOfLetter(First(s[0]));
      ValueOfLetter(Second(s[0], 0));
    } else if |s| == 2 {
      ValueOfLetter(First(s[0]));
      ValueOfLetter(Second(s[0], s[1]));
      ValueOfLetter(Third(s[1], 0));
    } else if |s| >= 3 {
      EncodedCharacters(s[3..]);
      ValueOfLetter(First(s[0]));
      ValueOfLetter(Second(s[0], s[1]));
      ValueOfLetter(Third(s[1], s[2]));
      ValueOfLetter(Fourth(s[2]));
    }
  }

  // ------------------------------------------------------------- what the modes accept

  /** How many letters of either alphabet a text begins with. */
  function Lead(s: string): (k: nat)
    ensures k <= |s| && (forall i :: 0 <= i < k ==> ValueOf(s[i]).Some?) && (k < |s| ==> ValueOf(s[k]) == None)
  {
    if s == "" || ValueOf(s[0]) == None then 0 else Lead(s[1..]) + 1
  }

  predicate AllEquals(s: string) { forall i :: 0 <= i < |s| ==> s[i] == '=' }

  /** What may follow `m` letters in strict mode: exactly the missing equals signs. */
  predicate Closes(m: nat, r: string) {
    match m % 4
    case 0 => r == ""
    case 1 => false
    case 2 => r == "=="
    case _ => r == "="
  }

  /** A lone letter before the padding is never completed. */
  lemma {:induction false} LoneLetter(s: string, held: seq<Sextet>)
    requires |held| == 1
    ensures Scan(s, true, held, 0, true) == None
  {
    if s != "" && s[0] == '=' { LoneLetter(s[1..], held); }
  }

  lemma PaddedEnd(s: string, held: seq<Sextet>)
    requires |held| < 4 && s != "" && s[0] == '='
    ensures Scan(s, true, held, 0, false).Some? <==> Closes(|held|, s)
  {
    if |held| == 1 { LoneLetter(s[1..], held); }
    if |s| == 2 { assert s == [s[0], s[1]]; }
    if |s| == 1 { assert s == [s[0]]; }
  }

  lemma LetterHeld(s: string, rest: string, v: Sextet, held: seq<Sextet>)
    requires |held| < 3 && s != "" && rest == s[1..] && s[0] != '=' && ValueOf(s[0]) == Some(v)
    ensures Scan(s, true, held, 0, false) == Scan(rest, true, held + [v], 0, false)
  {
  }

  lemma LetterCompletes(s: string, rest: string, v: Sextet, held: seq<Sextet>)
    requires |held| == 3 && s != "" && rest == s[1..] && s[0] != '=' && ValueOf(s[0]) == Some(v)
    ensures Scan(s, true, held, 0, false).Some? <==> Scan(rest, true, [], 0, false).Some?
  {
  }

  lemma {:induction false} ScanStrict(s: string, held: seq<Sextet>)
    requires |held| < 4
    ensures Scan(s, true, held, 0, false).Some? <==> Closes(|held| + Lead(s), s[Lead(s)..])
  {
    if s != "" {
      if s[0] == '=' {
        PaddedEnd(s, held);
      } else if ValueOf(s[0]).Some? {
        var v, rest := ValueOf(s[0]).value, s[1..];
        LeadStep(s, rest);
        if |held| == 3 {
          LetterCompletes(s, rest, v, held);
          ScanStrict(rest, []);
        } else {
          LetterHeld(s, rest, v, held);
          ScanStrict(rest, held + [v]);
        }
      } else {
        assert s[Lead(s)..][0] == s[0];
      }
    }
  }

  lemma LeadStep(s: string, rest: string)
    requires s != "" && ValueOf(s[0]).Some? && rest == s[1..]
    ensures Lead(s) == Lead(rest) + 1 && s[Lead(s)..] == rest[Lead(rest)..]
  {
  }

  lemma {:induction false} LeadPadded(s: string, p: string)
    requires p == "" || p[0] == '='
    ensures Lead(s + p) == Lead(s) && (s + p)[Lead(s)..] == s[Lead(s)..] + p
  {
    if s == "" {
      assert s + p == p;
    } else {
      assert (s + p)[0] == s[0] && (s + p)[1..] == s[1..] + p;
      if ValueOf(s[0]).Some? {
        LeadPadded(s[1..], p);
        LeadStep(s, s[1..]);
        LeadStep(s + p, s[1..] + p);
      }
    }
  }

  lemma PaddingCloses(k: nat, r: string, length: nat)
    requires length == k + |r|
    ensures Closes(k, r + Padding(length))
       <==> k % 4 != 1 && |r| <= (4 - k % 4) % 4 && AllEquals(r)
  {
    var t := r + Padding(length);
    assert forall i :: 0 <= i < |Padding(length)| ==> Padding(length)[i] == '=' && t[|r| + i] == '=';
    if AllEquals(r) {
      if |t| == 1 { assert t == "="; }
      if |t| == 2 { assert t == "=="; }
    } else {
      var i :| 0 <= i < |r| && r[i] != '=';
      assert t[i] != '=';
    }
  }

  /** Strict mode accepts exactly letters, not one beyond a group, followed by at most the
      equals signs that complete the group: nothing else anywhere. */
  lemma StrictIff(s: string)
    ensures Decode(s, true).Some?
       <==> var k := Lead(s);
            k % 4 != 1 && |s[k..]| <= (4 - k % 4) % 4 && AllEquals(s[k..])
  {
    LeadPadded(s, Padding(|s|));
    ScanStrict(s + Padding(|s|), []);
    PaddingCloses(Lead(s), s[Lead(s)..], |s|);
  }

  /** Lenient mode skips every foreign character. */
  lemma {:induction false} ForeignSkipped(a: string, c: char, b: string, held: seq<Sextet>, pads: nat, padded: bool)
    requires ValueOf(c) == None && c != '=' && |held| < 4
    ensures Scan(a + [c] + b, false, held, pads, padded) == Scan(a + b, false, held, pads, padded)
  {
    if a == "" {
      assert a + [c] + b == [c] + b && a + b == b && ([c] + b)[1..] == b;
    } else {
      var t := a[1..];
      assert (a + [c] + b)[1..] == t + [c] + b && (a + b)[1..] == t + b;
      if a[0] == '=' {
        ForeignSkipped(t, c, b, held, if |held| >= 2 then pads + 1 else pads, true);
      } else {
        match ValueOf(a[0])
        case None => ForeignSkipped(t, c, b, held, pads, padded);
        case Some(v) => ForeignSkipped(t, c, b, if |held| >= 3 then [] else held + [v], 0, padded);
      }
    }
  }

  /** Different byte strings have different encodings. */
  lemma EncodeInjective(a: seq<Byte>, b: seq<Byte>)
    requires Encode(a) == Encode(b)
    ensures a == b
  {
    RoundTrip(a, true);
    RoundTrip(b, true);
  }
}
