/** JSON as the Python library writes and reads it: compact separators, ASCII escapes.
    Numbers are integers; a fraction, an exponent or a lone surrogate is not modelled and
    reads as an error. */
module Json {
  import opened Text
  import opened ClaimIndex

  datatype Json =
    | Null
    | Bool(b: bool)
    | Int(n: int)
    | Str(s: string)
    | List(items: seq<Json>)
    | Dict(fields: seq<Field>)

  datatype Field = Field(name: string, value: Json)

  // ---------------------------------------------------------------------- writing

  function HexDigit(v: nat): char
    requires v < 16
  {
    if v < 10 then '0' + v as char else 'a' + (v - 10) as char
  }

  /** A `\u` escape of a 16-bit unit. */
  function Unit(n: nat): string
    requires n < 0x10000
  {
    ['\\', 'u', HexDigit(n / 0x1000), HexDigit(n / 0x100 % 16), HexDigit(n / 16 % 16), HexDigit(n % 16)]
  }

  /** The letter of a two-character escape. */
  function ShortEscape(c: char): Option<char> {
    if c == '"' || c == '\\' then Some(c)
    else if c == '\n' then Some('n')
    else if c == '\r' then Some('r')
    else if c == '\t' then Some('t')
    else if c == '\U{c}' then Some('f')
    else if c == '\U{8}' then Some('b')
    else None
  }

  function EscapeChar(c: char): string {
    var n := c as nat;
    if ShortEscape(c).Some? then ['\\', ShortEscape(c).value]
    else if ' ' <= c <= '~' then [c]
    else if n < 0x10000 then Unit(n)
    else Unit(0xd800 + (n - 0x10000) / 0x400) + Unit(0xdc00 + (n - 0x10000) % 0x400)
  }

  function Escape(s: string): string {
    if s == "" then "" else EscapeChar(s[0]) + Escape(s[1..])
  }

  function Quote(s: string): string { "\"" + Escape(s) + "\"" }

  function Print(v: Json): string {
    match v
    case Null => "null"
    case Bool(b) => if b then "true" else "false"
    case Int(n) => if n < 0 then "-" + Decimal(-n) else Decimal(n)
    case Str(s) => Quote(s)
    case List(items) => "[" + PrintItems(items) + "]"
    case Dict(fields) => "{" + PrintFields(fields) + "}"
  }

  function PrintItems(items: seq<Json>): string {
    if items == [] then ""
    else if |items| == 1 then Print(items[0])
    else Print(items[0]) + "," + PrintItems(items[1..])
  }

  function PrintFields(fields: seq<Field>): string {
    if fields == [] then ""
    else
      var f := fields[0];
      Quote(f.name) + ":" + Print(f.value) + if |fields| == 1 then "" else "," + PrintFields(fields[1..])
  }

  // ---------------------------------------------------------------------- reading

  predicate IsBlank(c: char) { c == ' ' || c == '\t' || c == '\n' || c == '\r' }

  function Skip(s: string): (r: string)
    ensures |r| <= |s|
  {
    if s != "" && IsBlank(s[0]) then Skip(s[1..]) else s
  }

  function HexValue(c: char): Option<nat> {
    if '0' <= c <= '9' then Some((c - '0') as nat)
    else if 'a' <= c <= 'f' then Some((c - 'a') as nat + 10)
    else if 'A' <= c <= 'F' then Some((c - 'A') as nat + 10)
    else None
  }

  /** The unit of four hexadecimal digits. */
  function UnitOf(s: string): (r: Option<nat>)
    ensures r.Some? ==> |s| >= 4 && r.value < 0x10000
  {
    if |s| < 4 then None
    else
      var a, b, c, d := HexValue(s[0]), HexValue(s[1]), HexValue(s[2]), HexValue(s[3]);
      if a == None || b == None || c == None || d == None then None
      else if a.value > 15 || b.value > 15 || c.value > 15 || d.value > 15 then None
      else Some(a.value * 0x1000 + b.value * 0x100 + c.value * 16 + d.value)
  }

  /** What follows `\u`. */
  function ParseUnit(s: string): (r: Option<(char, string)>)
    ensures r.Some? ==> |r.value.1| < |s|
  {
    var n := UnitOf(s);
    if n == None then None
    else if n.value < 0xd800 || 0xe000 <= n.value then Some((n.value as char, s[4..]))
    else if n.value >= 0xdc00 || |s| < 10 || s[4] != '\\' || s[5] != 'u' then None
    else
      var low := UnitOf(s[6..]);
      if low == None || !(0xdc00 <= low.value < 0xe000) then None
      else Some(((0x10000 + (n.value - 0xd800) * 0x400 + (low.value - 0xdc00)) as char, s[10..]))
  }

  function ParseChar(s: string): (r: Option<(char, string)>)
    requires s != ""
    ensures r.Some? ==> |r.value.1| < |s|
  {
    if s[0] != '\\' then if s[0] < ' ' then None else Some((s[0], s[1..]))
    else if |s| < 2 then None
    else
      match s[1]
      case 'u' => ParseUnit(s[2..])
      case '"' => Some(('"', s[2..]))
      case '\\' => Some(('\\', s[2..]))
      case '/' => Some(('/', s[2..]))
      case 'n' => Some(('\n', s[2..]))
      case 'r' => Some(('\r', s[2..]))
      case 't' => Some(('\t', s[2..]))
      case 'f' => Some(('\U{c}', s[2..]))
      case 'b' => Some(('\U{8}', s[2..]))
      case _ => None
  }

  /** The rest of a string literal, up to its closing quote. */
  function ParseChars(s: string): (r: Option<(string, string)>)
    ensures r.Some? ==> |r.value.1| < |s|
    decreases |s|
  {
    if s == "" then None
    else if s[0] == '"' then Some(("", s[1..]))
    else
      match ParseChar(s)
      case None => None
      case Some((c, rest)) =>
        match ParseChars(rest)
        case None => None
        case Some((cs, after)) => Some(([c] + cs, after))
  }

  function Digits(s: string): (d: string)
    ensures |d| <= |s| && AllDigits(d)
  {
    if s == "" || !IsDigit(s[0]) then "" else [s[0]] + Digits(s[1..])
  }

  /** `-?(0|[1-9][0-9]*)`, not followed by a fraction or an exponent. */
  function ParseInt(s: string): (r: Option<(Json, string)>)
    ensures r.Some? ==> |r.value.1| < |s|
  {
    var negative := s != "" && s[0] == '-';
    var t := if negative then s[1..] else s;
    var all := Digits(t);
    var d := if all != "" && all[0] == '0' then "0" else all;
    var rest := t[|d|..];
    if d == "" || (rest != "" && (rest[0] == '.' || rest[0] == 'e' || rest[0] == 'E')) then None
    else
      var n: int := Numeral(d);
      Some((Int(if negative then -n else n), rest))
  }

  function ParseValue(s: string): (r: Option<(Json, string)>)
    ensures r.Some? ==> |r.value.1| < |s|
    decreases |s|, 0
  {
    var t := Skip(s);
    if t == "" then None
    else if t[0] == '"' then
      match ParseChars(t[1..])
      case None => None
      case Some((cs, rest)) => Some((Str(cs), rest))
    else if t[0] == '[' then
      var u := Skip(t[1..]);
      if u != "" && u[0] == ']' then Some((List([]), u[1..]))
      else
        match ParseItems(u)
        case None => None
        case Some((vs, rest)) => Some((List(vs), rest))
    else if t[0] == '{' then
      var u := Skip(t[1..]);
      if u != "" && u[0] == '}' then Some((Dict([]), u[1..]))
      else
        match ParseFields(u)
        case None => None
        case Some((fs, rest)) => Some((Dict(fs), rest))
    else if "null" <= t then Some((Null, t[4..]))
    else if "true" <= t then Some((Bool(true), t[4..]))
    else if "false" <= t then Some((Bool(false), t[5..]))
    else ParseInt(t)
  }

  function ParseItems(s: string): (r: Option<(seq<Json>, string)>)
    ensures r.Some? ==> |r.value.1| < |s|
    decreases |s|, 1
  {
    match ParseValue(s)
    case None => None
    case Some((v, after)) =>
      var t := Skip(after);
      if t == "" then None
      else if t[0] == ']' then Some(([v], t[1..]))
      else if t[0] != ',' then None
      else
        match ParseItems(t[1..])
        case None => None
        case Some((vs, rest)) => Some(([v] + vs, rest))
  }

  function ParseFields(s: string): (r: Option<(seq<Field>, string)>)
    ensures r.Some? ==> |r.value.1| < |s|
    decreases |s|, 1
  {
    var q := Skip(s);
    if q == "" || q[0] != '"' then None
    else
      match ParseChars(q[1..])
      case None => None
      case Some((name, after)) =>
        var colon := Skip(after);
        if colon == "" || colon[0] != ':' then None
        else
          match ParseValue(colon[1..])
          case None => None
          case Some((v, tail)) =>
            var t := Skip(tail);
            if t == "" then None
            else if t[0] == '}' then Some(([Field(name, v)], t[1..]))
            else if t[0] != ',' then None
            else
              match ParseFields(t[1..])
              case None => None
              case Some((fs, rest)) => Some(([Field(name, v)] + fs, rest))
  }

  /** `json.loads`. */
  function Parse(s: string): Option<Json> {
    match ParseValue(s)
    case None => None
    case Some((v, rest)) => if Skip(rest) == "" then Some(v) else None
  }

  // ------------------------------------------------------------------- round trip

  lemma HexRoundTrip(v: nat)
    requires v < 16
    ensures HexValue(HexDigit(v)) == Some(v)
  {
  }

  lemma UnitOfDigits(a: nat, b: nat, c: nat, d: nat, rest: string)
    requires a < 16 && b < 16 && c < 16 && d < 16
    ensures UnitOf([HexDigit(a), HexDigit(b), HexDigit(c), HexDigit(d)] + rest)
         == Some(a * 0x1000 + b * 0x100 + c * 16 + d)
  {
    HexRoundTrip(a);
    HexRoundTrip(b);
    HexRoundTrip(c);
    HexRoundTrip(d);
  }

  lemma SplitUnit(n: nat)
    requires n < 0x10000
    ensures n / 0x1000 < 16
    ensures n == n / 0x1000 * 0x1000 + n / 0x100 % 16 * 0x100 + n / 16 % 16 * 16 + n % 16
  {
    assert n / 16 == n / 16 / 16 * 16 + n / 16 % 16;
    assert n / 0x100 == n / 0x100 / 16 * 16 + n / 0x100 % 16;
    assert n / 16 / 16 == n / 0x100 && n / 0x100 / 16 == n / 0x1000;
  }

  lemma UnitRoundTrip(n: nat, rest: string)
    requires n < 0x10000
    ensures UnitOf((Unit(n) + rest)[2..]) == Some(n)
    ensures (Unit(n) + rest)[2..][4..] == rest
  {
    SplitUnit(n);
    UnitOfDigits(n / 0x1000, n / 0x100 % 16, n / 16 % 16, n % 16, rest);
    assert (Unit(n) + rest)[2..]
        == [HexDigit(n / 0x1000), HexDigit(n / 0x100 % 16), HexDigit(n / 16 % 16), HexDigit(n % 16)] + rest;
  }

  lemma CharRoundTrip(c: char, rest: string)
    ensures EscapeChar(c) != "" && EscapeChar(c)[0] != '"'
    ensures ParseChar(EscapeChar(c) + rest) == Some((c, rest))
  {
    var n, s := c as nat, EscapeChar(c) + rest;
    if ShortEscape(c).Some? {
      assert s[2..] == rest;
    } else if ' ' <= c <= '~' {
      assert s[1..] == rest;
    } else if n < 0x10000 {
      UnitRoundTrip(n, rest);
    } else {
      PairRoundTrip(c, rest);
    }
  }

  lemma PairRoundTrip(c: char, rest: string)
    requires c as nat >= 0x10000
    ensures ParseChar(EscapeChar(c) + rest) == Some((c, rest))
  {
    var n, s := c as nat, EscapeChar(c) + rest;
    var high, low := 0xd800 + (n - 0x10000) / 0x400, 0xdc00 + (n - 0x10000) % 0x400;
    assert s == Unit(high) + (Unit(low) + rest);
    UnitRoundTrip(high, Unit(low) + rest);
    UnitRoundTrip(low, rest);
    assert s[2..][4..] == Unit(low) + rest;
    assert s[2..][6..] == (Unit(low) + rest)[2..];
    assert s[2..][10..] == rest;
  }

  /** Every string, whatever its characters, is read back from its quoted form. */
  lemma {:induction false} TextRoundTrip(s: string, rest: string)
    ensures ParseChars(Escape(s) + "\"" + rest) == Some((s, rest))
  {
    var t := Escape(s) + "\"" + rest;
    if s == "" {
      assert t[0] == '"' && t[1..] == rest;
    } else {
      var tail := Escape(s[1..]) + "\"" + rest;
      assert t == EscapeChar(s[0]) + tail;
      CharRoundTrip(s[0], tail);
      TextRoundTrip(s[1..], rest);
      assert t[0] == EscapeChar(s[0])[0] && s == [s[0]] + s[1..];
    }
  }

  /** A value's text stops where nothing follows that could continue a number. */
  predicate Delimited(rest: string) {
    rest == "" || !(IsDigit(rest[0]) || rest[0] == '.' || rest[0] == 'e' || rest[0] == 'E')
  }

  lemma {:induction false} DigitsOf(d: string, rest: string)
    requires AllDigits(d) && (rest == "" || !IsDigit(rest[0]))
    ensures Digits(d + rest) == d
  {
    if d == "" {
      assert d + rest == rest;
    } else {
      DigitsOf(d[1..], rest);
      assert (d + rest)[1..] == d[1..] + rest && d == [d[0]] + d[1..];
    }
  }

  lemma ZeroIsOne(n: nat)
    requires Decimal(n)[0] == '0'
    ensures Decimal(n) == "0"
  {
  }

  lemma NaturalRoundTrip(n: nat, rest: string)
    requires Delimited(rest)
    ensures ParseInt(Decimal(n) + rest) == Some((Int(n), rest))
    ensures ParseInt("-" + (Decimal(n) + rest)) == Some((Int(0 - n), rest))
  {
    var t := Decimal(n) + rest;
    DigitsOf(Decimal(n), rest);
    NumeralOfDecimal(n);
    if Decimal(n)[0] == '0' { ZeroIsOne(n); }
    assert t[0] == Decimal(n)[0] && t[|Decimal(n)|..] == rest;
    assert ("-" + t)[1..] == t;
  }

  lemma NumberStart(s: string)
    requires s != "" && (IsDigit(s[0]) || s[0] == '-')
    ensures ParseValue(s) == ParseInt(s)
  {
    assert Skip(s) == s;
    assert "null"[0] == 'n' && "true"[0] == 't' && "false"[0] == 'f';
    assert !("null" <= s) && !("true" <= s) && !("false" <= s);
  }

  lemma NumberRoundTrip(n: nat, rest: string)
    requires Delimited(rest)
    ensures ParseValue(Decimal(n) + rest) == Some((Int(n), rest))
    ensures ParseValue("-" + (Decimal(n) + rest)) == Some((Int(0 - n), rest))
  {
    NaturalRoundTrip(n, rest);
    assert (Decimal(n) + rest)[0] == Decimal(n)[0];
    NumberStart(Decimal(n) + rest);
    NumberStart("-" + (Decimal(n) + rest));
  }

  lemma IntRoundTrip(n: int, rest: string)
    requires Delimited(rest)
    ensures ParseValue(Print(Int(n)) + rest) == Some((Int(n), rest))
  {
    if n < 0 {
      NumberRoundTrip(-n, rest);
      Assoc("-", Decimal(-n), rest);
    } else {
      NumberRoundTrip(n, rest);
    }
  }

  /** How a printed value begins. */
  lemma PrintStart(v: Json)
    ensures Print(v) != "" && !IsBlank(Print(v)[0]) && Print(v)[0] != ']' && Print(v)[0] != '}'
    ensures v.Int? ==> IsDigit(Print(v)[0]) || Print(v)[0] == '-'
  {
  }

  /** Reading a printed value gives the value back, for every value. */
  lemma {:induction false} ValueRoundTrip(v: Json, rest: string)
    requires Delimited(rest)
    ensures ParseValue(Print(v) + rest) == Some((v, rest))
    decreases v, 1
  {
    var s := Print(v) + rest;
    PrintStart(v);
    assert Skip(s) == s && s[0] == Print(v)[0];
    match v
    case Null => assert s[4..] == rest;
    case Bool(b) => assert s[if b then 4 else 5..] == rest;
    case Int(n) => IntRoundTrip(n, rest);
    case Str(t) =>
      assert s[1..] == Escape(t) + "\"" + rest;
      TextRoundTrip(t, rest);
    case List(items) => ListRoundTrip(items, rest);
    case Dict(fields) => DictRoundTrip(fields, rest);
  }

  lemma ItemsEnd(s: string, v: Json, rest: string)
    requires ParseValue(s) == Some((v, "]" + rest))
    ensures ParseItems(s) == Some(([v], rest))
  {
    assert Skip("]" + rest) == "]" + rest && ("]" + rest)[1..] == rest;
  }

  lemma ItemsContinue(s: string, v: Json, more: string, vs: seq<Json>, rest: string)
    requires ParseValue(s) == Some((v, "," + more)) && ParseItems(more) == Some((vs, rest))
    ensures ParseItems(s) == Some(([v] + vs, rest))
  {
    assert Skip("," + more) == "," + more && ("," + more)[1..] == more;
  }

  lemma ListOpens(u: string, items: seq<Json>, rest: string)
    requires if items == [] then u == "]" + rest
             else u != "" && !IsBlank(u[0]) && u[0] != ']' && ParseItems(u) == Some((items, rest))
    ensures ParseValue("[" + u) == Some((List(items), rest))
  {
    assert Skip("[" + u) == "[" + u && ("[" + u)[1..] == u && Skip(u) == u;
    if items == [] { assert u[1..] == rest; }
  }

  lemma Wrapped(open: string, x: string, close: string, rest: string)
    ensures open + x + close + rest == open + (x + close + rest)
  {
  }

  lemma PrintItemsStart(items: seq<Json>)
    requires items != []
    ensures PrintItems(items) != "" && !IsBlank(PrintItems(items)[0]) && PrintItems(items)[0] != ']'
  {
    PrintStart(items[0]);
  }

  lemma {:induction false} ListRoundTrip(items: seq<Json>, rest: string)
    requires Delimited(rest)
    ensures ParseValue(Print(List(items)) + rest) == Some((List(items), rest))
    decreases items, 1
  {
    var u := PrintItems(items) + "]" + rest;
    if items != [] {
      PrintItemsStart(items);
      ItemsRoundTrip(items, rest);
    }
    ListOpens(u, items, rest);
    Wrapped("[", PrintItems(items), "]", rest);
  }

  lemma OneItem(p: string, v: Json, rest: string)
    requires ParseValue(p + ("]" + rest)) == Some((v, "]" + rest))
    ensures ParseItems(p + "]" + rest) == Some(([v], rest))
  {
    ItemsEnd(p + ("]" + rest), v, rest);
    Assoc(p, "]", rest);
  }

  lemma JoinText(p: string, q: string, rest: string)
    ensures p + "," + q + "]" + rest == p + ("," + (q + "]" + rest))
  {
  }

  lemma JoinItems(p: string, v: Json, q: string, vs: seq<Json>, rest: string)
    requires ParseValue(p + ("," + (q + "]" + rest))) == Some((v, "," + (q + "]" + rest)))
    requires ParseItems(q + "]" + rest) == Some((vs, rest))
    ensures ParseItems(p + "," + q + "]" + rest) == Some(([v] + vs, rest))
  {
    ItemsContinue(p + ("," + (q + "]" + rest)), v, q + "]" + rest, vs, rest);
    JoinText(p, q, rest);
  }

  lemma PrintOne(items: seq<Json>)
    requires |items| == 1
    ensures PrintItems(items) == Print(items[0])
  {
  }

  lemma PrintMore(items: seq<Json>, first: Json, more: seq<Json>)
    requires |items| > 1 && first == items[0] && more == items[1..]
    ensures PrintItems(items) == Print(first) + "," + PrintItems(more)
  {
  }

  lemma {:induction false} ItemsRoundTrip(items: seq<Json>, rest: string)
    requires items != []
    ensures ParseItems(PrintItems(items) + "]" + rest) == Some((items, rest))
    decreases items, 0
  {
    if |items| == 1 {
      PrintOne(items);
      assert items == [items[0]];
      ValueRoundTrip(items[0], "]" + rest);
      OneItem(Print(items[0]), items[0], rest);
    } else {
      var p, q := Print(items[0]), PrintItems(items[1..]);
      ValueRoundTrip(items[0], "," + (q + "]" + rest));
      ItemsRoundTrip(items[1..], rest);
      JoinItems(p, items[0], q, items[1..], rest);
      PrintMore(items, items[0], items[1..]);
      assert items == [items[0]] + items[1..];
    }
  }

  /** One `name: value` pair read from `s`, with `after` behind it. */
  ghost predicate ReadsField(s: string, f: Field, after: string) {
    s != "" && s[0] == '"' &&
    exists colon: string ::
      ParseChars(s[1..]) == Some((f.name, ":" + colon)) && ParseValue(colon) == Some((f.value, after))
  }

  lemma FieldsEnd(s: string, f: Field, rest: string)
    requires ReadsField(s, f, "}" + rest)
    ensures ParseFields(s) == Some(([f], rest))
  {
    var colon :| ParseChars(s[1..]) == Some((f.name, ":" + colon)) && ParseValue(colon) == Some((f.value, "}" + rest));
    assert Skip(s) == s && Skip(":" + colon) == ":" + colon && (":" + colon)[1..] == colon;
    assert Skip("}" + rest) == "}" + rest && ("}" + rest)[1..] == rest;
  }

  lemma FieldsContinue(s: string, f: Field, more: string, fs: seq<Field>, rest: string)
    requires ReadsField(s, f, "," + more) && ParseFields(more) == Some((fs, rest))
    ensures ParseFields(s) == Some(([f] + fs, rest))
  {
    var colon :| ParseChars(s[1..]) == Some((f.name, ":" + colon)) && ParseValue(colon) == Some((f.value, "," + more));
    assert Skip(s) == s && Skip(":" + colon) == ":" + colon && (":" + colon)[1..] == colon;
    assert Skip("," + more) == "," + more && ("," + more)[1..] == more;
  }

  lemma DictOpens(u: string, fields: seq<Field>, rest: string)
    requires if fields == [] then u == "}" + rest
             else u != "" && u[0] == '"' && ParseFields(u) == Some((fields, rest))
    ensures ParseValue("{" + u) == Some((Dict(fields), rest))
  {
    assert Skip("{" + u) == "{" + u && ("{" + u)[1..] == u && Skip(u) == u;
    if fields == [] { assert u[1..] == rest; }
  }

  lemma {:induction false} FieldRoundTrip(f: Field, after: string)
    requires Delimited(after)
    ensures ReadsField(Quote(f.name) + (":" + (Print(f.value) + after)), f, after)
    decreases f, 0
  {
    var colon := Print(f.value) + after;
    var s := Quote(f.name) + (":" + colon);
    assert s[0] == '"' && s[1..] == Escape(f.name) + "\"" + (":" + colon);
    TextRoundTrip(f.name, ":" + colon);
    ValueRoundTrip(f.value, after);
  }

  lemma {:induction false} DictRoundTrip(fields: seq<Field>, rest: string)
    requires Delimited(rest)
    ensures ParseValue(Print(Dict(fields)) + rest) == Some((Dict(fields), rest))
    decreases fields, 1
  {
    var u := PrintFields(fields) + "}" + rest;
    if fields != [] {
      FieldsRoundTrip(fields, rest);
      PrintFieldsSplit(fields, rest);
    }
    DictOpens(u, fields, rest);
    Wrapped("{", PrintFields(fields), "}", rest);
  }

  /** The same text, bracketed from the right. */
  lemma Regroup(n: string, p: string, q: string)
    ensures n + ":" + p + q == n + (":" + (p + q))
  {
  }

  lemma CloseLater(x: string, q: string, rest: string)
    ensures x + q + "}" + rest == x + (q + "}" + rest)
  {
  }

  lemma JoinFields(n: string, p: string, f: Field, q: string, fs: seq<Field>, rest: string)
    requires ReadsField(n + (":" + (p + ("," + (q + "}" + rest)))), f, "," + (q + "}" + rest))
    requires ParseFields(q + "}" + rest) == Some((fs, rest))
    ensures ParseFields(n + (":" + (p + ("," + (q + "}" + rest))))) == Some(([f] + fs, rest))
  {
    FieldsContinue(n + (":" + (p + ("," + (q + "}" + rest)))), f, q + "}" + rest, fs, rest);
  }

  lemma PrintFieldsSplit(fields: seq<Field>, rest: string)
    requires fields != []
    ensures var f, q := fields[0], if |fields| == 1 then "" else "," + PrintFields(fields[1..]);
            PrintFields(fields) + "}" + rest == Quote(f.name) + (":" + (Print(f.value) + (q + "}" + rest)))
    ensures (PrintFields(fields) + "}" + rest)[0] == '"'
  {
    var f, q := fields[0], if |fields| == 1 then "" else "," + PrintFields(fields[1..]);
    assert PrintFields(fields) == Quote(f.name) + ":" + Print(f.value) + q;
    Regroup(Quote(f.name), Print(f.value), q + "}" + rest);
    CloseLater(Quote(f.name) + ":" + Print(f.value), q, rest);
  }

  lemma {:induction false} FieldsRoundTrip(fields: seq<Field>, rest: string)
    requires fields != []
    ensures ParseFields(PrintFields(fields) + "}" + rest) == Some((fields, rest))
    decreases fields, 0
  {
    var f := fields[0];
    PrintFieldsSplit(fields, rest);
    if |fields| == 1 {
      FieldRoundTrip(f, "}" + rest);
      assert "" + "}" + rest == "}" + rest;
      FieldsEnd(PrintFields(fields) + "}" + rest, f, rest);
      assert fields == [f];
    } else {
      var q := PrintFields(fields[1..]);
      FieldRoundTrip(f, "," + (q + "}" + rest));
      FieldsRoundTrip(fields[1..], rest);
      JoinFields(Quote(f.name), Print(f.value), f, q, fields[1..], rest);
      CloseLater(",", q, rest);
      assert fields == [f] + fields[1..];
    }
  }

  /** `json.loads(json.dumps(v))` is `v`. */
  lemma RoundTrip(v: Json)
    ensures Parse(Print(v)) == Some(v)
  {
    ValueRoundTrip(v, "");
    assert Print(v) + "" == Print(v);
  }

  predicate Blanks(s: string) { forall i :: 0 <= i < |s| ==> s[i] in {' ', '\t', '\n', '\r'} }

  lemma {:induction false} SkipsBlanks(a: string, s: string)
    requires Blanks(a) && (s != "" ==> s[0] !in {' ', '\t', '\n', '\r'})
    ensures Skip(a + s) == s
  {
    if a == "" {
      assert a + s == s;
    } else {
      SkipsBlanks(a[1..], s);
      assert (a + s)[1..] == a[1..] + s;
    }
  }

  lemma {:induction false} SkippedWhenBlank(s: string)
    ensures Skip(s) == "" <==> Blanks(s)
  {
    if s != "" {
      SkippedWhenBlank(s[1..]);
      assert forall i :: 0 <= i < |s| - 1 ==> s[1..][i] == s[i + 1];
      assert Blanks(s) <==> s[0] in {' ', '\t', '\n', '\r'} && Blanks(s[1..]);
    }
  }

  lemma ValueSkips(a: string, s: string)
    requires Skip(a + s) == s && Skip(s) == s
    ensures ParseValue(a + s) == ParseValue(s)
  {
  }

  /** Around a printed value only white space is accepted: whatever else follows it, the
      text is refused. */
  lemma OnlyBlanksAround(v: Json, a: string, b: string)
    requires Blanks(a) && Delimited(b)
    ensures Parse(a + (Print(v) + b)) == if Blanks(b) then Some(v) else None
  {
    PrintStart(v);
    SkipsBlanks(a, Print(v) + b);
    SkipsBlanks("", Print(v) + b);
    assert "" + (Print(v) + b) == Print(v) + b;
    ValueSkips(a, Print(v) + b);
    ValueRoundTrip(v, b);
    SkippedWhenBlank(b);
  }

  /** Numbers with a fraction or an exponent are refused. */
  lemma ContinuedRefused(n: nat, c: char, rest: string)
    requires c == '.' || c == 'e' || c == 'E'
    ensures Parse(Decimal(n) + ([c] + rest)) == None
  {
    var t := Decimal(n) + ([c] + rest);
    DigitsOf(Decimal(n), [c] + rest);
    if Decimal(n)[0] == '0' { ZeroIsOne(n); }
    assert t[0] == Decimal(n)[0] && t[|Decimal(n)|..] == [c] + rest;
    NumberStart(t);
  }

  /** So are leading zeros, ... */
  lemma LeadingZeroRefused(d: string)
    requires d != "" && AllDigits(d)
    ensures Parse("0" + d) == None
  {
    var t := "0" + d;
    DigitsOf(t, "");
    assert t + "" == t && t[1..] == d;
    NumberStart(t);
    assert Skip(d) == d;
  }

  lemma RefusedLater(e: string, c: char, more: string)
    requires e != "" && e[0] != '"' && ParseChar(e + more) == Some((c, more)) && ParseChars(more) == None
    ensures ParseChars(e + more) == None
  {
    assert (e + more)[0] == e[0];
  }

  lemma ControlFirst(text: string)
    requires text != "" && text[0] < ' '
    ensures ParseChars(text) == None
  {
  }

  lemma EscapeSplits(s: string, more: string)
    requires s != ""
    ensures Escape(s) + more == EscapeChar(s[0]) + (Escape(s[1..]) + more)
  {
    Assoc(EscapeChar(s[0]), Escape(s[1..]), more);
  }

  /** ... and raw control characters inside a string, wherever they stand. */
  lemma {:induction false} ControlRefused(s: string, text: string)
    requires text != "" && text[0] < ' '
    ensures ParseChars(Escape(s) + text) == None
  {
    if s == "" {
      assert Escape(s) + text == text;
      ControlFirst(text);
    } else {
      var more := Escape(s[1..]) + text;
      ControlRefused(s[1..], text);
      CharRoundTrip(s[0], more);
      EscapeSplits(s, text);
      RefusedLater(EscapeChar(s[0]), s[0], more);
    }
  }

  predicate Ascii(s: string) { forall i :: 0 <= i < |s| ==> ' ' <= s[i] <= '~' }

  lemma AsciiJoin(a: string, b: string)
    requires Ascii(a) && Ascii(b)
    ensures Ascii(a + b)
  {
  }

  lemma CharIsAscii(c: char)
    ensures Ascii(EscapeChar(c))
  {
  }

  lemma {:induction false} EscapeIsAscii(s: string)
    ensures Ascii(Escape(s)) && Ascii(Quote(s))
  {
    if s != "" {
      EscapeIsAscii(s[1..]);
      CharIsAscii(s[0]);
      AsciiJoin(EscapeChar(s[0]), Escape(s[1..]));
    }
  }

  /** Printing escapes everything outside printable ASCII, so UTF-8 adds nothing. */
  lemma {:induction false} PrintIsAscii(v: Json)
    ensures Ascii(Print(v))
    decreases v, 1
  {
    match v
    case Int(n) => assert AllDigits(Decimal(if n < 0 then -n else n));
    case Str(s) => EscapeIsAscii(s);
    case List(items) => ItemsAreAscii(items);
    case Dict(fields) => FieldsAreAscii(fields);
    case _ =>
  }

  lemma {:induction false} ItemsAreAscii(items: seq<Json>)
    ensures Ascii(PrintItems(items))
    decreases items, 0
  {
    if items != [] {
      PrintIsAscii(items[0]);
      ItemsAreAscii(items[1..]);
    }
  }

  lemma {:induction false} FieldsAreAscii(fields: seq<Field>)
    ensures Ascii(PrintFields(fields))
    decreases fields, 0
  {
    if fields != [] {
      var f := fields[0];
      EscapeIsAscii(f.name);
      PrintIsAscii(f.value);
      FieldsAreAscii(fields[1..]);
      AsciiJoin(Quote(f.name) + ":", Print(f.value));
    }
  }
}
