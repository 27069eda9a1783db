/** Decimal numerals, ASCII lower-casing and the string form of a log's identity. */
module Text {

  /** `str.lower()` on the ASCII letters, the only letters in hexadecimal text. */
  function LowerChar(c: char): char {
    if 'A' <= c <= 'Z' then c - 'A' + 'a' else c
  }

  function Lower(s: string): string {
    seq(|s|, i requires 0 <= i < |s| => LowerChar(s[i]))
  }

  /** Two texts have the same lower case exactly when they agree letter by letter, up to
      capitals: `A` to `Z` stand for `a` to `z` in order, and nothing else changes. */
  lemma LowerFolds(s: string, t: string)
    ensures Lower(s) == Lower(t)
       <==> |s| == |t|
            && forall i :: 0 <= i < |s| ==>
                 || s[i] == t[i]
                 || ('A' <= s[i] <= 'Z' && t[i] as int == s[i] as int + 32)
                 || ('A' <= t[i] <= 'Z' && s[i] as int == t[i] as int + 32)
  {
    if Lower(s) == Lower(t) {
      forall i | 0 <= i < |s| ensures LowerChar(s[i]) == LowerChar(t[i]) { assert Lower(s)[i] == Lower(t)[i]; }
    }
  }

  lemma LowerTwice(s: string)
    ensures Lower(Lower(s)) == Lower(s)
  {
    assert forall i :: 0 <= i < |s| ==> Lower(Lower(s))[i] == Lower(s)[i];
  }

  /** `str.isspace()` of one character. */
  predicate IsSpace(c: char) {
    '\t' <= c <= '\r' || '\U{1c}' <= c <= ' ' || c == '\U{85}' || c == '\U{a0}' || c == '\U{1680}'
    || '\U{2000}' <= c <= '\U{200a}' || c == '\U{2028}' || c == '\U{2029}' || c == '\U{202f}'
    || c == '\U{205f}' || c == '\U{3000}'
  }

  lemma Assoc(a: string, b: string, c: string)
    ensures a + b + c == a + (b + c)
  {
  }

  predicate IsDigit(c: char) { '0' <= c <= '9' }

  predicate AllDigits(s: string) { forall i :: 0 <= i < |s| ==> IsDigit(s[i]) }

  function Decimal(n: nat): (s: string)
    ensures s != [] && AllDigits(s)
    ensures n > 0 ==> s[0] != '0'
  {
    if n < 10 then ['0' + n as char] else Decimal(n / 10) + ['0' + (n % 10) as char]
  }

  /** The number a digit string denotes. */
  function Numeral(s: string): nat
    requires AllDigits(s)
  {
    if s == [] then 0 else Numeral(s[..|s| - 1]) * 10 + (s[|s| - 1] - '0') as nat
  }

  lemma {:induction false} NumeralOfDecimal(n: nat)
    ensures Numeral(Decimal(n)) == n
  {
    if n >= 10 {
      NumeralOfDecimal(n / 10);
      assert Decimal(n)[..|Decimal(n)| - 1] == Decimal(n / 10);
    } else {
      assert Decimal(n)[..0] == [];
    }
  }

  /** The deterministic identity of one chain log, shared by the audit table and
      the Kafka message: chain id, lower-cased transaction hash and log index. */
  function EventId(chainId: nat, transactionHash: string, logIndex: nat): string {
    Decimal(chainId) + ":" + Lower(transactionHash) + ":" + Decimal(logIndex)
  }

  /** A digit string followed by a colon can be read back off the front. */
  lemma DigitsBeforeColon(a: string, x: string, b: string, y: string)
    requires AllDigits(a) && AllDigits(b)
    requires a + ":" + x == b + ":" + y
    ensures a == b && x == y
  {
    var s, t := a + ":" + x, b + ":" + y;
    assert s[|a|] == ':' && t[|b|] == ':';
    assert forall k :: 0 <= k < |a| ==> s[k] == a[k];
    assert forall k :: 0 <= k < |b| ==> t[k] == b[k];
    assert |a| == |b|;
    assert a == s[..|a|] && b == t[..|b|];
    assert x == s[|a| + 1..] && y == t[|b| + 1..];
  }

  /** A digit string after a colon can be read back off the end. */
  lemma DigitsAfterColon(x: string, a: string, y: string, b: string)
    requires AllDigits(a) && AllDigits(b)
    requires x + ":" + a == y + ":" + b
    ensures a == b && x == y
  {
    var s, t := x + ":" + a, y + ":" + b;
    assert s[|x|] == ':' && t[|y|] == ':';
    assert forall k :: |x| < k < |s| ==> s[k] == a[k - |x| - 1];
    assert forall k :: |y| < k < |t| ==> t[k] == b[k - |y| - 1];
    assert |x| == |y|;
    assert x == s[..|x|] && y == t[..|y|];
    assert a == s[|x| + 1..] && b == t[|y| + 1..];
  }

  /** Two identities agree only when the chain, the lower-cased hash and the index
      all agree, whatever characters the hash is made of. */
  lemma EventIdInjective(c1: nat, h1: string, i1: nat, c2: nat, h2: string, i2: nat)
    ensures EventId(c1, h1, i1) == EventId(c2, h2, i2)
      <==> c1 == c2 && Lower(h1) == Lower(h2) && i1 == i2
  {
    if EventId(c1, h1, i1) == EventId(c2, h2, i2) {
      var r1, r2 := Lower(h1) + ":" + Decimal(i1), Lower(h2) + ":" + Decimal(i2);
      assert EventId(c1, h1, i1) == Decimal(c1) + ":" + r1;
      assert EventId(c2, h2, i2) == Decimal(c2) + ":" + r2;
      DigitsBeforeColon(Decimal(c1), r1, Decimal(c2), r2);
      DigitsAfterColon(Lower(h1), Decimal(i1), Lower(h2), Decimal(i2));
      NumeralOfDecimal(c1);
      NumeralOfDecimal(c2);
      NumeralOfDecimal(i1);
      NumeralOfDecimal(i2);
    }
  }
}
