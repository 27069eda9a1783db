/** The relay worker's fee and gas arithmetic, in integer wei. */
module Fees {
  import opened ClaimIndex

  datatype Caps = Caps(maxFee: nat, maxPriority: nat)

  /** What the node answers: the latest base fee and its suggested tip. */
  datatype Market = Market(baseFee: nat, suggested: nat)

  datatype Quote = Quote(fee: nat, priority: nat)

  function Min(a: int, b: int): int { if a <= b then a else b }
  function Max(a: int, b: int): int { if a >= b then a else b }

  /** The least replacement the network accepts: 12.5% more, rounded up. */
  function Bump(f: nat): nat {
    if f == 0 then 0 else (f * 1125 + 999) / 1000
  }

  /** `_fee_quote`; None is the sponsorship-cap error. */
  function FeeQuote(caps: Caps, market: Market, minimumFee: nat, minimumPriority: nat): Option<Quote> {
    var priority := Max(Min(market.suggested, caps.maxPriority), Bump(minimumPriority));
    var required := Max(market.baseFee + priority, Bump(minimumFee));
    if priority > caps.maxPriority || required > caps.maxFee then None
    else
      var quoted := Min(market.baseFee * 2 + priority, caps.maxFee);
      Some(Quote(Max(quoted, required), priority))
  }

  /** `Bump` is the ceiling of nine eighths. */
  lemma BumpIsNineEighths(f: nat)
    ensures 8 * Bump(f) >= 9 * f
    ensures f > 0 ==> 8 * (Bump(f) - 1) < 9 * f && Bump(f) > f
  {
  }

  /** Fees a sponsor may pay now: within the caps, covering the base fee and the tip,
      and a valid replacement of the previous quote. */
  predicate Acceptable(caps: Caps, market: Market, minimumFee: nat, minimumPriority: nat, q: Quote) {
    && q.priority <= caps.maxPriority && q.fee <= caps.maxFee
    && q.fee >= market.baseFee + q.priority
    && 8 * q.fee >= 9 * minimumFee && 8 * q.priority >= 9 * minimumPriority
    && q.priority >= Min(market.suggested, caps.maxPriority)
  }

  /** A quote is acceptable, and one is refused only when no fees are. */
  lemma QuoteIffAcceptable(caps: Caps, market: Market, minimumFee: nat, minimumPriority: nat)
    ensures match FeeQuote(caps, market, minimumFee, minimumPriority)
            case Some(q) => Acceptable(caps, market, minimumFee, minimumPriority, q)
            case None => forall q :: !Acceptable(caps, market, minimumFee, minimumPriority, q)
  {
    BumpIsNineEighths(minimumFee);
    BumpIsNineEighths(minimumPriority);
  }

  /** Among the acceptable quotes the tip is the least one. */
  lemma LeastPriority(caps: Caps, market: Market, minimumFee: nat, minimumPriority: nat, q: Quote)
    requires FeeQuote(caps, market, minimumFee, minimumPriority).Some?
    requires Acceptable(caps, market, minimumFee, minimumPriority, q)
    ensures FeeQuote(caps, market, minimumFee, minimumPriority).value.priority <= q.priority
  {
    BumpIsNineEighths(minimumPriority);
  }

  /** With that tip the fee leaves room for the base fee to double, as far as the cap
      allows, and is the least acceptable one that does. */
  lemma LeastFeeWithHeadroom(caps: Caps, market: Market, minimumFee: nat, minimumPriority: nat, other: Quote)
    requires FeeQuote(caps, market, minimumFee, minimumPriority).Some?
    ensures var q := FeeQuote(caps, market, minimumFee, minimumPriority).value;
            var headroom := Min(2 * market.baseFee + q.priority, caps.maxFee);
            && q.fee >= headroom
            && (Acceptable(caps, market, minimumFee, minimumPriority, other)
                && other.priority == q.priority && other.fee >= headroom
                ==> other.fee >= q.fee)
  {
    BumpIsNineEighths(minimumFee);
  }

  // ------------------------------------------------------------------- the fee ladder

  function Pow(b: nat, e: nat): nat {
    if e == 0 then 1 else b * Pow(b, e - 1)
  }

  /** Every step of the ladder is a valid replacement of the one before. */
  predicate Ladder(fees: seq<nat>) {
    forall i :: 0 < i < |fees| ==> 8 * fees[i] >= 9 * fees[i - 1]
  }

  lemma ScaleUp(c: nat, x: nat, y: nat)
    requires x <= y
    ensures c * x <= c * y
  {
  }

  /** One more rung: 9 a f0 <= 8 b f1 from a f0 <= b f and 9 f <= 8 f1. */
  lemma Rung(a: nat, b: nat, f0: nat, f: nat, f1: nat)
    requires a * f0 <= b * f && 9 * f <= 8 * f1
    ensures (9 * a) * f0 <= (8 * b) * f1
  {
    ScaleUp(b, 9 * f, 8 * f1);
    assert (9 * a) * f0 == 9 * (a * f0) && b * (9 * f) == 9 * (b * f) && (8 * b) * f1 == b * (8 * f1);
  }

  lemma {:induction false} LadderBound(fees: seq<nat>, cap: nat, k: nat)
    requires Ladder(fees) && k < |fees| && fees[k] <= cap
    ensures Pow(9, k) * fees[0] <= Pow(8, k) * fees[k] <= Pow(8, k) * cap
  {
    if k > 0 {
      LadderBound(fees, fees[k - 1], k - 1);
      Rung(Pow(9, k - 1), Pow(8, k - 1), fees[0], fees[k - 1], fees[k]);
    }
    ScaleUp(Pow(8, k), fees[k], cap);
  }

  lemma {:induction false} LadderRises(fees: seq<nat>, i: nat, n: nat)
    requires Ladder(fees) && i + 6 * n < |fees|
    ensures Pow(2, n) * fees[i] <= fees[i + 6 * n]
  {
    if n > 0 {
      LadderRises(fees, i, n - 1);
      var j := i + 6 * (n - 1);
      assert 9 * fees[j] <= 8 * fees[j + 1] && 9 * fees[j + 1] <= 8 * fees[j + 2];
      assert 9 * fees[j + 2] <= 8 * fees[j + 3] && 9 * fees[j + 3] <= 8 * fees[j + 4];
      assert 9 * fees[j + 4] <= 8 * fees[j + 5] && 9 * fees[j + 5] <= 8 * fees[j + 6];
      assert 2 * fees[j] <= fees[j + 6];
      assert Pow(2, n) * fees[i] == 2 * (Pow(2, n - 1) * fees[i]);
    }
  }

  /** Six replacements double the fee, so their number is logarithmic in cap / f0. */
  lemma ReplacementsAreLogarithmic(fees: seq<nat>, cap: nat, k: nat)
    requires Ladder(fees) && k < |fees| && fees[0] > 0
    requires forall i :: 0 <= i < |fees| ==> fees[i] <= cap
    ensures Pow(2, k / 6) * fees[0] <= cap
    ensures Pow(2, k / 6) <= cap
  {
    LadderRises(fees, 0, k / 6);
    assert Pow(2, k / 6) <= Pow(2, k / 6) * fees[0];
  }

  lemma BumpIsMonotone(a: nat, b: nat)
    requires a <= b
    ensures Bump(a) <= Bump(b)
  {
  }

  /** The store accepts a replacement whose fee exceeds the newest one's, `newest`; the
      quote was made against the caller's copy of the record, `basis`, which another
      replica may have left behind. The next rung is guaranteed, whatever the market,
      exactly when the copy has the same next rung as the record, or one wei is a rung. */
  lemma RungGuaranteedIff(basis: nat, newest: nat)
    requires basis <= newest
    ensures (forall caps, market, p :: FeeQuote(caps, market, basis, p).Some?
               && FeeQuote(caps, market, basis, p).value.fee > newest
               ==> 8 * FeeQuote(caps, market, basis, p).value.fee >= 9 * newest)
            <==> Bump(basis) == Bump(newest) || newest <= 8
  {
    BumpIsNineEighths(basis);
    BumpIsNineEighths(newest);
    BumpIsMonotone(basis, newest);
    var least := Max(Bump(basis), newest + 1);
    var tight := FeeQuote(Caps(least, 0), Market(least, 0), basis, 0);
    assert tight == Some(Quote(least, 0));
    LeastRung(basis, newest);
  }

  lemma LeastRung(basis: nat, newest: nat)
    requires Bump(basis) <= Bump(newest)
    ensures 8 * Max(Bump(basis), newest + 1) >= 9 * newest <==> Bump(basis) == Bump(newest) || newest <= 8
  {
    BumpIsNineEighths(newest);
  }

  // --------------------------------------------------------------------------- gas

  /** The estimate with its 20% buffer; None is the gas-cap error. */
  function BufferedGas(estimate: nat, cap: nat): Option<nat> {
    var gas := (estimate * 120 + 99) / 100;
    if gas > cap then None else Some(gas)
  }

  /** The gas limit is the least integer at least 1.2 times the estimate, if that fits. */
  lemma GasIsBuffered(estimate: nat, cap: nat)
    ensures match BufferedGas(estimate, cap)
            case Some(gas) =>
              gas <= cap && 10 * gas >= 12 * estimate && forall g: nat :: 10 * g >= 12 * estimate ==> g >= gas
            case None => forall g: nat :: 10 * g >= 12 * estimate ==> g > cap
  {
  }
}
