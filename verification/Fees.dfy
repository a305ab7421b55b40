/** Preflight checks, fee limits and amounts of a payout. */
module Fees {
  // From `skr_crypto/server/tron_client.py`, `wallet.py` and `routes.py`. Decimals are exact rationals;
  // 1 TRX is 10^6 sun.

  import opened Options

  const MIN_FEE_LIMIT_SUN: int := 5_000_000
  const SUN_PER_TRX: real := 1_000_000.0
  const ENERGY_PRICE_TTL_SEC: real := 3600.0

  /** USDT_FEE_LIMIT_SUN, MIN_TRX_RESERVE, MAX_ENERGY_BURN_TRX, FEE_LIMIT_SAFETY_MULT. */
  datatype Config = Config(ceiling: int, reserve: real, maxBurn: real, mult: real)

  /** What `validate` in config.py demands of these settings. */
  predicate Validated(c: Config) {
    c.ceiling as real / SUN_PER_TRX <= c.reserve && c.maxBurn >= 0.0 && c.mult >= 1.0
  }

  // ----- fee limit ----------------------------------------------------------------------------

  /** The clamp both `compute_fee_limit_sun` and `Wallet.send_usdt` end with. */
  function Clamp(c: Config, sun: int): int {
    var capped := if sun < c.ceiling then sun else c.ceiling;
    if capped > MIN_FEE_LIMIT_SUN then capped else MIN_FEE_LIMIT_SUN
  }

  /** `compute_fee_limit_sun`: `not estimated_energy` covers None and 0. */
  function FeeLimit(c: Config, estimate: Option<nat>, price: nat): int {
    if estimate == None || estimate == Some(0) then c.ceiling
    else Clamp(c, ((estimate.value * price) as real * c.mult).Floor)
  }

  /** The highest fee limit a broadcast can carry. */
  function TopLimit(c: Config): int {
    if c.ceiling > MIN_FEE_LIMIT_SUN then c.ceiling else MIN_FEE_LIMIT_SUN
  }

  lemma LimitBounds(c: Config, estimate: Option<nat>, price: nat)
    ensures MIN_FEE_LIMIT_SUN <= Clamp(c, FeeLimit(c, estimate, price)) <= TopLimit(c)
  {
  }

  /** The wallet's second clamp changes nothing, whatever the estimate and price, exactly when the
      configured ceiling is not below the floor. */
  lemma SecondClampIsIdentity(c: Config)
    ensures (forall estimate: Option<nat>, price: nat ::
               Clamp(c, FeeLimit(c, estimate, price)) == FeeLimit(c, estimate, price))
            <==> c.ceiling >= MIN_FEE_LIMIT_SUN
  {
    if c.ceiling < MIN_FEE_LIMIT_SUN {
      assert Clamp(c, FeeLimit(c, None, 0)) != FeeLimit(c, None, 0);
    }
  }

  // ----- preflight ----------------------------------------------------------------------------

  /** What one request reads from the chain: the two prices come from two calls of
      `energy_price_sun`. */
  datatype Readings = Readings(usdt: real, trx: real, estimate: Option<nat>, burnPrice: nat, limitPrice: nat)

  datatype Verdict =
    | InsufficientUsdt
    | InsufficientTrx
    | EnergyTooExpensive
    | Admit(feeLimit: int)

  function Preflight(c: Config, amount: real, r: Readings): Verdict {
    if r.usdt < amount then InsufficientUsdt
    else if r.trx < c.reserve then InsufficientTrx
    else if
      && r.estimate.Some? && r.estimate.value > 0 && c.maxBurn > 0.0
      && (r.estimate.value * r.burnPrice) as real / SUN_PER_TRX > c.maxBurn
    then EnergyTooExpensive
    else Admit(FeeLimit(c, r.estimate, r.limitPrice))
  }

  /** The balances cover the payout and its reserve, and its burn is not above the cap. */
  predicate Payable(c: Config, amount: real, r: Readings) {
    && amount <= r.usdt
    && c.reserve <= r.trx
    && !(r.estimate.Some? && c.maxBurn > 0.0 && (r.estimate.value * r.burnPrice) as real / SUN_PER_TRX > c.maxBurn)
  }

  /** Preflight admits exactly the payable requests, and refuses any other with its first shortage. */
  lemma PreflightMeaning(c: Config, amount: real, r: Readings)
    ensures Preflight(c, amount, r).Admit? <==> Payable(c, amount, r)
    ensures Preflight(c, amount, r).InsufficientUsdt? <==> r.usdt < amount
    ensures Preflight(c, amount, r).InsufficientTrx? <==> amount <= r.usdt && r.trx < c.reserve
    ensures Preflight(c, amount, r).EnergyTooExpensive? <==>
              && amount <= r.usdt && c.reserve <= r.trx && r.estimate.Some? && c.maxBurn > 0.0
              && (r.estimate.value * r.burnPrice) as real / SUN_PER_TRX > c.maxBurn
  {
    if r.estimate == Some(0) { assert r.estimate.value * r.burnPrice == 0; }
  }

  /** The fee limit that reaches the chain when the request is admitted. */
  function BroadcastLimit(c: Config, amount: real, r: Readings): Option<int> {
    match Preflight(c, amount, r)
    case Admit(limit) => Some(Clamp(c, limit))
    case _ => None
  }

  /** The padded cost of an estimate, in sun. */
  function PaddedCost(c: Config, energy: nat, price: nat): real {
    (energy * price) as real * c.mult
  }

  /** With a usable estimate the fee limit is its padded cost to the sun, as far as floor and ceiling
      let it be; without one it is as high as they let it be. */
  lemma FeeLimitIsTight(c: Config, amount: real, r: Readings)
    requires Payable(c, amount, r)
    ensures BroadcastLimit(c, amount, r).Some?
    ensures var limit := BroadcastLimit(c, amount, r).value;
            && MIN_FEE_LIMIT_SUN <= limit && (limit <= c.ceiling || limit == MIN_FEE_LIMIT_SUN)
            && if r.estimate.Some? && r.estimate.value > 0 then
                 var cost := PaddedCost(c, r.estimate.value, r.limitPrice);
                 && (limit as real <= cost || limit == MIN_FEE_LIMIT_SUN)
                 && (cost < limit as real + 1.0 || c.ceiling <= limit)
               else c.ceiling <= limit
  {
    PreflightMeaning(c, amount, r);
  }

  ghost predicate Covered(c: Config, amount: real, r: Readings) {
    BroadcastLimit(c, amount, r).Some? ==> BroadcastLimit(c, amount, r).value as real / SUN_PER_TRX <= r.trx
  }

  /** Amounts are positive, as a request's is. Under a validated configuration every admitted transfer's fee limit is covered by the TRX
      balance just read, exactly when the ceiling reaches the floor or the reserve covers it. */
  lemma FeeLimitCovered(c: Config)
    requires Validated(c)
    ensures (forall amount, r :: amount > 0.0 ==> Covered(c, amount, r)) <==>
            c.ceiling >= MIN_FEE_LIMIT_SUN || c.reserve >= MIN_FEE_LIMIT_SUN as real / SUN_PER_TRX
  {
    if c.ceiling >= MIN_FEE_LIMIT_SUN || c.reserve >= MIN_FEE_LIMIT_SUN as real / SUN_PER_TRX {
      forall amount, r ensures Covered(c, amount, r) {
        LimitBounds(c, r.estimate, r.limitPrice);
      }
    } else {
      assert !Covered(c, 1.0, Readings(1.0, c.reserve, None, 0, 0));
    }
  }

  ghost predicate PaysItsEstimate(c: Config, amount: real, r: Readings) {
    r.estimate.Some? && BroadcastLimit(c, amount, r).Some? ==>
      BroadcastLimit(c, amount, r).value >= r.estimate.value * r.burnPrice
  }

  /** With one price for both reads, an admitted estimated transfer's fee limit is never below its
      own estimate, exactly when the burn cap is on and no higher than the top fee limit. */
  lemma FeeLimitPaysEstimate(c: Config)
    requires Validated(c)
    ensures (forall amount, r: Readings :: amount > 0.0 && r.burnPrice == r.limitPrice ==> PaysItsEstimate(c, amount, r)) <==>
            c.maxBurn > 0.0 && (c.maxBurn * SUN_PER_TRX).Floor <= TopLimit(c)
  {
    if c.maxBurn > 0.0 && (c.maxBurn * SUN_PER_TRX).Floor <= TopLimit(c) {
      forall amount, r: Readings | r.burnPrice == r.limitPrice ensures PaysItsEstimate(c, amount, r) {
        if r.estimate.Some? && BroadcastLimit(c, amount, r).Some? {
          ScaledUp(r.estimate.value * r.burnPrice, c.mult);
        }
      }
    } else {
      var energy: nat := if c.maxBurn > 0.0 then (c.maxBurn * SUN_PER_TRX).Floor else TopLimit(c) + 1;
      TooDear(c, energy);
    }
  }

  lemma TooDear(c: Config, energy: nat)
    requires energy > TopLimit(c) && (c.maxBurn > 0.0 ==> energy as real / SUN_PER_TRX <= c.maxBurn)
    ensures exists r: Readings :: r.burnPrice == r.limitPrice && !PaysItsEstimate(c, 1.0, r)
  {
    var r := Readings(1.0, c.reserve, Some(energy), 1, 1);
    assert energy * 1 == energy;
    LimitBounds(c, r.estimate, 1);
    assert !PaysItsEstimate(c, 1.0, r);
  }

  lemma ScaledUp(sun: nat, mult: real)
    requires mult >= 1.0
    ensures (sun as real * mult).Floor >= sun
  {
    assert sun as real * mult >= sun as real;
  }

  // ----- energy price cache -------------------------------------------------------------------

  /** One chain parameter; `value` is None when it is not an int. */
  datatype Parameter = Parameter(key: string, value: Option<int>)

  predicate IsPrice(p: Parameter) {
    p.key in {"getEnergyFee", "EnergyFee"} && p.value.Some? && p.value.value > 0
  }

  /** The first usable price in the list, else the configured fallback. */
  function ChainPrice(params: seq<Parameter>, fallback: nat): (price: nat)
    requires fallback > 0
    ensures price > 0
  {
    if params == [] then fallback
    else if IsPrice(params[0]) then params[0].value.value
    else ChainPrice(params[1..], fallback)
  }

  /** The parameter states the energy price v. */
  predicate Quotes(p: Parameter, v: nat) {
    v > 0 && (p == Parameter("getEnergyFee", Some(v)) || p == Parameter("EnergyFee", Some(v)))
  }

  /** A list yields the first energy price it states, and the fallback only when it states none. */
  lemma {:induction false} ChainPriceIsFirst(params: seq<Parameter>, fallback: nat, i: nat, v: nat)
    requires fallback > 0 && i <= |params|
    requires forall j, u :: 0 <= j < i ==> !Quotes(params[j], u)
    ensures i < |params| && Quotes(params[i], v) ==> ChainPrice(params, fallback) == v
    ensures i == |params| ==> ChainPrice(params, fallback) == fallback
  {
    if i > 0 {
      assert params[0].value.Some? && params[0].value.value > 0 ==> !Quotes(params[0], params[0].value.value);
      assert forall j, u :: 0 <= j < i - 1 ==> Quotes(params[1..][j], u) == Quotes(params[j + 1], u);
      ChainPriceIsFirst(params[1..], fallback, i - 1, v);
    }
  }

  datatype Cache = Cache(price: Option<nat>, fetchedAt: real)

  class EnergyPriceCache {
    var price: Option<nat>
    var fetchedAt: real
    const fallback: nat

    constructor (fallback: nat)
      ensures this.fallback == fallback && View() == Cache(None, 0.0)
    {
      price, fetchedAt := None, 0.0;
      this.fallback := fallback;
    }

    function View(): Cache
      reads this
    {
      Cache(price, fetchedAt)
    }

    method FindPrice(params: seq<Parameter>) returns (found: nat)
      requires fallback > 0
      ensures found == ChainPrice(params, fallback)
    {
      var i := 0;
      while i < |params|
        invariant i <= |params|
        invariant ChainPrice(params, fallback) == ChainPrice(params[i..], fallback)
      {
        if IsPrice(params[i]) { return params[i].value.value; }
        i := i + 1;
      }
      found := fallback;
    }

    /** `energy_price_sun`; `rpc` is None when the chain call raised. */
    method Read(now: real, rpc: Option<seq<Parameter>>) returns (current: nat)
      requires fallback > 0
      modifies this
      ensures Some(current) == price
      ensures old(price).Some? && now - old(fetchedAt) < ENERGY_PRICE_TTL_SEC ==> View() == old(View())
      ensures old(price).None? || now - old(fetchedAt) >= ENERGY_PRICE_TTL_SEC ==>
                && fetchedAt == now
                && (rpc.Some? ==> current == ChainPrice(rpc.value, fallback))
                && (rpc.None? ==> current == if old(price).Some? then old(price).value else fallback)
    {
      if price.Some? && now - fetchedAt < ENERGY_PRICE_TTL_SEC { return price.value; }
      if rpc.Some? {
        var found := FindPrice(rpc.value);
        price := Some(found);
      } else if price.None? {
        price := Some(fallback);
      }
      fetchedAt := now;
      current := price.value;
    }

    /** The two reads of one `/send`: the price is the same unless the cache expired in between. */
    method ReadTwice(now: real, rpc: Option<seq<Parameter>>, later: real, rpc2: Option<seq<Parameter>>)
      returns (burnPrice: nat, limitPrice: nat)
      requires fallback > 0 && now <= later
      modifies this
      ensures later - old(fetchedAt) < ENERGY_PRICE_TTL_SEC && old(price).Some? ==> burnPrice == limitPrice
      ensures (old(price).None? || now - old(fetchedAt) >= ENERGY_PRICE_TTL_SEC) && later - now < ENERGY_PRICE_TTL_SEC ==>
                burnPrice == limitPrice
      ensures rpc2.None? ==> burnPrice == limitPrice
    {
      burnPrice := Read(now, rpc);
      limitPrice := Read(later, rpc2);
    }
  }

  // ----- amounts ------------------------------------------------------------------------------

  /** A finite Decimal: `coefficient` * 10^`exponent`. */
  datatype Decimal = Decimal(coefficient: nat, exponent: int)

  function Pow10(n: nat): (p: nat)
    ensures p > 0
  {
    if n == 0 then 1 else 10 * Pow10(n - 1)
  }

  function Value(d: Decimal): real {
    if d.exponent >= 0 then (d.coefficient * Pow10(d.exponent)) as real
    else d.coefficient as real / Pow10(-d.exponent) as real
  }

  /** `int(amount * Decimal(10 ** USDT_DECIMALS))`. */
  function RawAmount(d: Decimal): int {
    (Value(d) * Pow10(6) as real).Floor
  }

  lemma {:induction false} PowSum(m: nat, n: nat)
    ensures Pow10(m + n) == Pow10(m) * Pow10(n)
  {
    if m > 0 {
      PowSum(m - 1, n);
      assert Pow10(m + n) == 10 * Pow10(m - 1 + n);
    }
  }

  /** The raw units sent are the amount to the last digit, exactly when the digits beyond the sixth
      are zero; `amount_max_decimals` in models.py lets only amounts with exponent -6 or more in. */
  lemma RawAmountExact(d: Decimal)
    ensures RawAmount(d) as real / Pow10(6) as real == Value(d) <==>
            d.exponent >= -6 || d.coefficient % Pow10(-d.exponent - 6) == 0
    ensures d.exponent >= -6 ==> RawAmount(d) as real / Pow10(6) as real == Value(d)
  {
    var million := Pow10(6);
    var scaled := Value(d) * million as real;
    assert scaled / million as real == Value(d);
    if d.exponent >= 0 {
      assert scaled == (d.coefficient * Pow10(d.exponent) * million) as real;
    } else if d.exponent >= -6 {
      PowSum(-d.exponent, d.exponent + 6);
      var part := Pow10(d.exponent + 6);
      Scale(d.coefficient, Pow10(-d.exponent), part, million);
      assert scaled == (d.coefficient * part) as real;
    } else {
      var rest := Pow10(-d.exponent - 6);
      PowSum(6, -d.exponent - 6);
      Shrink(d.coefficient, rest, million);
      assert scaled == d.coefficient as real / rest as real;
      IntegralQuotient(d.coefficient, rest);
    }
  }

  lemma IntegralQuotient(c: nat, k: nat)
    requires k > 0
    ensures var q := c as real / k as real; q == q.Floor as real <==> c % k == 0
  {
    RealQuotient(c, k, c / k, c % k);
  }

  lemma RealQuotient(c: nat, k: nat, m: nat, rest: nat)
    requires rest < k && c == m * k + rest
    ensures var q := c as real / k as real; q == q.Floor as real <==> rest == 0
  {
    Fraction(rest as real, k as real, rest as real / k as real);
    SplitQuotient(m as real, rest as real, k as real);
    Whole(m, rest as real / k as real);
    assert c as real / k as real == m as real + rest as real / k as real by {
      assert c as real == m as real * k as real + rest as real;
    }
  }

  lemma SplitQuotient(m: real, rest: real, k: real)
    requires k > 0.0
    ensures (m * k + rest) / k == m + rest / k
  {
  }

  lemma Fraction(rest: real, k: real, f: real)
    requires 0.0 <= rest < k && f * k == rest
    ensures 0.0 <= f < 1.0
    ensures f == 0.0 <==> rest == 0.0
  {
    Positive(f, k);
    Positive(-f, k);
    Positive(f - 1.0, k);
    assert (f - 1.0) * k == rest - k < 0.0;
  }

  lemma Positive(x: real, k: real)
    requires k > 0.0
    ensures x > 0.0 ==> x * k > 0.0
  {
  }

  lemma Whole(m: int, f: real)
    requires 0.0 <= f < 1.0
    ensures (m as real + f).Floor == m
  {
    var n := (m as real + f).Floor;
    assert n as real <= m as real + f < (n + 1) as real;
    Between(n, m + 1);
    Between(m, n + 1);
  }

  lemma Between(a: int, b: int)
    ensures a as real < b as real ==> a < b
  {
  }

  lemma Scale(c: nat, k: nat, part: nat, million: nat)
    requires k > 0 && million == k * part
    ensures c as real / k as real * million as real == (c * part) as real
  {
    var q := c as real / k as real;
    calc {
      q * million as real;
      q * (k as real * part as real);
      (q * k as real) * part as real;
      c as real * part as real;
    }
  }

  lemma Shrink(c: nat, rest: nat, million: nat)
    requires rest > 0 && million > 0
    ensures c as real / (million * rest) as real * million as real == c as real / rest as real
  {
    var q := c as real / (million * rest) as real;
    assert q * (million as real * rest as real) == c as real;
    assert (q * million as real) * rest as real == c as real;
  }

  /** Raw units identify accepted amounts: two of them are paid alike only when they are equal. */
  lemma RawAmountInjective(a: Decimal, b: Decimal)
    requires a.exponent >= -6 && b.exponent >= -6
    ensures RawAmount(a) == RawAmount(b) <==> Value(a) == Value(b)
  {
    RawAmountExact(a);
    RawAmountExact(b);
  }
}
