/** Plans, prices and the pure money arithmetic of the platform. Times are in milliseconds. */
module Domain {
  import opened Prelude

  const HOUR: int := 3_600_000
  const DAY: int := 24 * HOUR
  const DEVICE_MAX_PER_USER: int := 4

  datatype Plan = Week | Month | ThreeMonths | NinetyNineYears | Expansion | Expansion2

  datatype PaymentStatus = PENDING | CONFIRMED | CANCELED | CHARGEBACKED | EXPIRED

  datatype SubStatus = Active | Lapsed | Trial | Stopped | SubReverted

  datatype RewardStatus = Pending | Immediate | Deferred | Paid | Blocked | Reverted

  predicate IsExpansionPlan(p: Plan) {
    p.Expansion? || p.Expansion2?
  }

  /** Plans the worker activates for money; the payments table admits no other. */
  predicate IsPaidPlan(p: Plan) {
    !p.NinetyNineYears?
  }

  function PlanPriceKopecks(p: Plan): nat {
    match p
    case Week => 4000
    case Month => 10000
    case ThreeMonths => 27000
    case _ => 0
  }

  function PlanDays(p: Plan): nat {
    match p
    case Week => 7
    case Month => 30
    case ThreeMonths => 90
    case NinetyNineYears => 36135
    case _ => 0
  }

  function PlanYADBonus(p: Plan): nat {
    match p
    case Week => 10
    case Month => 25
    case ThreeMonths => 75
    case _ => 0
  }

  function PlanYADPrice(p: Plan): nat {
    match p
    case Week => 30
    case Month => 75
    case ThreeMonths => 210
    case _ => 0
  }

  function ClampDiscountPercent(p: int): (c: int)
    ensures 0 <= c <= 100 && (0 <= p <= 100 ==> c == p)
  {
    if p < 0 then 0 else if p > 100 then 100 else p
  }

  /** The amount InitiatePayment stores: zero for a free activation, else at least one ruble. */
  function CheckoutKopecks(p: Plan, storedDiscount: int): (k: nat)
    ensures k == 0 || k >= 100
    ensures k <= Max(100, PlanPriceKopecks(p))
    ensures storedDiscount >= 100 ==> k == 0
    ensures storedDiscount <= 0 ==> k == PlanPriceKopecks(p)
  {
    var base := PlanPriceKopecks(p);
    var reduced := base - base * ClampDiscountPercent(storedDiscount) / 100;
    if reduced <= 0 then 0 else if reduced < 100 then 100 else reduced
  }

  /** A discount takes its percent of the price, rounded down to a kopeck, and leaves at least a ruble or nothing. */
  lemma CheckoutTakesThePercent(p: Plan, percent: int)
    requires 0 <= percent <= 100 && PlanPriceKopecks(p) > 0
    ensures var k, base := CheckoutKopecks(p, percent), PlanPriceKopecks(p);
            if percent == 100 then k == 0
            else if base * (100 - percent) < 10000 then k == 100
            else (base - k) * 100 <= base * percent < (base - k + 1) * 100
  {
  }

  // ----- Device expansion prices --------------------------------------------------

  function UnitKopecks(daysRemaining: int): nat {
    if daysRemaining > 30 then 10000 else if daysRemaining >= 8 then 4000 else 2000
  }

  function UnitYAD(daysRemaining: int): nat {
    if daysRemaining > 30 then 50 else if daysRemaining >= 8 then 20 else 10
  }

  /** Two slots cost one unit plus a second at ninety per cent. */
  function SlotsPrice(unit: nat, qty: int): nat {
    if qty == 2 then unit + unit * 9 / 10 else unit
  }

  function ExpansionKopecks(qty: int, daysRemaining: int): nat {
    SlotsPrice(UnitKopecks(daysRemaining), qty)
  }

  function ExpansionYAD(qty: int, daysRemaining: int): nat {
    SlotsPrice(UnitYAD(daysRemaining), qty)
  }

  /** What BuyDeviceExpansion debits when `owned` slots are already active (0 for none). */
  function ExpansionCharge(qty: int, owned: int, daysRemaining: int): nat {
    var full: int := ExpansionYAD(qty, daysRemaining);
    var cost := if owned > 0 then full - ExpansionYAD(owned, daysRemaining) else full;
    if cost < 0 then 0 else cost
  }

  /** The YAD price DeviceExpansionQuote shows for the same request. */
  function QuotedYAD(qty: int, owned: int, daysRemaining: int): int {
    var full := ExpansionYAD(qty, daysRemaining);
    if owned == 0 then full
    else Max(0, full - ExpansionYAD(owned, daysRemaining))
  }

  /** Whole days left, as both the purchase and the quote compute them. */
  function DaysRemaining(expires: int, now: int): (days: nat)
    ensures days * DAY <= Max(0, expires - now) < (days + 1) * DAY
  {
    if expires <= now then 0 else (expires - now) / DAY
  }

  /**
   For every accepted request the debit is the exact price difference, is positive (so
   the clamp at zero never fires), equals the quote, and upgrading in two steps at one
   tier costs what two slots cost outright.
   */
  lemma ExpansionChargeIsFair(qty: int, owned: int, days: int)
    requires 1 <= qty <= 2 && 0 <= owned < qty
    ensures ExpansionCharge(qty, owned, days) > 0
    ensures ExpansionCharge(qty, owned, days)
         == ExpansionYAD(qty, days) - if owned > 0 then ExpansionYAD(owned, days) else 0
    ensures ExpansionCharge(qty, owned, days) == QuotedYAD(qty, owned, days)
    ensures ExpansionCharge(1, 0, days) + ExpansionCharge(2, 1, days) == ExpansionCharge(2, 0, days)
  {
  }

  /** The price list: one slot, two slots, by the days left, in YAD and in kopecks. */
  lemma ExpansionPricesAreListed(days: int)
    ensures (ExpansionYAD(1, days), ExpansionYAD(2, days))
         == if days > 30 then (50, 95) else if days >= 8 then (20, 38) else (10, 19)
    ensures (ExpansionKopecks(1, days), ExpansionKopecks(2, days))
         == if days > 30 then (10000, 19000) else if days >= 8 then (4000, 7600) else (2000, 3800)
  {
  }

  /** A shorter remainder never costs more. */
  lemma ExpansionPriceFallsWithTime(qty: int, owned: int, sooner: int, later: int)
    requires 1 <= qty <= 2 && 0 <= owned < qty && sooner <= later
    ensures ExpansionCharge(qty, owned, sooner) <= ExpansionCharge(qty, owned, later)
    ensures ExpansionKopecks(qty, sooner) <= ExpansionKopecks(qty, later)
  {
  }

  // ----- Referral rewards ----------------------------------------------------------

  const RISK_WARN: int := 50
  const RISK_BLOCK: int := 80

  /** Fifteen per cent in kopecks, one YAD per 250, at least one, then the risk cut. */
  function RewardYAD(paidKopecks: int, riskScore: int): nat {
    if paidKopecks <= 0 || riskScore >= RISK_BLOCK then 0
    else
      var base := Max(1, paidKopecks * 15 / 100 / 250);
      if riskScore >= RISK_WARN then base / 2 else base
  }

  /**
   In money terms a reward is at most fifteen per cent of the payment unless the one-YAD
   floor fired, which it does for payments of 1666 kopecks or less, and no risk cut undid it.
   */
  lemma RewardWithinShareIff(paid: int, risk: int)
    requires paid > 0
    ensures RewardYAD(paid, risk) * 250 * 100 <= paid * 15 <==> paid > 1666 || risk >= RISK_WARN
  {
    var share := paid * 15;
    assert share / 100 / 250 == share / 25000;
    assert share / 25000 * 25000 <= share;
    assert paid <= 1666 <==> share < 25000;
  }

  /**
   Below the risk cut a reward is the largest whole number of YAD within fifteen per cent of
   the payment, or one; from the cut on it is half of that, rounded down; nothing is earned
   without money or from the block on.
   */
  lemma RewardIsTheLargest(paid: int, risk: int)
    ensures paid <= 0 || risk >= 80 ==> RewardYAD(paid, risk) == 0
    ensures paid > 0 && risk < 50 ==>
              var yad := RewardYAD(paid, risk);
              if paid * 15 < 25000 then yad == 1 else yad * 25000 <= paid * 15 < (yad + 1) * 25000
    ensures paid > 0 && 50 <= risk < 80 ==>
              RewardYAD(paid, risk) * 2 <= RewardYAD(paid, 0) <= RewardYAD(paid, risk) * 2 + 1
  {
    var share := paid * 15;
    assert share / 100 / 250 == share / 25000;
    assert share / 25000 * 25000 <= share < (share / 25000 + 1) * 25000;
  }

  lemma RewardMonotone(paid: int, paid': int, risk: int, risk': int)
    requires paid <= paid' && risk' <= risk
    ensures RewardYAD(paid, risk) <= RewardYAD(paid', risk')
  {
  }
}
