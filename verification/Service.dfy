/** Promo codes, trials, device slots and referral rewards: handlers that move YAD outside the payment queue. */
module Service {
  import opened Prelude
  import opened Domain
  import opened Tables
  import opened Database
  import T = Transactions

  /** Nothing rewrites the type or the amount of a promo code, and none is ever deleted. */
  ghost predicate PromosStand(before: DB, after: DB) {
    forall p | p in before.promos ::
      p in after.promos && after.promos[p].isYad == before.promos[p].isYad
          && after.promos[p].yad == before.promos[p].yad
  }

  /**
   EconomyService.UsePromoCode. The checks before the transaction only refuse early; the
   transaction itself decides, on the database it meets. `discounted` says that the user still
   holds a discount, which refuses another one. A discount is stored on the user
   after the commit: if that fails (`stored` is false) the caller gets an error although the
   code is used up. Every other error leaves nothing behind.
   */
  method UsePromoCode(repo: Repo, p: nat, u: nat, id: nat, discounted: bool, between: DB, fault: bool, stored: bool)
    returns (r: Result<Promo>)
    requires repo.Valid() && Constraints(between) && PromosStand(repo.Snapshot(), between)
    modifies repo
    ensures repo.Valid()
    ensures p !in old(repo.promos) ==> r == Err(NotFound) && repo.Snapshot() == old(repo.Snapshot())
    ensures p in old(repo.promos) ==>
              var promo := old(repo.promos)[p];
              var late := promo.expires.Some? && promo.expires.value < old(repo.now);
              var used := exists x | x in old(repo.uses) :: old(repo.uses)[x] == (p, u);
              if late || promo.used >= promo.maxUses then
                r == Err(Exhausted) && repo.Snapshot() == old(repo.Snapshot())
              else if used || (!promo.isYad && discounted) then
                r == Err(AlreadyActive) && repo.Snapshot() == old(repo.Snapshot())
              else
                match T.UsePromo(between, p, u, id)
                case Err(_) => r.Err? && repo.Snapshot() == between
                case Ok(after) =>
                  if fault then r == Err(Serialization) && repo.Snapshot() == between
                  else repo.Snapshot() == after && r == if promo.isYad || stored then Ok(promo) else Err(Unavailable)
  {
    if p !in repo.promos {
      return Err(NotFound);
    }
    var promo := repo.promos[p];
    if promo.expires.Some? && promo.expires.value < repo.now {
      return Err(Exhausted);
    }
    if promo.used >= promo.maxUses {
      return Err(Exhausted);
    }
    if UsedBy(repo.uses, p, u) || (!promo.isYad && discounted) {
      return Err(AlreadyActive);
    }
    var committed := UseInTransaction(repo, p, u, id, between, promo, fault);
    if committed.Err? {
      return Err(committed.error);
    }
    if !promo.isYad && !stored {
      return Err(Unavailable);
    }
    r := Ok(promo);
  }

  /** The transaction of a use: the counter and the use row, and the credit of a YAD code. */
  method UseInTransaction(repo: Repo, p: nat, u: nat, id: nat, between: DB, promo: Promo, fault: bool)
    returns (r: Result<bool>)
    requires Constraints(between) && p in between.promos
    requires between.promos[p].isYad == promo.isYad && between.promos[p].yad == promo.yad
    modifies repo
    ensures repo.Valid()
    ensures match T.UsePromo(between, p, u, id)
            case Err(_) => r.Err? && repo.Snapshot() == between
            case Ok(after) =>
              if fault then r == Err(Serialization) && repo.Snapshot() == between else r.Ok? && repo.Snapshot() == after
  {
    repo.Restore(between);
    var ok := repo.UsePromoCode(p, u, id);
    if !ok {
      return Err(ConstraintViolated);
    }
    if promo.isYad {
      ok := repo.AdjustYADBalance(u, promo.yad, PromoCredit(p));
    }
    if fault || !ok {
      repo.Restore(between);
      return Err(Serialization);
    }
    r := Ok(true);
  }

  /** ActivateTrial: the row and the mark that forbids a second trial commit together, or an error leaves neither. */
  method ActivateTrial(repo: Repo, u: nat, id: nat, at: int, between: DB, fault: bool) returns (r: Result<int>)
    requires repo.Valid() && Constraints(between)
    modifies repo
    ensures repo.Valid()
    ensures match T.StartTrial(old(repo.Snapshot()), u, id, at)
            case Err(NotFound) => r == Err(NotFound) && repo.Snapshot() == old(repo.Snapshot())
            case Err(AlreadyActive) => r == Err(AlreadyActive) && repo.Snapshot() == old(repo.Snapshot())
            case _ =>
              match T.StartTrial(between, u, id, at)
              case Err(_) => r.Err? && repo.Snapshot() == between
              case Ok(after) =>
                if fault then r == Err(Serialization) && repo.Snapshot() == between
                else r == Ok(at + 3 * DAY) && repo.Snapshot() == after
  {
    if u !in repo.users {
      return Err(NotFound);
    }
    if repo.users[u].trialUsed {
      return Err(AlreadyActive);
    }
    repo.Restore(between);
    var ok := repo.CreateSubscription(id, Sub(u, Week, Trial, at + 3 * DAY));
    if !ok {
      return Err(ConstraintViolated);
    }
    ok := repo.SetTrialUsed(u);
    if fault || !ok {
      repo.Restore(between);
      return Err(Serialization);
    }
    r := Ok(at + 3 * DAY);
  }

  /** The price under the lock: positive for every accepted request, and what the quote showed. */
  method SlotCharge(qty: int, owned: int, days: int) returns (cost: int)
    requires 1 <= qty <= 2 && 0 <= owned < qty
    ensures cost == ExpansionCharge(qty, owned, days) == QuotedYAD(qty, owned, days) && cost > 0
  {
    ExpansionChargeIsFair(qty, owned, days);
    cost := ExpansionYAD(qty, days);
    if owned > 0 {
      cost := cost - ExpansionYAD(owned, days);
    }
    if cost < 0 {
      cost := 0;
    }
  }

  /** DeviceExpansionQuote: what each quantity would cost now, which is what an accepted purchase charges. */
  method DeviceExpansionQuote(repo: Repo, u: nat)
          returns (days: nat, one: int, two: int, sub: Option<nat>, found: Option<nat>)
    requires repo.Valid()
    ensures IsActiveOf(repo.subs, u, repo.now, sub) && IsExpansionOf(repo.expansions, u, found)
    ensures days == if sub.Some? then DaysRemaining(repo.subs[sub.value].expires, repo.now) else 0
    ensures (forall e | e in repo.expansions && repo.expansions[e].user == u :: repo.expansions[e].expires <= repo.now)
            ==> one == ExpansionYAD(1, days) > 0 && two == ExpansionYAD(2, days) > 0
    ensures forall e | e in repo.expansions && repo.expansions[e].user == u && repo.expansions[e].expires > repo.now ::
              && one == Max(0, ExpansionYAD(1, days) - ExpansionYAD(repo.expansions[e].extra, days))
              && two == Max(0, ExpansionYAD(2, days) - ExpansionYAD(repo.expansions[e].extra, days))
  {
    sub := repo.GetActiveSubscription(u);
    found := repo.FindExpansion(u);
    days := 0;
    if sub.Some? {
      days := DaysRemaining(repo.subs[sub.value].expires, repo.now);
    }
    one, two := ExpansionYAD(1, days), ExpansionYAD(2, days);
    if found.Some? && repo.expansions[found.value].expires > repo.now {
      var paid := ExpansionYAD(repo.expansions[found.value].extra, days);
      one, two := one - paid, two - paid;
      if one < 0 {
        one := 0;
      }
      if two < 0 {
        two := 0;
      }
    }
  }

  /** The writes of tryBuyDeviceExpansion: the debit, if any, and the upsert. */
  method ChargeAndUpsert(repo: Repo, u: nat, cost: nat, qty: int, expires: int, found: Option<nat>, id: nat,
          fault: bool)
          returns (r: Result<int>)
    requires repo.Valid() && u in repo.users && 1 <= qty <= 2 && IsExpansionOf(repo.expansions, u, found)
    modifies repo
    ensures repo.Valid()
    ensures r.Err? ==> repo.Snapshot() == old(repo.Snapshot())
    ensures if old(repo.users)[u].balance < cost then r == Err(Insufficient)
            else if found.None? && id in old(repo.expansions) then r == Err(ConstraintViolated)
            else if fault then r == Err(Serialization)
            else r == Ok(cost)
                 && repo.Snapshot() == T.ChargedSlots(old(repo.Snapshot()), u, cost, qty, expires, found, id)
  {
    var start := repo.Snapshot();
    var ok := true;
    if cost > 0 {
      ok := repo.AdjustYADBalance(u, 0 - cost, Spent);
    }
    if !ok {
      return Err(Insufficient);
    }
    ok := repo.CreateDeviceExpansion(found, id, u, qty, expires);
    if !ok {
      repo.Restore(start);
      return Err(ConstraintViolated);
    }
    if fault {
      repo.Restore(start);
      return Err(Serialization);
    }
    r := Ok(cost);
  }

  /** tryBuyDeviceExpansion: re-reads the row under the user lock, charges the difference, upserts. */
  method TryBuyDeviceExpansion(repo: Repo, u: nat, qty: int, days: int, expires: int, id: nat, fault: bool)
    returns (r: Result<int>, found: Option<nat>)
    requires repo.Valid() && 1 <= qty <= 2
    modifies repo
    ensures repo.Valid() && IsExpansionOf(old(repo.expansions), u, found)
    ensures r.Err? ==> repo.Snapshot() == old(repo.Snapshot())
    ensures match T.BuySlots(old(repo.Snapshot()), u, qty, days, expires, found, id)
            case Err(e) => r == Err(e)
            case Ok(after) => if fault then r == Err(Serialization) else r.Ok? && repo.Snapshot() == after
    ensures r == Err(AlreadyActive) <==>
              u in old(repo.users) && exists e | e in old(repo.expansions) ::
                old(repo.expansions)[e].user == u && old(repo.expansions)[e].expires > old(repo.now)
                && old(repo.expansions)[e].extra >= qty
    ensures r.Ok? && (forall e | e in old(repo.expansions) && old(repo.expansions)[e].user == u ::
                        old(repo.expansions)[e].expires <= old(repo.now)) ==>
              r.value == ExpansionYAD(qty, days)
    ensures forall e | r.Ok? && e in old(repo.expansions) && old(repo.expansions)[e].user == u
                       && old(repo.expansions)[e].expires > old(repo.now) ::
              r.value == ExpansionYAD(qty, days) - ExpansionYAD(old(repo.expansions)[e].extra, days)
  {
    found := repo.FindExpansion(u);
    assert found.Some? ==> repo.expansions[found.value].extra >= 1;
    hide Constraints, T.ChargedSlots;
    if u !in repo.users {
      return Err(NotFound), found;
    }
    var owned := 0;
    if found.Some? && repo.expansions[found.value].expires > repo.now {
      owned := repo.expansions[found.value].extra;
    }
    if owned >= qty {
      return Err(AlreadyActive), found;
    }
    var cost := SlotCharge(qty, owned, days);
    r := ChargeAndUpsert(repo, u, cost, qty, expires, found, id, fault);
  }

  /**
   handleReferralReward. Ok(0) means that no reward is due: no referrer, no money, or too
   much risk. The referral and the referrer's risk are read first; the transaction runs on
   the database it meets, and fails on it if the referral or the referrer is gone by then.
   */
  method HandleReferralReward(repo: Repo, payment: nat, referee: nat, paid: int, w: nat, between: DB, fault: bool)
    returns (r: Result<nat>, referral: Option<nat>)
    requires repo.Valid() && Constraints(between)
    modifies repo
    ensures repo.Valid()
    ensures match referral
            case None => forall x | x in old(repo.referrals) :: old(repo.referrals)[x].referee != referee
            case Some(x) => x in old(repo.referrals) && old(repo.referrals)[x].referee == referee
    ensures referral.None? ==> r == Ok(0) && repo.Snapshot() == old(repo.Snapshot())
    ensures referral.Some? ==>
              var referrer := old(repo.referrals)[referral.value].referrer;
              var yad := RewardYAD(paid, old(repo.users)[referrer].risk);
              if yad == 0 then r == Ok(0) && repo.Snapshot() == old(repo.Snapshot())
              else Credited(between, T.PayReward(between, w, referral.value, referrer, payment, paid, yad), fault, yad,
                            repo.Snapshot(), r)
  {
    referral := repo.FindReferralByReferee(referee);
    if referral.None? {
      return Ok(0), None;
    }
    var referrer := repo.referrals[referral.value].referrer;
    var risk := repo.users[referrer].risk;
    if risk >= RISK_BLOCK || paid <= 0 {
      return Ok(0), referral;
    }
    var yad: nat := paid * 15 / 100 / 250;
    if yad <= 0 {
      yad := 1;
    }
    if risk >= RISK_WARN {
      yad := yad / 2;
    }
    if yad == 0 {
      return Ok(0), referral;
    }
    repo.Restore(between);
    r := CreditReward(repo, w, referral.value, referrer, payment, paid, yad, fault);
  }

  /** The whole reward and its amount, or the database as it was and the reason. */
  ghost predicate Credited(before: DB, effect: Result<DB>, fault: bool, yad: nat, left: DB, r: Result<nat>) {
    match effect
    case Err(e) => r == Err(e) && left == before
    case Ok(after) => if fault then r == Err(Serialization) && left == before else r == Ok(yad) && left == after
  }

  /** The reward's transaction: insert as pending, add to the totals, credit, mark immediate. */
  method CreditReward(repo: Repo, w: nat, referral: nat, referrer: nat, payment: nat, paid: int, yad: nat, fault: bool)
    returns (r: Result<nat>)
    requires repo.Valid() && yad > 0
    modifies repo
    ensures repo.Valid()
    ensures var start := old(repo.Snapshot());
            Credited(start, T.PayReward(start, w, referral, referrer, payment, paid, yad), fault, yad, repo.Snapshot(),
                r)
  {
    var start := repo.Snapshot();
    var row := Reward(referral, payment, referrer, yad, yad, Pending);
    var ok := repo.CreateReferralReward(w, row);
    if !ok {
      return Err(ConstraintViolated);
    }
    repo.UpdateReferralTotals(referral, paid, yad);
    assert repo.Snapshot() == T.InsertReward(start, w, row, paid);
    ok := repo.AdjustYADBalance(referrer, yad, RewardCredit(w));
    if !ok {
      repo.Restore(start);
      return Err(NotFound);
    }
    repo.UpdateRewardStatus(w, Immediate);
    if fault {
      repo.Restore(start);
      return Err(Serialization);
    }
    r := Ok(yad);
  }

  /** handleReferralPayout, under its Redis lock: pays only a reward that is still pending. */
  method HandleReferralPayout(repo: Repo, w: nat, fault: bool) returns (r: Result<bool>)
    requires repo.Valid()
    modifies repo
    ensures repo.Valid()
    ensures r != Ok(true) ==> repo.Snapshot() == old(repo.Snapshot())
    ensures r == Ok(false) <==> w !in old(repo.rewards) || old(repo.rewards)[w].status != Pending
    ensures w in old(repo.rewards) && old(repo.rewards)[w].status == Pending ==>
              match T.Payout(old(repo.Snapshot()), w)
              case Err(e) => r == Err(e)
              case Ok(after) => if fault then r == Err(Serialization) else r == Ok(true) && repo.Snapshot() == after
  {
    if w !in repo.rewards || repo.rewards[w].status != Pending {
      return Ok(false);
    }
    r := PayOut(repo, w, repo.rewards[w], fault);
  }

  /** The payout's transaction: the credit and the status. */
  method PayOut(repo: Repo, w: nat, row: Reward, fault: bool) returns (r: Result<bool>)
    requires repo.Valid() && w in repo.rewards && repo.rewards[w] == row
    modifies repo
    ensures repo.Valid() && (r.Ok? ==> r == Ok(true))
    ensures r.Err? ==> repo.Snapshot() == old(repo.Snapshot())
    ensures match T.Payout(old(repo.Snapshot()), w)
            case Err(e) => r == Err(e)
            case Ok(after) => if fault then r == Err(Serialization) else r == Ok(true) && repo.Snapshot() == after
  {
    var start := repo.Snapshot();
    assert row.referrer in repo.users;
    var ok := repo.AdjustYADBalance(row.referrer, row.immediate, RewardCredit(w));
    if !ok {
      return Err(Insufficient);
    }
    repo.UpdateRewardStatus(w, Immediate);
    if fault {
      repo.Restore(start);
      return Err(Serialization);
    }
    r := Ok(true);
  }
}
