/**
 The net effect of each committed transaction, as a function of the database it ran on.
 Row ids the source looks up (the latest subscription, the reward of a payment, the
 expansion row) are passed in; the callers say what they are.
 */
module Transactions {
  import opened Prelude
  import opened Domain
  import opened Tables

  // ----- Payments ---------------------------------------------------------------------

  /** processConfirmedPayment: the status and the LTV move together. */
  function Confirm(db: DB, p: nat, u: nat, kopecks: int): (r: Result<DB>)
    ensures r.Ok? ==> r.value == db.(payments := r.value.payments, users := r.value.users)
    ensures r.Ok? ==> r.value.users.Keys == db.users.Keys
  {
    if u !in db.users then Err(NotFound)
    else Ok(db.(payments := SetStatus(db.payments, p, CONFIRMED), users := AddLtv(db.users, u, kopecks)))
  }

  /** What a charge-back takes from the user's grant: slots, or days of the latest row. */
  function UndoGrant(db: DB, u: nat, plan: Plan, target: Option<nat>): (undone: DB)
    requires target.Some? ==> target.value in db.subs
    ensures undone == db.(subs := undone.subs, expansions := undone.expansions)
  {
    if IsExpansionPlan(plan) then db.(expansions := DropExpansions(db.expansions, u))
    else if target.Some? && PlanDays(plan) > 0 then
      db.(subs := db.subs[target.value := ContractRow(db.subs[target.value], db.now, PlanDays(plan))])
    else db
  }

  /** The referral reward of a charged-back payment: marked reverted once, clawed back once. */
  function UndoReward(db: DB, reward: Option<nat>): (after: DB)
    requires reward.Some? ==> reward.value in db.rewards && db.rewards[reward.value].referrer in db.users
    ensures after == db.(rewards := after.rewards, users := after.users, ledger := after.ledger)
    ensures after.users.Keys == db.users.Keys
  {
    if reward.None? || !Revertible(db.rewards[reward.value].status) then db
    else
      var w, row := reward.value, db.rewards[reward.value];
      Clawback(db.(rewards := db.rewards[w := row.(status := Reverted)]), row.referrer, row.immediate, ClawbackOf(w))
  }

  /** The reversal up to the referral reward: status, LTV, grant. */
  function Undo(db: DB, p: nat, u: nat, seen: Payment, status: PaymentStatus, target: Option<nat>): (undone: DB)
    requires u in db.users && (target.Some? ==> target.value in db.subs)
    ensures undone == db.(payments := SetStatus(db.payments, p, status), users := undone.users, subs := undone.subs,
        expansions := undone.expansions)
    ensures undone.users.Keys == db.users.Keys
  {
    UndoGrant(db.(payments := SetStatus(db.payments, p, status), users := AddLtv(db.users, u, -seen.amount)), u,
        seen.plan, target)
  }

  /** processRevertedPayment, with the payment row as it was read before the transaction. */
  function Revert(db: DB, p: nat, u: nat, seen: Payment, status: PaymentStatus, target: Option<nat>,
          reward: Option<nat>): (r: Result<DB>)
    requires target.Some? ==> target.value in db.subs
    requires reward.Some? ==> reward.value in db.rewards && db.rewards[reward.value].referrer in db.users
    ensures r.Ok? ==> r.value == db.(payments := SetStatus(db.payments, p, status), users := r.value.users,
        subs := r.value.subs, expansions := r.value.expansions, rewards := r.value.rewards, ledger := r.value.ledger)
    ensures r.Ok? ==> r.value.users.Keys == db.users.Keys
  {
    if u !in db.users then Err(NotFound)
    else if seen.status != CONFIRMED then Ok(db.(payments := SetStatus(db.payments, p, status)))
    else Ok(UndoReward(Undo(db, p, u, seen, status, target), reward))
  }

  /** What handlePaymentProcess commits for an event, given the payment row it read. */
  function Settle(db: DB, p: nat, u: nat, event: PaymentStatus, seen: Payment, target: Option<nat>,
          reward: Option<nat>): (r: Result<DB>)
    requires target.Some? ==> target.value in db.subs
    requires reward.Some? ==> reward.value in db.rewards && db.rewards[reward.value].referrer in db.users
    ensures r.Ok? ==> r.value == db.(payments := SetStatus(db.payments, p, event), users := r.value.users,
        subs := r.value.subs, expansions := r.value.expansions, rewards := r.value.rewards, ledger := r.value.ledger)
    ensures r.Ok? ==> r.value.users.Keys == db.users.Keys
  {
    match event
    case CONFIRMED =>
      if IsPaidPlan(seen.plan) then Confirm(db, p, u, seen.amount)
      else Ok(db.(payments := SetStatus(db.payments, p, event)))
    case CANCELED => Revert(db, p, u, seen, event, target, reward)
    case CHARGEBACKED => Revert(db, p, u, seen, event, target, reward)
    case _ =>
      if StatusFits(db.payments, p, event) then Ok(db.(payments := SetStatus(db.payments, p, event)))
      else Err(ConstraintViolated)
  }

  // ----- Subscriptions ------------------------------------------------------------------

  /** Extend the latest row, or create the first one: the body shared by every activation. */
  function Grant(db: DB, u: nat, plan: Plan, target: Option<nat>, id: nat, at: int): (r: Result<DB>)
    requires target.Some? ==> target.value in db.subs
    ensures r.Ok? ==> r.value == db.(subs := r.value.subs)
    ensures r != Err(Serialization)
  {
    if PlanDays(plan) == 0 then Err(UnknownPlan)
    else if u !in db.users then Err(NotFound)
    else match target
      case Some(s) => Ok(db.(subs := db.subs[s := ExtendRow(db.subs[s], db.now, PlanDays(plan), plan)]))
      case None =>
        if id in db.subs then Err(ConstraintViolated)
        else Ok(db.(subs := db.subs[id := Sub(u, plan, Active, at + PlanDays(plan) * DAY)]))
  }

  /** tryBuyWithYAD: the debit and the grant commit together. */
  function Buy(db: DB, u: nat, plan: Plan, target: Option<nat>, id: nat, at: int): (r: Result<DB>)
    requires target.Some? ==> target.value in db.subs
    ensures r.Ok? ==> r.value == db.(users := r.value.users, ledger := r.value.ledger, subs := r.value.subs)
    ensures r.Ok? ==> r.value.users.Keys == db.users.Keys
    ensures r != Err(Serialization)
  {
    if PlanYADPrice(plan) == 0 then Err(UnknownPlan)
    else if u !in db.users then Err(NotFound)
    else if db.users[u].balance < PlanYADPrice(plan) then Err(Insufficient)
    else Grant(Post(db, u, 0 - PlanYADPrice(plan), Spent), u, plan, target, id, at)
  }

  function StartTrial(db: DB, u: nat, id: nat, at: int): (r: Result<DB>)
    ensures r.Ok? ==> r.value == db.(subs := r.value.subs, users := r.value.users)
    ensures r.Ok? ==> r.value.users.Keys == db.users.Keys
  {
    if u !in db.users then Err(NotFound)
    else if db.users[u].trialUsed then Err(AlreadyActive)
    else if id in db.subs then Err(ConstraintViolated)
    else Ok(db.(subs := db.subs[id := Sub(u, Week, Trial, at + 3 * DAY)],
                users := db.users[u := db.users[u].(trialUsed := true)]))
  }

  // ----- Credits ----------------------------------------------------------------------

  function Credit(db: DB, u: nat, delta: int, reason: Reason): (r: Result<DB>)
    ensures r.Ok? ==> r.value == db.(users := r.value.users, ledger := r.value.ledger)
    ensures r.Ok? ==> r.value.users.Keys == db.users.Keys
  {
    if u in db.users && db.users[u].balance + delta >= 0 then Ok(Post(db, u, delta, reason)) else Err(Insufficient)
  }

  /** The promo transaction: the conditional counter bump, the use row, the credit. */
  function UsePromo(db: DB, p: nat, u: nat, id: nat): (r: Result<DB>)
    ensures r.Ok? ==> r.value == db.(promos := r.value.promos, uses := r.value.uses, users := r.value.users,
        ledger := r.value.ledger)
    ensures r.Ok? ==> r.value.users.Keys == db.users.Keys
  {
    if p !in db.promos || db.promos[p].used >= db.promos[p].maxUses then Err(Exhausted)
    else if UsedBy(db.uses, p, u) || u !in db.users || id in db.uses then Err(ConstraintViolated)
    else
      var promo := db.promos[p];
      var used := db.(promos := db.promos[p := promo.(used := promo.used + 1)], uses := db.uses[id := (p, u)]);
      if !promo.isYad then Ok(used) else Credit(used, u, promo.yad, PromoCredit(p))
  }

  /** The insert does nothing when the payment already has a reward; the totals are bumped all the same. */
  function InsertReward(db: DB, w: nat, row: Reward, paid: int): DB {
    db.(rewards := if PaidFor(db.rewards, row.payment) then db.rewards else db.rewards[w := row],
        referrals := BumpReferral(db.referrals, row.referral, paid, row.amount))
  }

  /** handleReferralReward's transaction: insert as pending, add to the totals, credit, mark immediate. */
  function PayReward(db: DB, w: nat, refl: nat, referrer: nat, payment: nat, paid: int, yad: nat): (r: Result<DB>)
    ensures r.Ok? ==> r.value == db.(rewards := r.value.rewards, referrals := r.value.referrals,
        users := r.value.users, ledger := r.value.ledger)
    ensures r.Ok? ==> r.value.users.Keys == db.users.Keys
  {
    if !PaidFor(db.rewards, payment)
        && (w in db.rewards || refl !in db.referrals || payment !in db.payments || referrer !in db.users) then
      Err(ConstraintViolated)
    else if referrer !in db.users then Err(NotFound)
    else
      var inserted := InsertReward(db, w, Reward(refl, payment, referrer, yad, yad, Pending), paid);
      var credited := Post(inserted, referrer, yad, RewardCredit(w));
      Ok(credited.(rewards := MarkReward(credited.rewards, w, Immediate)))
  }

  /** The payout of a reward that was read as pending. */
  function Payout(db: DB, w: nat): (r: Result<DB>)
    ensures r.Ok? ==> r.value == db.(rewards := r.value.rewards, users := r.value.users, ledger := r.value.ledger)
    ensures r.Ok? ==> r.value.users.Keys == db.users.Keys
  {
    if w !in db.rewards || db.rewards[w].referrer !in db.users then Err(NotFound)
    else
      var row := db.rewards[w];
      if db.users[row.referrer].balance + row.immediate < 0 then Err(Insufficient)
      else
        var credited := Post(db, row.referrer, row.immediate, RewardCredit(w));
        Ok(credited.(rewards := MarkReward(credited.rewards, w, Immediate)))
  }

  // ----- Device expansions -----------------------------------------------------------------

  /** The two writes of a slot purchase: the debit, if any, and the upsert. */
  function ChargedSlots(db: DB, u: nat, cost: nat, qty: int, expires: int, found: Option<nat>, id: nat): DB
    requires u in db.users && (found.Some? ==> found.value in db.expansions)
  {
    var paid := if cost > 0 then Post(db, u, 0 - cost, Spent) else db;
    paid.(expansions := Upsert(db.expansions, found, id, u, qty, expires))
  }

  /** tryBuyDeviceExpansion, priced for `days` and ending with the subscription read before. */
  function BuySlots(db: DB, u: nat, qty: int, days: int, expires: int, found: Option<nat>, id: nat): (r: Result<DB>)
    requires found.Some? ==> found.value in db.expansions
    ensures r.Ok? ==> r.value == db.(users := r.value.users, ledger := r.value.ledger, expansions := r.value.expansions)
    ensures r.Ok? ==> r.value.users.Keys == db.users.Keys
  {
    if u !in db.users then Err(NotFound)
    else
      var owned := Owned(db.expansions, found, db.now);
      var cost := ExpansionCharge(qty, owned, days);
      if owned >= qty then Err(AlreadyActive)
      else if db.users[u].balance < cost then Err(Insufficient)
      else if found.None? && id in db.expansions then Err(ConstraintViolated)
      else
        Ok(ChargedSlots(db, u, cost, qty, expires, found, id))
  }

  /** The transaction of a paid expansion. */
  function GrantSlots(db: DB, u: nat, qty: int, expires: int, found: Option<nat>, id: nat): (r: Result<DB>)
    requires found.Some? ==> found.value in db.expansions
    ensures r.Ok? ==> r.value == db.(expansions := r.value.expansions)
  {
    if u !in db.users then Err(NotFound)
    else if found.None? && id in db.expansions then Err(ConstraintViolated)
    else Ok(db.(expansions := Upsert(db.expansions, found, id, u, qty, expires)))
  }

  // ----- What one transaction means ------------------------------------------------------------

  /** A committed purchase debits exactly the plan's price, posts one row, and moves exactly one subscription row. */
  lemma PurchaseDebitsAndExtends(db: DB, u: nat, plan: Plan, target: Option<nat>, id: nat, at: int)
    requires IsLatest(db.subs, u, target) && Buy(db, u, plan, target, id, at).Ok?
    ensures var after := Buy(db, u, plan, target, id, at).value;
            var s := if target.Some? then target.value else id;
            var price := PlanYADPrice(plan);
            && after.users == db.users[u := db.users[u].(balance := db.users[u].balance - price)]
            && price > 0 && after.users[u].balance >= 0
            && after.ledger == db.ledger + [Row(u, 0 - price, after.users[u].balance, Spent)]
            && after.subs.Keys == db.subs.Keys + {s} && after.subs - {s} == db.subs - {s}
            && after.subs[s].user == u && after.subs[s].plan == plan && after.subs[s].status == Active
            && after.subs[s].expires
               == (if target.Some? then Max(db.subs[s].expires, db.now) else at) + PlanDays(plan) * DAY
            && after == db.(users := after.users, ledger := after.ledger, subs := after.subs)
  {
  }

  /** An activation without a debit: the same row, the same extension, nothing else, for every plan with days. */
  lemma GrantIsExact(db: DB, u: nat, plan: Plan, target: Option<nat>, id: nat, at: int)
    requires IsLatest(db.subs, u, target)
    ensures var r := Grant(db, u, plan, target, id, at);
            var s := if target.Some? then target.value else id;
            && (r.Ok? <==> PlanDays(plan) > 0 && u in db.users && (target.Some? || id !in db.subs))
            && (r.Ok? ==>
                  && r.value == db.(subs := r.value.subs)
                  && r.value.subs.Keys == db.subs.Keys + {s} && r.value.subs - {s} == db.subs - {s}
                  && r.value.subs[s]
                     == Sub(u, plan, Active,
                            (if target.Some? then Max(db.subs[s].expires, db.now) else at) + PlanDays(plan) * DAY))
  {
  }

  /** A purchase goes through exactly for a plan that is sold, a user who is there, and the price on the balance. */
  lemma PurchaseCommitsIff(db: DB, u: nat, plan: Plan, target: Option<nat>, id: nat, at: int)
    requires IsLatest(db.subs, u, target)
    ensures Buy(db, u, plan, target, id, at).Ok? <==>
              && (plan == Week || plan == Month || plan == ThreeMonths)
              && u in db.users && db.users[u].balance >= PlanYADPrice(plan)
              && (id in db.subs ==> exists s | s in db.subs :: db.subs[s].user == u)
  {
    hide Grant;
    if u in db.users && PlanYADPrice(plan) > 0 {
      GrantIsExact(Post(db, u, 0 - PlanYADPrice(plan), Spent), u, plan, target, id, at);
    }
  }

  /** A trial: three days in a row of its own and the mark on the user, once per user who is there. */
  lemma TrialIsExact(db: DB, u: nat, id: nat, at: int)
    ensures var r := StartTrial(db, u, id, at);
            && (r.Ok? <==> u in db.users && !db.users[u].trialUsed && id !in db.subs)
            && (r.Ok? ==> r.value == db.(subs := db.subs[id := Sub(u, Week, Trial, at + 72 * HOUR)],
                                         users := db.users[u := db.users[u].(trialUsed := true)]))
  {
  }

  /**
   A code is used exactly while its counter is under the cap and by users who have not used it;
   that counts one, adds one row, and credits the amount of a YAD code with one ledger row.
   */
  lemma PromoUseIsExact(db: DB, p: nat, u: nat, id: nat)
    requires Constraints(db)
    ensures var r := UsePromo(db, p, u, id);
            && (r.Ok? <==> && p in db.promos && db.promos[p].used < db.promos[p].maxUses
                           && u in db.users && id !in db.uses
                           && (forall x | x in db.uses :: db.uses[x] != (p, u)))
            && (r.Ok? ==>
                  var promo := db.promos[p];
                  var balance := db.users[u].balance + promo.yad;
                  && r.value == db.(promos := r.value.promos, uses := db.uses[id := (p, u)], users := r.value.users,
                                    ledger := r.value.ledger)
                  && r.value.promos == db.promos[p := promo.(used := promo.used + 1)]
                  && (if promo.isYad then
                        && r.value.users == db.users[u := db.users[u].(balance := balance)]
                        && r.value.ledger == db.ledger + [Row(u, promo.yad, balance, PromoCredit(p))]
                      else r.value.users == db.users && r.value.ledger == db.ledger))
  {
    hide PaymentsOk, SubsOk, ReferralsOk, RewardsOk, UsesUnique, RewardPaymentUnique, PendingUnique, RefereeUnique;
  }

  /** A confirmation: the status of the one payment, the LTV of the one user, and nothing else. */
  lemma ConfirmationIsExact(db: DB, p: nat, u: nat, kopecks: int)
    requires p in db.payments
    ensures var r := Confirm(db, p, u, kopecks);
            && (r.Ok? <==> u in db.users)
            && (r.Ok? ==> r.value == db.(payments := db.payments[p := db.payments[p].(status := CONFIRMED)],
                                         users := db.users[u := db.users[u].(ltv := db.users[u].ltv + kopecks)]))
  {
  }

  /** Whatever was credited, the reversal takes back at most that, and never what is not there. */
  lemma ReversalTakesAtMostTheCredit(db: DB, reward: Option<nat>)
    requires reward.Some? ==> reward.value in db.rewards && db.rewards[reward.value].referrer in db.users
    requires forall u | u in db.users :: db.users[u].balance >= 0
    ensures var after := UndoReward(db, reward);
            && after.users.Keys == db.users.Keys
            && (forall u | u in db.users ::
                  && 0 <= after.users[u].balance <= db.users[u].balance
                  && (after.users[u].balance < db.users[u].balance ==>
                        && reward.Some? && u == db.rewards[reward.value].referrer
                        && db.users[u].balance - after.users[u].balance <= db.rewards[reward.value].immediate))
            && UndoReward(after, reward) == after
  {
    hide Post;
    UndoingTwiceIsOnce(db, reward);
    UndoRewardTakes(db, reward);
  }

  /**
   A reward that is immediate, paid or pending becomes reverted, and its referrer loses exactly
   the smaller of the balance and what was credited at once; any other is left alone.
   */
  lemma RewardIsTakenBack(db: DB, w: nat)
    requires w in db.rewards && db.rewards[w].referrer in db.users
    requires db.rewards[w].immediate >= 0 && db.users[db.rewards[w].referrer].balance >= 0
    ensures var row, after := db.rewards[w], UndoReward(db, Some(w));
            var user := db.users[row.referrer];
            var take := if user.balance < row.immediate then user.balance else row.immediate;
            if row.status == Immediate || row.status == Paid || row.status == Pending then
              && after.rewards == db.rewards[w := row.(status := Reverted)]
              && after.users == db.users[row.referrer := user.(balance := user.balance - take)]
              && after.ledger == (if take == 0 then db.ledger
                                  else db.ledger + [Row(row.referrer, -take, user.balance - take, ClawbackOf(w))])
            else after == db
  {
  }

  lemma UndoingTwiceIsOnce(db: DB, reward: Option<nat>)
    requires reward.Some? ==> reward.value in db.rewards && db.rewards[reward.value].referrer in db.users
    ensures var after := UndoReward(db, reward);
            && (reward.Some? ==> reward.value in after.rewards && after.rewards[reward.value].referrer in after.users)
            && UndoReward(after, reward) == after
  {
  }

  lemma UndoRewardTakes(db: DB, reward: Option<nat>)
    requires reward.Some? ==> reward.value in db.rewards && db.rewards[reward.value].referrer in db.users
    requires forall u | u in db.users :: db.users[u].balance >= 0
    ensures var after := UndoReward(db, reward);
            forall u | u in db.users ::
              && 0 <= after.users[u].balance <= db.users[u].balance
              && (after.users[u].balance < db.users[u].balance ==>
                    && reward.Some? && u == db.rewards[reward.value].referrer
                    && db.users[u].balance - after.users[u].balance <= db.rewards[reward.value].immediate)
  {
  }

  /**
   A committed reversal of a confirmed payment: its status and the LTV, and then either
   every slot of the user is gone, or exactly the latest row has lost exactly the plan's
   days and is marked reverted exactly when that leaves it in the past.
   */
  lemma ReversalIsExact(db: DB, p: nat, u: nat, seen: Payment, status: PaymentStatus, target: Option<nat>,
          reward: Option<nat>)
    requires p in db.payments && (target.Some? ==> target.value in db.subs)
    requires reward.Some? ==> reward.value in db.rewards && db.rewards[reward.value].referrer in db.users
    requires seen.status == CONFIRMED && Revert(db, p, u, seen, status, target, reward).Ok?
    ensures var after := Revert(db, p, u, seen, status, target, reward).value;
            && after.payments == db.payments[p := db.payments[p].(status := status)]
            && after.users[u].ltv == db.users[u].ltv - seen.amount
            && (if IsExpansionPlan(seen.plan) then
                  && after.subs == db.subs
                  && (forall e | e in after.expansions :: after.expansions[e].user != u)
                  && (forall e | e in db.expansions && db.expansions[e].user != u ::
                        e in after.expansions && after.expansions[e] == db.expansions[e])
                else after.expansions == db.expansions)
            && (target.None? ==> after.subs == db.subs)
            && (!IsExpansionPlan(seen.plan) && target.Some? && PlanDays(seen.plan) > 0 ==>
                  var row, cut := db.subs[target.value], after.subs[target.value];
                  && after.subs == db.subs[target.value := cut]
                  && cut == row.(expires := row.expires - PlanDays(seen.plan) * DAY, status := cut.status)
                  && (if cut.expires <= db.now then cut.status == SubReverted else cut.status == row.status))
  {
    UndoIsExact(db, p, u, seen, status, target);
    UndoRewardTouchesNoLtv(Undo(db, p, u, seen, status, target), reward, u);
  }

  /** The reversal's last part: the reward that was found, if any, and the one balance it was credited to. */
  lemma ReversalTakesTheReward(db: DB, p: nat, u: nat, seen: Payment, status: PaymentStatus, target: Option<nat>,
          reward: Option<nat>, v: nat)
    requires target.Some? ==> target.value in db.subs
    requires reward.Some? ==>
               && reward.value in db.rewards && db.rewards[reward.value].referrer in db.users
               && db.rewards[reward.value].immediate >= 0
    requires forall x | x in db.users :: db.users[x].balance >= 0
    requires seen.status == CONFIRMED && Revert(db, p, u, seen, status, target, reward).Ok? && v in db.users
    ensures var after := Revert(db, p, u, seen, status, target, reward).value;
            && v in after.users
            && if reward.None? then after.rewards == db.rewards && after.users[v].balance == db.users[v].balance
               else
                 var row := db.rewards[reward.value];
                 var live := row.status == Immediate || row.status == Paid || row.status == Pending;
                 var take := if db.users[v].balance < row.immediate then db.users[v].balance else row.immediate;
                 && after.rewards == (if live then db.rewards[reward.value := row.(status := Reverted)] else db.rewards)
                 && after.users[v].balance
                    == db.users[v].balance - if live && v == row.referrer then take else 0
  {
    hide UndoReward, UndoGrant;
    var undone := Undo(db, p, u, seen, status, target);
    assert undone.rewards == db.rewards && undone.users[v].balance == db.users[v].balance;
    if reward.Some? {
      var row := db.rewards[reward.value];
      assert undone.users[row.referrer].balance == db.users[row.referrer].balance;
      RewardIsTakenBack(undone, reward.value);
    } else {
      NoRewardNothingTaken(undone);
    }
  }

  lemma NoRewardNothingTaken(db: DB)
    ensures UndoReward(db, None) == db
  {
  }

  lemma UndoIsExact(db: DB, p: nat, u: nat, seen: Payment, status: PaymentStatus, target: Option<nat>)
    requires u in db.users && (target.Some? ==> target.value in db.subs)
    ensures var after := Undo(db, p, u, seen, status, target);
            && after.users[u].ltv == db.users[u].ltv - seen.amount
            && (if IsExpansionPlan(seen.plan)
                then after.subs == db.subs && after.expansions == DropExpansions(db.expansions, u)
                else after.expansions == db.expansions)
  {
  }

  lemma UndoRewardTouchesNoLtv(db: DB, reward: Option<nat>, u: nat)
    requires reward.Some? ==> reward.value in db.rewards && db.rewards[reward.value].referrer in db.users
    requires u in db.users
    ensures UndoReward(db, reward).users[u].ltv == db.users[u].ltv
  {
  }

  /** What the slots cost with this row in the table: an unexpired one takes the price of what it holds off. */
  function SlotPrice(db: DB, qty: int, days: int, found: Option<nat>): int
    requires found.Some? ==> found.value in db.expansions
  {
    ExpansionYAD(qty, days)
    - if found.Some? && db.expansions[found.value].expires > db.now
      then ExpansionYAD(db.expansions[found.value].extra, days) else 0
  }

  /**
   A row that is missing or has expired neither refuses a purchase nor makes it cheaper. An
   unexpired one refuses exactly the quantities it covers, and takes exactly the price of what
   it holds off the rest; nothing else refuses but a missing user or too little money.
   */
  lemma SlotPurchaseIsPriced(db: DB, u: nat, qty: int, days: int, expires: int, found: Option<nat>, id: nat)
    requires 1 <= qty <= 2 && IsExpansionOf(db.expansions, u, found) && ExpansionsOk(db.expansions, db.users)
    ensures var r := BuySlots(db, u, qty, days, expires, found, id);
            var covered := found.Some? && db.expansions[found.value].expires > db.now
                           && db.expansions[found.value].extra >= qty;
            && (r == Err(AlreadyActive) <==> u in db.users && covered)
            && (r.Ok? <==> u in db.users && !covered && db.users[u].balance >= SlotPrice(db, qty, days, found)
                           && (found.Some? || id !in db.expansions))
  {
    hide ChargedSlots;
  }

  /**
   A committed slot purchase debits the difference of the list prices, or the full price if
   the row it found had expired, books it once, and leaves the larger of the two counts and
   the later of the two ends.
   */
  lemma SlotPurchaseIsExact(db: DB, u: nat, qty: int, days: int, expires: int, found: Option<nat>, id: nat)
    requires 1 <= qty <= 2 && IsExpansionOf(db.expansions, u, found) && ExpansionsOk(db.expansions, db.users)
    requires BuySlots(db, u, qty, days, expires, found, id).Ok?
    ensures var price := SlotPrice(db, qty, days, found);
            price > 0 && ChargedAndGranted(db, BuySlots(db, u, qty, days, expires, found, id).value, u, price, qty,
                                           expires, found, id)
  {
    ExpansionChargeIsFair(qty, Owned(db.expansions, found, db.now), days);
  }

  /** The two tables after a slot purchase of this price, and no other change. */
  ghost predicate ChargedAndGranted(db: DB, after: DB, u: nat, price: int, qty: int, expires: int, found: Option<nat>,
          id: nat)
    requires u in db.users && (found.Some? ==> found.value in db.expansions)
  {
    var e := if found.Some? then found.value else id;
    && after == db.(users := after.users, ledger := after.ledger, expansions := after.expansions)
    && after.users == db.users[u := db.users[u].(balance := db.users[u].balance - price)]
    && after.ledger == db.ledger + [Row(u, -price, db.users[u].balance - price, Spent)]
    && after.expansions.Keys == db.expansions.Keys + {e} && after.expansions - {e} == db.expansions - {e}
    && after.expansions[e].user == (if found.Some? then db.expansions[e].user else u)
    && after.expansions[e].extra == (if found.Some? then Max(db.expansions[e].extra, qty) else qty)
    && after.expansions[e].expires == (if found.Some? then Max(db.expansions[e].expires, expires) else expires)
  }

  /** The count stored is the quantity bought, unless a larger row that has expired was still there. */
  lemma PurchaseSetsTheQuantityIff(db: DB, u: nat, qty: int, days: int, expires: int, found: Option<nat>, id: nat)
    requires found.Some? ==> found.value in db.expansions
    requires BuySlots(db, u, qty, days, expires, found, id).Ok?
    ensures var after := BuySlots(db, u, qty, days, expires, found, id).value;
            var e := if found.Some? then found.value else id;
            && e in after.expansions
            && (after.expansions[e].extra == qty <==>
                  !(found.Some? && db.expansions[e].expires <= db.now && db.expansions[e].extra > qty))
  {
  }

  /** A reward needs its referrer and, unless the payment has one already, a row that can be inserted. */
  lemma RewardCommitsIff(db: DB, w: nat, refl: nat, referrer: nat, payment: nat, paid: int, yad: nat)
    ensures PayReward(db, w, refl, referrer, payment, paid, yad).Ok? <==>
              && referrer in db.users
              && ((exists x | x in db.rewards :: db.rewards[x].payment == payment)
                  || (w !in db.rewards && refl in db.referrals && payment in db.payments))
  {
    hide Post, InsertReward, MarkReward;
  }

  /** A committed reward adds up: one credit to the referrer, payment and reward on the totals, nothing else. */
  lemma RewardAddsUp(db: DB, w: nat, refl: nat, referrer: nat, payment: nat, paid: int, yad: nat)
    requires PayReward(db, w, refl, referrer, payment, paid, yad).Ok? && refl in db.referrals
    ensures var after := PayReward(db, w, refl, referrer, payment, paid, yad).value;
            && after.users == db.users[referrer := db.users[referrer].(balance := db.users[referrer].balance + yad)]
            && after.ledger == db.ledger + [Row(referrer, yad, db.users[referrer].balance + yad, RewardCredit(w))]
            && after.referrals - {refl} == db.referrals - {refl}
            && after.referrals[refl].totalPaid == db.referrals[refl].totalPaid + paid
            && after.referrals[refl].totalReward == db.referrals[refl].totalReward + yad
            && ((forall x | x in db.rewards :: db.rewards[x].payment != payment) ==>
                  after.rewards == db.rewards[w := Reward(refl, payment, referrer, yad, yad, Immediate)])
            && after == db.(users := after.users, ledger := after.ledger, referrals := after.referrals,
                            rewards := after.rewards)
  {
  }
}
