/**
 What the main operations promise, in the columns of the tables: the laws of `Runs` bound
 every state, these say what one committed step does to it.
 */
module Promises {
  import opened Prelude
  import opened Domain
  import opened Tables
  import opened Transactions
  import opened System
  import opened Jobs
  import opened Rewards
  import opened History
  import opened Runs

  // ----- Orders ---------------------------------------------------------------------------------------

  lemma StepsKeepOrders(s: Sys, t: Sys, p: nat)
    requires Follows(s, t) && p in s.db.payments
    ensures p in t.db.payments && SameOrder(s.db.payments[p], t.db.payments[p])
  {
    hide Constraints, Reads, Effect;
    var step: Step :| Enabled(s, step) && t == Next(s, step);
    if step.Commit? {
      TransactionsKeepPayments(s, step.tx, t.db);
    }
  }

  lemma StatesFollow(states: seq<Sys>, j: nat)
    requires Run(states) && 0 < j < |states|
    ensures Follows(states[j - 1], states[j])
  {
  }

  /** What was ordered, for how much and how many, never changes, and no payment is ever deleted. */
  lemma {:induction false} PaymentsNeverChange(states: seq<Sys>, i: nat, j: nat, p: nat)
    requires Run(states) && i <= j < |states| && p in states[i].db.payments
    ensures p in states[j].db.payments
    ensures states[j].db.payments[p].amount == states[i].db.payments[p].amount
    ensures states[j].db.payments[p].plan == states[i].db.payments[p].plan
    ensures states[j].db.payments[p].qty == states[i].db.payments[p].qty
    decreases j
  {
    hide Run, Follows;
    if i < j {
      PaymentsNeverChange(states, i, j - 1, p);
      StatesFollow(states, j);
      StepsKeepOrders(states[j - 1], states[j], p);
    }
  }

  lemma SafeJobsCarry(s: Sys)
    requires Safe(s)
    ensures GrantsCarry(s.db.payments, s.granted) && OffersCarry(s.db.payments, s.offered)
    ensures Constraints(s.db) && FlightsNamed(s.db.payments, s.gone, s.flight) && s.gone !! s.db.users.Keys
    ensures ReadsStand(s.db.payments, s.flight) && AllAccounted(s.db.rewards, s.db.ledger)
    ensures PaymentsOk(s.db.payments, s.db.users) && OrdersOk(s.db.payments)
  {
  }

  /**
   An activation job is for the plan of its payment and for as many slots as were paid for,
   one if the payment says none; a reward job is for the amount of its payment.
   */
  lemma JobsCarryTheOrder(states: seq<Sys>, i: nat, g: GrantJob, o: RewardJob)
    requires Run(states) && i < |states|
    ensures g in states[i].granted ==>
              && g.payment in states[i].db.payments
              && var row := states[i].db.payments[g.payment];
                 && g.plan == row.plan && g.qty == SlotQty(g) == (if row.qty > 0 then row.qty else 1)
                 && g.qty == if row.plan == Expansion2 then 2 else 1
    ensures o in states[i].offered ==>
              o.payment in states[i].db.payments && o.paid == states[i].db.payments[o.payment].amount > 0
  {
    hide Safe, Run;
    EveryStateIsSafe(states, i);
    SafeJobsCarry(states[i]);
  }

  // ----- Confirmations -----------------------------------------------------------------------------------

  /** The row the handler read, and the user it read for. */
  function Seen(s: Sys, key: Key): Payment
    requires key in s.flight && s.flight[key].Loaded?
  {
    s.flight[key].seen
  }

  /** A handler whose transaction finds its user finds the owner of the payment. */
  lemma FlightIsTheOwners(s: Sys, key: Key)
    requires FlightsNamed(s.db.payments, s.gone, s.flight) && ReadsStand(s.db.payments, s.flight)
    requires s.gone !! s.db.users.Keys && PaymentsOk(s.db.payments, s.db.users)
    requires key in s.flight && s.flight[key].Loaded?
    ensures key.0 in s.db.payments && SameOrder(s.db.payments[key.0], Seen(s, key))
    ensures IsPaidPlan(Seen(s, key).plan)
    ensures s.flight[key].user in s.db.users ==> s.db.payments[key.0].user == s.flight[key].user
  {
    assert Names(s.db.payments, s.gone, key.0, s.flight[key].user);
  }

  lemma SettledFlight(states: seq<Sys>, i: nat, tx: Tx)
    requires Run(states) && i < |states| && Enabled(states[i], Commit(tx)) && tx.SettleEvent?
    ensures var s := states[i];
            && tx.key in s.flight && s.flight[tx.key].Loaded? && tx.key.0 in s.db.payments
            && SameOrder(s.db.payments[tx.key.0], Seen(s, tx.key)) && IsPaidPlan(Seen(s, tx.key).plan)
            && (s.flight[tx.key].user in s.db.users ==> s.db.payments[tx.key.0].user == s.flight[tx.key].user)
            && AllAccounted(s.db.rewards, s.db.ledger) && UsersOk(s.db.users)
  {
    EveryStateIsSafe(states, i);
    hide Safe, Run;
    SafeJobsCarry(states[i]);
    FlightIsTheOwners(states[i], tx.key);
  }

  /**
   A committed confirmation sets the status, adds the stored amount to the owner's LTV and
   changes nothing else in the tables; it sends one activation job for the plan and quantity
   of the payment, and one reward job for its amount if that is positive.
   */
  lemma ConfirmationPaysTheOwner(states: seq<Sys>, i: nat, tx: Tx)
    requires Run(states) && i < |states| && Enabled(states[i], Commit(tx)) && tx.SettleEvent? && tx.key.1 == CONFIRMED
    ensures var s, t, p := states[i], Next(states[i], Commit(tx)), tx.key.0;
            && p in s.db.payments && s.db.payments[p].user in s.db.users
            && var row := s.db.payments[p]; var user := s.db.users[row.user];
               && t.db == s.db.(payments := s.db.payments[p := row.(status := CONFIRMED)],
                                users := s.db.users[row.user := user.(ltv := user.ltv + row.amount)])
               && t.granted == s.granted
                               + (if tx.sentGrant
                                  then multiset{GrantJob(p, row.user, row.plan, if row.qty > 0 then row.qty else 1)}
                                  else multiset{})
               && t.offered == s.offered
                               + (if tx.sentReward && row.amount > 0 then multiset{RewardJob(p, row.user, row.amount)}
                                  else multiset{})
  {
    SettledFlight(states, i, tx);
    var s := states[i];
    ConfirmationIsExact(s.db, tx.key.0, s.flight[tx.key].user, Seen(s, tx.key).amount);
    hide Run, Constraints, Confirm, IsRewardOf, IsLatest, AllAccounted, UsersOk;
  }

  // ----- Reversals -------------------------------------------------------------------------------------------

  /** A reversal of a payment that was read CONFIRMED, as Settle commits it. */
  ghost predicate TakesBack(s: Sys, tx: Tx) {
    && tx.SettleEvent? && (tx.key.1 == CANCELED || tx.key.1 == CHARGEBACKED)
    && tx.key in s.flight && s.flight[tx.key].Loaded? && s.flight[tx.key].seen.status == CONFIRMED
  }

  lemma ReversalIsRevert(s: Sys, tx: Tx)
    requires Enabled(s, Commit(tx)) && TakesBack(s, tx)
    ensures var u, seen := s.flight[tx.key].user, s.flight[tx.key].seen;
            && u in s.db.users
            && (tx.target.Some? ==> tx.target.value in s.db.subs)
            && (tx.reward.Some? ==>
                  tx.reward.value in s.db.rewards && s.db.rewards[tx.reward.value].referrer in s.db.users)
            && (IsExpansionPlan(seen.plan) || IsLatest(s.db.subs, u, tx.target))
            && Revert(s.db, tx.key.0, u, seen, tx.key.1, tx.target, tx.reward)
               == Ok(Next(s, Commit(tx)).db)
  {
    hide Constraints;
  }

  /** One row is shorter by these days, reverted exactly when that leaves it in the past, and no other row moved. */
  ghost predicate Shortened(s: DB, t: DB, row: nat, days: nat)
    requires row in s.subs
  {
    && t.subs.Keys == s.subs.Keys && t.subs - {row} == s.subs - {row}
    && var e := s.subs[row].expires - days * 24 * HOUR;
       t.subs[row] == s.subs[row].(expires := e, status := if e <= s.now then SubReverted else s.subs[row].status)
  }

  /** The status, the amount off the owner's LTV, and the owner's slots or the days off a row that ends last. */
  ghost predicate GrantTakenBack(s: DB, t: DB, p: nat, event: PaymentStatus, target: Option<nat>)
    requires p in s.payments
  {
    var row := s.payments[p];
    && t.payments == s.payments[p := row.(status := event)]
    && row.user in s.users && row.user in t.users && t.users[row.user].ltv == s.users[row.user].ltv - row.amount
    && if row.plan == Expansion || row.plan == Expansion2 then
         && t.subs == s.subs
         && forall e | e in s.expansions ::
              if s.expansions[e].user == row.user then e !in t.expansions
              else e in t.expansions && t.expansions[e] == s.expansions[e]
       else
         && t.expansions == s.expansions
         && if target.None? then t.subs == s.subs && forall x | x in s.subs :: s.subs[x].user != row.user
            else
              && target.value in s.subs && s.subs[target.value].user == row.user
              && (forall x | x in s.subs && s.subs[x].user == row.user ::
                    s.subs[x].expires <= s.subs[target.value].expires)
              && Shortened(s, t, target.value, if row.plan == Week then 7 else if row.plan == Month then 30 else 90)
  }

  lemma RevertTakesTheGrant(s: DB, t: DB, p: nat, u: nat, seen: Payment, event: PaymentStatus, target: Option<nat>,
          reward: Option<nat>)
    requires p in s.payments && u in s.users && s.payments[p].user == u && SameOrder(s.payments[p], seen)
    requires (target.Some? ==> target.value in s.subs) && IsPaidPlan(seen.plan)
    requires IsExpansionPlan(seen.plan) || IsLatest(s.subs, u, target)
    requires reward.Some? ==> reward.value in s.rewards && s.rewards[reward.value].referrer in s.users
    requires seen.status == CONFIRMED && Revert(s, p, u, seen, event, target, reward) == Ok(t)
    ensures GrantTakenBack(s, t, p, event, target)
  {
    ReversalIsExact(s, p, u, seen, event, target, reward);
    hide Revert, Undo, UndoReward;
  }

  /**
   A committed reversal of a payment that was read CONFIRMED takes back exactly what the
   confirmation gave: the amount from the owner's LTV, and every slot of the owner or the days
   of the plan from a row of the owner that ends last.
   */
  lemma ReversalTakesTheGrantBack(states: seq<Sys>, i: nat, tx: Tx)
    requires Run(states) && i < |states| && Enabled(states[i], Commit(tx)) && TakesBack(states[i], tx)
    ensures tx.key.0 in states[i].db.payments
    ensures GrantTakenBack(states[i].db, Next(states[i], Commit(tx)).db, tx.key.0, tx.key.1, tx.target)
  {
    hide Run, Constraints, Revert, Next, Enabled, AllAccounted, UsersOk, GrantTakenBack, IsLatest;
    SettledFlight(states, i, tx);
    ReversalIsRevert(states[i], tx);
    var s := states[i];
    RevertTakesTheGrant(s.db, Next(s, Commit(tx)).db, tx.key.0, s.flight[tx.key].user, Seen(s, tx.key), tx.key.1,
                        tx.target, tx.reward);
  }

  /**
   The reward, if one was found, is reverted. If it was immediate, as every reward is that has
   not been reverted, its referrer loses exactly the smaller of the balance and the credit.
   */
  ghost predicate RewardTakenBack(s: DB, t: DB, p: nat, reward: Option<nat>, v: nat)
    requires v in s.users
  {
    && v in t.users
    && if reward.None? then t.rewards == s.rewards && t.users[v].balance == s.users[v].balance
       else
         && reward.value in s.rewards && s.rewards[reward.value].payment == p
         && var row := s.rewards[reward.value];
            && (row.status == Immediate || row.status == Reverted) && row.immediate > 0
            && t.rewards == s.rewards[reward.value := row.(status := Reverted)]
            && t.users[v].balance
               == s.users[v].balance
                  - if v != row.referrer || row.status == Reverted then 0
                    else if s.users[v].balance < row.immediate then s.users[v].balance else row.immediate
  }

  lemma FoundRewardIsLive(s: Sys, tx: Tx)
    requires Enabled(s, Commit(tx)) && TakesBack(s, tx)
    requires AllAccounted(s.db.rewards, s.db.ledger) && UsersOk(s.db.users)
    ensures forall x | x in s.db.users :: s.db.users[x].balance >= 0
    ensures tx.reward.Some? ==>
              && tx.reward.value in s.db.rewards
              && var row := s.db.rewards[tx.reward.value];
                 && row.payment == tx.key.0 && (row.status == Immediate || row.status == Reverted) && row.immediate > 0
                 && row.referrer in s.db.users
  {
    hide Constraints, Effect;
    assert tx.reward.Some? ==> Accounted(s.db.rewards[tx.reward.value], s.db.ledger, tx.reward.value);
  }

  lemma RevertTakesTheReward(s: DB, t: DB, p: nat, u: nat, seen: Payment, event: PaymentStatus, target: Option<nat>,
          reward: Option<nat>, v: nat)
    requires (target.Some? ==> target.value in s.subs) && v in s.users
    requires reward.Some? ==>
               && reward.value in s.rewards && s.rewards[reward.value].referrer in s.users
               && var row := s.rewards[reward.value];
                  row.payment == p && (row.status == Immediate || row.status == Reverted) && row.immediate > 0
    requires forall x | x in s.users :: s.users[x].balance >= 0
    requires seen.status == CONFIRMED && Revert(s, p, u, seen, event, target, reward) == Ok(t)
    ensures RewardTakenBack(s, t, p, reward, v)
  {
    hide Revert;
    ReversalTakesTheReward(s, p, u, seen, event, target, reward, v);
  }

  /**
   And it takes back the reward: in every run the one it found is reverted afterwards and the
   credit is gone as far as the balance goes; no other balance moves, and none at all without
   a reward or for one reverted before.
   */
  lemma ReversalTakesTheRewardBack(states: seq<Sys>, i: nat, tx: Tx, v: nat)
    requires Run(states) && i < |states| && Enabled(states[i], Commit(tx)) && TakesBack(states[i], tx)
    requires v in states[i].db.users
    ensures RewardTakenBack(states[i].db, Next(states[i], Commit(tx)).db, tx.key.0, tx.reward, v)
  {
    hide Run, Constraints, Revert, Next, Enabled, AllAccounted, UsersOk, RewardTakenBack, IsLatest;
    SettledFlight(states, i, tx);
    ReversalIsRevert(states[i], tx);
    var s := states[i];
    FoundRewardIsLive(s, tx);
    RevertTakesTheReward(s.db, Next(s, Commit(tx)).db, tx.key.0, s.flight[tx.key].user, Seen(s, tx.key), tx.key.1,
                         tx.target, tx.reward, v);
  }

  // ----- Activations -------------------------------------------------------------------------------------------

  /** How long a plan runs: a week, thirty days, ninety days. */
  function Term(plan: Plan): int
    requires plan == Week || plan == Month || plan == ThreeMonths
  {
    (if plan == Week then 7 else if plan == Month then 30 else 90) * 24 * HOUR
  }

  /** A row that ends last is longer by this time, from now if it had ended; or the user's first row begins. */
  ghost predicate Lengthened(s: DB, t: DB, u: nat, plan: Plan, target: Option<nat>, id: nat, at: int)
    requires plan == Week || plan == Month || plan == ThreeMonths
  {
    && t == s.(subs := t.subs)
    && if target.Some? then
         var row := target.value;
         && row in s.subs && s.subs[row].user == u
         && (forall x | x in s.subs && s.subs[x].user == u :: s.subs[x].expires <= s.subs[row].expires)
         && t.subs == s.subs[row := Sub(u, plan, Active, (if s.subs[row].expires < s.now then s.now
                                                         else s.subs[row].expires) + Term(plan))]
       else
         && (forall x | x in s.subs :: s.subs[x].user != u)
         && t.subs == s.subs[id := Sub(u, plan, Active, at + Term(plan))]
  }

  lemma GrantLengthens(s: DB, t: DB, u: nat, plan: Plan, target: Option<nat>, id: nat, at: int)
    requires (plan == Week || plan == Month || plan == ThreeMonths) && IsLatest(s.subs, u, target)
    requires Grant(s, u, plan, target, id, at) == Ok(t)
    ensures Lengthened(s, t, u, plan, target, id, at)
  {
  }

  /** An activation job gives its user exactly the time of the plan that its payment paid for. */
  lemma ActivationGivesTheTerm(states: seq<Sys>, i: nat, tx: Tx)
    requires Run(states) && i < |states| && Enabled(states[i], Commit(tx)) && tx.Activate?
    ensures var s, t := states[i].db, Next(states[i], Commit(tx)).db;
            && tx.job.payment in s.payments
            && var plan := s.payments[tx.job.payment].plan;
               && (plan == Week || plan == Month || plan == ThreeMonths)
               && Lengthened(s, t, tx.job.user, plan, tx.target, tx.id, tx.at)
  {
    hide Run, Safe, Constraints, Grant, Lengthened;
    EveryStateIsSafe(states, i);
    SafeJobsCarry(states[i]);
    GrantIsOfAPlan(states[i].db, tx.job.user, tx.job.plan, tx.target, tx.id, tx.at);
    GrantLengthens(states[i].db, Next(states[i], Commit(tx)).db, tx.job.user, tx.job.plan, tx.target, tx.id, tx.at);
  }

  lemma GrantIsOfAPlan(s: DB, u: nat, plan: Plan, target: Option<nat>, id: nat, at: int)
    requires target.Some? ==> target.value in s.subs
    requires Grant(s, u, plan, target, id, at).Ok? && plan != NinetyNineYears
    ensures plan == Week || plan == Month || plan == ThreeMonths
  {
  }

  lemma GrantedSlotsAreThere(db: DB, u: nat, qty: int, expires: int, found: Option<nat>, id: nat) returns (e: nat)
    requires IsExpansionOf(db.expansions, u, found) && GrantSlots(db, u, qty, expires, found, id).Ok?
    ensures var after := GrantSlots(db, u, qty, expires, found, id).value;
            && after == db.(expansions := after.expansions) && e in after.expansions
            && after.expansions[e].user == u
            && after.expansions[e].extra >= qty && after.expansions[e].expires >= expires
  {
    e := if found.Some? then found.value else id;
  }

  /** A device-slot job gives at least the slots that were paid for, until at least the end it names. */
  lemma SlotsPaidForAreGranted(states: seq<Sys>, i: nat, tx: Tx)
    requires Run(states) && i < |states| && Enabled(states[i], Commit(tx)) && tx.ActivateSlots?
    ensures var s, t := states[i].db, Next(states[i], Commit(tx)).db;
            && tx.job.payment in s.payments
            && var row := s.payments[tx.job.payment];
               && t == s.(expansions := t.expansions)
               && exists e | e in t.expansions ::
                    && t.expansions[e].user == tx.job.user
                    && t.expansions[e].extra >= (if row.qty > 0 then row.qty else 1)
                    && t.expansions[e].expires >= tx.expires
  {
    JobsCarryTheOrder(states, i, tx.job, RewardJob(0, 0, 0));
    hide Run, Safe, Constraints, GrantSlots, SlotQty;
    var e := GrantedSlotsAreThere(states[i].db, tx.job.user, SlotQty(tx.job), tx.expires, tx.found, tx.id);
  }

  // ----- Purchases ----------------------------------------------------------------------------------------------

  lemma SafeExpansions(s: Sys)
    requires Safe(s)
    ensures ExpansionsOk(s.db.expansions, s.db.users) && ExpansionUnique(s.db.expansions) && Constraints(s.db)
  {
  }

  /**
   The buyer pays the list price, less the list price of what an unexpired row of theirs holds,
   and that is less than was asked for; an expired row takes nothing off.
   */
  ghost predicate PaidTheListPrice(s: DB, t: DB, u: nat, qty: int, days: int) {
    && u in s.users && u in t.users
    && var paid := s.users[u].balance - t.users[u].balance;
       && paid > 0
       && ((forall e | e in s.expansions && s.expansions[e].user == u :: s.expansions[e].expires <= s.now) ==>
             paid == ExpansionYAD(qty, days))
       && forall e | e in s.expansions && s.expansions[e].user == u && s.expansions[e].expires > s.now ::
            && s.expansions[e].extra < qty
            && paid == ExpansionYAD(qty, days) - ExpansionYAD(s.expansions[e].extra, days)
  }

  lemma PurchaseCostsTheListPrice(s: DB, u: nat, qty: int, days: int, expires: int, found: Option<nat>, id: nat)
    requires 1 <= qty <= 2 && IsExpansionOf(s.expansions, u, found)
    requires ExpansionsOk(s.expansions, s.users) && ExpansionUnique(s.expansions)
    requires BuySlots(s, u, qty, days, expires, found, id).Ok?
    ensures PaidTheListPrice(s, BuySlots(s, u, qty, days, expires, found, id).value, u, qty, days)
  {
    hide BuySlots;
    SlotPurchaseIsPriced(s, u, qty, days, expires, found, id);
    SlotPurchaseIsExact(s, u, qty, days, expires, found, id);
  }

  /** In every run a committed slot purchase costs the list price of what it adds. */
  lemma SlotsCostTheListPrice(states: seq<Sys>, i: nat, tx: Tx)
    requires Run(states) && i < |states| && Enabled(states[i], Commit(tx)) && tx.BuyExpansion?
    ensures PaidTheListPrice(states[i].db, Next(states[i], Commit(tx)).db, tx.u, tx.qty, tx.days)
  {
    hide Run, Safe, Constraints, BuySlots, PaidTheListPrice;
    EveryStateIsSafe(states, i);
    SafeExpansions(states[i]);
    PurchaseCostsTheListPrice(states[i].db, tx.u, tx.qty, tx.days, tx.expires, tx.found, tx.id);
  }

  // ----- Rewards ----------------------------------------------------------------------------------------------

  lemma SafeRewardJobs(s: Sys)
    requires Safe(s)
    ensures s.rewardJobs <= s.offered && OffersCarry(s.db.payments, s.offered)
  {
  }

  lemma RewardIsOfTheShare(s: DB, t: DB, w: nat, r: nat, referrer: nat, payment: nat, paid: int, risk: int)
    requires r in s.referrals && paid > 0 && risk < 50
    requires PayReward(s, w, r, referrer, payment, paid, RewardYAD(paid, risk)) == Ok(t)
    ensures EarnedTheShare(s, t, r, referrer, paid)
  {
    RewardIsTheLargest(paid, risk);
    RewardAddsUp(s, w, r, referrer, payment, paid, RewardYAD(paid, risk));
    hide PayReward, RewardYAD;
  }

  /** One balance and one total rise by the largest whole number of YAD within fifteen per cent, or by one. */
  ghost predicate EarnedTheShare(s: DB, t: DB, r: nat, referrer: nat, paid: int) {
    && referrer in s.users && referrer in t.users && r in s.referrals && r in t.referrals
    && t.referrals[r].totalPaid == s.referrals[r].totalPaid + paid
    && var yad := t.users[referrer].balance - s.users[referrer].balance;
       && t.referrals[r].totalReward == s.referrals[r].totalReward + yad
       && if paid * 15 < 25000 then yad == 1 else yad * 25000 <= paid * 15 < (yad + 1) * 25000
  }

  /** In every run a reward transaction below the risk cut pays the share of what the referee's payment cost. */
  lemma RewardsAreTheShare(states: seq<Sys>, i: nat, tx: Tx)
    requires Run(states) && i < |states| && Enabled(states[i], Commit(tx)) && tx.RewardReferral?
    requires tx.r in states[i].db.referrals && tx.risk < 50
    ensures tx.rewardJob.payment in states[i].db.payments
    ensures EarnedTheShare(states[i].db, Next(states[i], Commit(tx)).db, tx.r, tx.referrerId,
                           states[i].db.payments[tx.rewardJob.payment].amount)
  {
    hide Run, Safe, Constraints, PayReward, EarnedTheShare, RewardYAD;
    EveryStateIsSafe(states, i);
    SafeRewardJobs(states[i]);
    var job := tx.rewardJob;
    assert job in states[i].offered;
    RewardIsOfTheShare(states[i].db, Next(states[i], Commit(tx)).db, tx.w, tx.r, tx.referrerId, job.payment, job.paid,
                       tx.risk);
  }

  // ----- Codes --------------------------------------------------------------------------------------------------

  /** The counter is under the cap, and the user is there and has not used the code. */
  ghost predicate Usable(s: DB, p: nat, u: nat) {
    && p in s.promos && s.promos[p].used < s.promos[p].maxUses && u in s.users
    && forall x | x in s.uses :: s.uses[x] != (p, u)
  }

  lemma UsesReplaced(db: DB, promos: map<nat, Promo>, uses: map<nat, (nat, nat)>)
    requires Constraints(db) && PromosOk(promos, db.users) && UsesOk(uses, promos, db.users) && UsesUnique(uses)
    ensures Constraints(db.(promos := promos, uses := uses))
  {
  }

  lemma UseKeepsConstraints(db: DB, p: nat, u: nat, id: nat)
    requires Constraints(db) && UsePromo(db, p, u, id).Ok?
    ensures Constraints(UsePromo(db, p, u, id).value)
  {
    hide Constraints, PromosOk, UsesOk, UsesUnique;
    var promo := db.promos[p];
    var promos, uses := db.promos[p := promo.(used := promo.used + 1)], db.uses[id := (p, u)];
    CodeTablesStand(db, p, u, id);
    UsesReplaced(db, promos, uses);
    if promo.isYad {
      PostKeepsConstraints(db.(promos := promos, uses := uses), u, promo.yad, PromoCredit(p));
    }
  }

  lemma CodeTablesStand(db: DB, p: nat, u: nat, id: nat)
    requires Constraints(db) && UsePromo(db, p, u, id).Ok?
    ensures var promos, uses := db.promos[p := db.promos[p].(used := db.promos[p].used + 1)], db.uses[id := (p, u)];
            PromosOk(promos, db.users) && UsesOk(uses, promos, db.users) && UsesUnique(uses)
    ensures db.promos[p].isYad ==> u in db.users && db.users[u].balance + db.promos[p].yad >= 0
  {
    hide PaymentsOk, SubsOk, ReferralsOk, RewardsOk, RewardPaymentUnique, PendingUnique, RefereeUnique;
  }

  lemma UseIsAStepIff(s: Sys, p: nat, u: nat, id: nat)
    requires Constraints(s.db)
    ensures var step := Commit(ApplyPromo(p, u, id));
            && (Enabled(s, step) <==> UsePromo(s.db, p, u, id).Ok?)
            && (Enabled(s, step) ==> Next(s, step).db == UsePromo(s.db, p, u, id).value)
  {
    if UsePromo(s.db, p, u, id).Ok? {
      UseKeepsConstraints(s.db, p, u, id);
    }
    hide Constraints, UsePromo;
  }

  /**
   In any state a use of a code commits exactly while the counter is under the cap, for a user
   who is there and has not used it; it counts one and credits a YAD code's amount once.
   */
  lemma CodesAreUsedIff(states: seq<Sys>, i: nat, p: nat, u: nat, id: nat)
    requires Run(states) && i < |states| && id !in states[i].db.uses
    ensures Enabled(states[i], Commit(ApplyPromo(p, u, id))) <==> Usable(states[i].db, p, u)
    ensures Usable(states[i].db, p, u) ==>
              var s, t := states[i].db, Next(states[i], Commit(ApplyPromo(p, u, id))).db;
              && p in t.promos && t.promos[p].used == s.promos[p].used + 1
              && t.uses == s.uses[id := (p, u)] && u in t.users
              && t.users[u].balance == s.users[u].balance + if s.promos[p].isYad then s.promos[p].yad else 0
  {
    hide Run, Safe, Constraints, UsePromo, Enabled, Next;
    EveryStateIsSafe(states, i);
    SafeExpansions(states[i]);
    PromoUseIsExact(states[i].db, p, u, id);
    UseIsAStepIff(states[i], p, u, id);
  }

  // ----- Webhooks and once-keys ----------------------------------------------------------------------------------

  /**
   A webhook is looked at once. It leads to a job exactly when its payment is known, its status
   is one of the three and its amount is within a kopeck of the stored one either way; the job
   is one, and names the stored owner.
   */
  lemma WebhooksAdmitTheAmount(s: Sys, key: Key, kopecks: int)
    ensures Enabled(s, Webhook(key, kopecks, true)) <==> key !in s.events
    ensures key !in s.events ==>
              var t := Next(s, Webhook(key, kopecks, true));
              && t == s.(events := s.events + {key}, jobs := t.jobs)
              && if && key.0 in s.db.payments && key.1 in {CONFIRMED, CANCELED, CHARGEBACKED}
                    && kopecks <= s.db.payments[key.0].amount + 1 && s.db.payments[key.0].amount <= kopecks + 1
                 then t.jobs == s.jobs + multiset{Job(key.0, s.db.payments[key.0].user, key.1)} else t.jobs == s.jobs
  {
    hide Constraints, Reads, Effect, Committed;
  }

  /** The handler that takes a job has its once-key until two days later at least. */
  ghost predicate KeyStands(s: Sys, key: Key, since: int) {
    key in s.once && since + 48 * HOUR <= s.once[key] && since <= s.db.now
  }

  lemma StepsKeepKeys(s: Sys, t: Sys, key: Key, since: int)
    requires Follows(s, t) && KeyStands(s, key, since)
    ensures KeyStands(t, key, since)
  {
    hide Enabled, Next, KeyStands;
    var step: Step :| Enabled(s, step) && t == Next(s, step);
    if step.Commit? {
      CommitsKeepKeys(s, step.tx, key, since);
    } else {
      RelaysKeepKeys(s, step, key, since);
    }
  }

  lemma CommitsKeepKeys(s: Sys, tx: Tx, key: Key, since: int)
    requires Enabled(s, Commit(tx)) && KeyStands(s, key, since)
    ensures KeyStands(Next(s, Commit(tx)), key, since)
  {
    hide Constraints, Reads, Effect;
    OnlyTicksMoveTheClock(s, tx, Next(s, Commit(tx)).db);
  }

  lemma RelaysKeepKeys(s: Sys, step: Step, key: Key, since: int)
    requires Enabled(s, step) && !step.Commit? && KeyStands(s, key, since)
    ensures KeyStands(Next(s, step), key, since)
  {
    hide Constraints, Reads, Effect, Accepted, Committed;
  }

  lemma {:induction false} KeysStand(states: seq<Sys>, j: nat, i: nat, key: Key, since: int)
    requires Run(states) && j <= i < |states| && KeyStands(states[j], key, since)
    ensures KeyStands(states[i], key, since)
    decreases i
  {
    hide Run, Follows, KeyStands;
    if j < i {
      KeysStand(states, j, i - 1, key, since);
      StatesFollow(states, i);
      StepsKeepKeys(states[i - 1], states[i], key, since);
    }
  }

  lemma TakingSetsTheKey(s: Sys, job: Job)
    requires Enabled(s, Take(job))
    ensures var t, key := Next(s, Take(job)), (job.payment, job.event);
            key in t.flight && key !in s.flight ==> KeyStands(t, key, s.db.now)
  {
    hide Constraints, Reads, Effect, Accepted, Committed;
  }

  lemma HeldKeysUseUpTheJob(s: Sys, job: Job)
    requires Enabled(s, Take(job)) && (job.payment, job.event) in s.once && s.db.now < s.once[(job.payment, job.event)]
    ensures Next(s, Take(job)) == s.(jobs := s.jobs - multiset{job})
  {
    hide Constraints, Reads, Effect, Accepted, Committed;
  }

  /**
   Once a handler has taken a job, every other job of the same event that is taken within two
   days is used up and does nothing else, whatever happened to the first.
   */
  lemma DuplicatesDoNothingForTwoDays(states: seq<Sys>, j: nat, i: nat, job: Job, other: Job)
    requires Run(states) && j < i < |states| && other.payment == job.payment && other.event == job.event
    requires Enabled(states[j], Take(job)) && states[j + 1] == Next(states[j], Take(job))
    requires (job.payment, job.event) in states[j + 1].flight && (job.payment, job.event) !in states[j].flight
    requires Enabled(states[i], Take(other)) && states[i].db.now < states[j].db.now + 48 * HOUR
    ensures Next(states[i], Take(other)) == states[i].(jobs := states[i].jobs - multiset{other})
  {
    hide Run, Enabled, Next;
    TakingSetsTheKey(states[j], job);
    KeysStand(states, j + 1, i, (job.payment, job.event), states[j].db.now);
    HeldKeysUseUpTheJob(states[i], other);
  }
}
