/** The repository: one method per SQL statement, each leaving every table constraint in force. */
module Database {
  import opened Prelude
  import opened Domain
  import opened Tables
  import opened Merge

  /** The tables MergeUsers reassigns in its loop, in source order. */
  datatype Target =
    | Subscriptions
    | Payments
    | YadTransactions
    | Child(table: ChildTable)
    | DeviceExpansions
    | PromoCodes

  const REASSIGN: seq<Target> := [
    Subscriptions, Payments, YadTransactions, Child(Tickets), Child(TicketMessages), Child(ShopOrders),
    Child(Devices), DeviceExpansions, Child(AccountActivity), Child(RiskEvents), Child(AuditLogs),
    Child(Notifications), PromoCodes]

  /** The place of a statement in the loop. */
  function Place(t: Target): (i: nat)
    ensures i < |REASSIGN| && REASSIGN[i] == t
  {
    match t
    case Subscriptions => 0
    case Payments => 1
    case YadTransactions => 2
    case Child(Tickets) => 3
    case Child(TicketMessages) => 4
    case Child(ShopOrders) => 5
    case Child(Devices) => 6
    case DeviceExpansions => 7
    case Child(AccountActivity) => 8
    case Child(RiskEvents) => 9
    case Child(AuditLogs) => 10
    case Child(Notifications) => 11
    case PromoCodes => 12
  }

  /** The database once the reassignments in `done` have run. */
  ghost function Reassigned(db: DB, done: set<Target>, src: nat, dst: nat): DB {
    db.(subs := if Subscriptions in done then MoveSubs(db.subs, src, dst) else db.subs,
        payments := if Payments in done then MovePayments(db.payments, src, dst) else db.payments,
        ledger := if YadTransactions in done then MoveLedger(db.ledger, src, dst) else db.ledger,
        expansions := if DeviceExpansions in done then MoveExpansions(db.expansions, src, dst) else db.expansions,
        promos := if PromoCodes in done then MoveCreators(db.promos, src, dst) else db.promos,
        children := MoveChildren(db.children, (set t: ChildTable | Child(t) in done), src, dst))
  }

  /** Whether the statement has a row to move. */
  predicate Touches(db: DB, t: Target, src: nat) {
    match t
    case Subscriptions => exists s | s in db.subs :: db.subs[s].user == src
    case Payments => exists p | p in db.payments :: db.payments[p].user == src
    case YadTransactions => exists i | 0 <= i < |db.ledger| :: db.ledger[i].user == src
    case Child(table) => exists c | c in db.children :: c.0 == table && db.children[c] == src
    case DeviceExpansions => exists e | e in db.expansions :: db.expansions[e].user == src
    case PromoCodes => exists p | p in db.promos :: db.promos[p].creator == src
  }

  class Repo {
    var now: int
    var users: map<nat, User>
    var payments: map<nat, Payment>
    var subs: map<nat, Sub>
    var ledger: seq<Row>
    var referrals: map<nat, Referral>
    var rewards: map<nat, Reward>
    var promos: map<nat, Promo>
    var uses: map<nat, (nat, nat)>
    var expansions: map<nat, DeviceExpansion>
    var children: map<(ChildTable, nat), nat>

    function Snapshot(): DB
      reads this
    {
      DB(now, users, payments, subs, ledger, referrals, rewards, promos, uses, expansions, children)
    }

    ghost predicate Valid()
      reads this
    {
      Constraints(Snapshot())
    }

    constructor ()
      ensures Valid() && Snapshot() == EMPTY
    {
      now, users, payments, subs, ledger := 0, map[], map[], map[], [];
      referrals, rewards, promos, uses, expansions, children := map[], map[], map[], map[], map[], map[];
    }

    /** ROLLBACK: back to what the transaction started from. */
    method Restore(db: DB)
      requires Constraints(db)
      modifies this
      ensures Valid() && Snapshot() == db
    {
      hide Constraints;
      now, users, payments, subs, ledger := db.now, db.users, db.payments, db.subs, db.ledger;
      referrals, rewards, promos, uses := db.referrals, db.rewards, db.promos, db.uses;
      expansions, children := db.expansions, db.children;
      assert Snapshot() == db;
    }

    // ----- Balances and LTV --------------------------------------------------------

    method AdjustYADBalance(u: nat, delta: int, reason: Reason) returns (ok: bool)
      requires Valid()
      modifies this
      ensures Valid()
      ensures ok <==> u in old(users) && old(users)[u].balance + delta >= 0
      ensures Snapshot() == if ok then Post(old(Snapshot()), u, delta, reason) else old(Snapshot())
    {
      if u !in users || users[u].balance + delta < 0 {
        return false;
      }
      ghost var after := Post(Snapshot(), u, delta, reason);
      PostKeepsConstraints(Snapshot(), u, delta, reason);
      var balance := users[u].balance + delta;
      users := users[u := users[u].(balance := balance)];
      ledger := ledger + [Row(u, delta, balance, reason)];
      assert Snapshot() == after;
      ok := true;
    }

    /** A missing user is an error, unless nothing was to be taken. */
    method ClawbackYAD(u: nat, amount: int, reason: Reason) returns (r: Result<int>)
      requires Valid()
      modifies this
      ensures Valid()
      ensures r.Err? <==> amount > 0 && u !in users
      ensures r.Err? ==> r == Err(NotFound) && Snapshot() == old(Snapshot())
      ensures r.Ok? && u in old(users) ==>
                && Snapshot() == Clawback(old(Snapshot()), u, amount, reason)
                && r.value == old(users)[u].balance - users[u].balance
                && r.value == if amount <= 0 then 0 else Min(old(users)[u].balance, amount)
      ensures u !in old(users) ==> Snapshot() == old(Snapshot())
    {
      if amount <= 0 {
        return Ok(0);
      }
      if u !in users {
        return Err(NotFound);
      }
      var taken := Min(users[u].balance, amount);
      if taken == 0 {
        return Ok(0);
      }
      ghost var after := Post(Snapshot(), u, -taken, reason);
      PostKeepsConstraints(Snapshot(), u, -taken, reason);
      var balance := users[u].balance - taken;
      users := users[u := users[u].(balance := balance)];
      ledger := ledger + [Row(u, -taken, balance, reason)];
      assert Snapshot() == after;
      r := Ok(taken);
    }

    method UpdateLTV(u: nat, kopecks: int)
      requires Valid()
      modifies this
      ensures Valid() && Snapshot() == old(Snapshot()).(users := AddLtv(old(users), u, kopecks))
    {
      ghost var after := Snapshot().(users := AddLtv(users, u, kopecks));
      UsersReplaced(Snapshot(), after.users);
      if u in users {
        users := users[u := users[u].(ltv := users[u].ltv + kopecks)];
      }
      assert Snapshot() == after;
    }

    // ----- Payments -----------------------------------------------------------------

    /** Only writing PENDING can meet the partial unique index. */
    method UpdatePaymentStatus(p: nat, status: PaymentStatus) returns (ok: bool)
      requires Valid()
      modifies this
      ensures Valid()
      ensures ok <==> StatusFits(old(payments), p, status)
      ensures Snapshot() == if ok then old(Snapshot()).(payments := SetStatus(old(payments), p, status))
          else old(Snapshot())
    {
      ok := StatusFits(payments, p, status);
      if ok && p in payments {
        payments := payments[p := payments[p].(status := status)];
      }
    }

    /** Sweeps the PENDING payments past their deadline, in one statement, and leaves every other row alone. */
    method MarkExpiredPayments() returns (count: nat)
      requires Valid()
      modifies this
      ensures Valid() && Snapshot() == old(Snapshot()).(payments := payments)
      ensures payments == ExpirePending(old(payments), now) && payments.Keys == old(payments).Keys
      ensures forall p | p in old(payments) ::
                var row := old(payments)[p];
                if row.status == PENDING && row.expires.Some? && row.expires.value <= now
                then payments[p] == row.(status := EXPIRED) else payments[p] == row
      ensures count == |set p | p in old(payments) && payments[p] != old(payments)[p]|
    {
      var due := set p | p in payments && payments[p].status == PENDING
                         && payments[p].expires.Some? && payments[p].expires.value <= now;
      ExpiryKeepsConstraints(Snapshot());
      payments := map p | p in payments :: if p in due then payments[p].(status := EXPIRED) else payments[p];
      assert payments == ExpirePending(old(payments), now);
      assert due == set p | p in old(payments) && payments[p] != old(payments)[p];
      count := |due|;
    }

    // ----- Subscriptions ------------------------------------------------------------

    /** ORDER BY expires_at DESC LIMIT 1 FOR UPDATE, read one row at a time. */
    method LockLatestSubscription(u: nat) returns (found: Option<nat>)
      ensures IsLatest(subs, u, found)
    {
      found := None;
      var rest := subs.Keys;
      while rest != {}
        invariant rest <= subs.Keys
        invariant found.None? ==> forall t | t in subs && t !in rest :: subs[t].user != u
        invariant found.Some? ==> found.value in subs && subs[found.value].user == u
        invariant found.Some? ==> forall t | t in subs && t !in rest
            && subs[t].user == u :: subs[t].expires <= subs[found.value].expires
        decreases |rest|
      {
        var s :| s in rest;
        rest := rest - {s};
        if subs[s].user == u && (found.None? || subs[found.value].expires < subs[s].expires) {
          found := Some(s);
        }
      }
    }

    method GetActiveSubscription(u: nat) returns (found: Option<nat>)
      ensures IsActiveOf(subs, u, now, found)
      ensures forall s | s in subs && subs[s].user == u && now < subs[s].expires
                         && (subs[s].status == Active || subs[s].status == Trial) ::
                found.Some? && subs[s].expires <= subs[found.value].expires
      ensures found.Some? ==>
                && now < subs[found.value].expires
                && (subs[found.value].status == Active || subs[found.value].status == Trial)
    {
      found := None;
      var rest := subs.Keys;
      while rest != {}
        invariant rest <= subs.Keys
        invariant found.None? ==> forall t | t in subs && t !in rest && subs[t].user == u :: !IsActive(subs[t], now)
        invariant found.Some? ==> found.value in subs && subs[found.value].user == u && IsActive(subs[found.value], now)
        invariant found.Some? ==> forall t | t in subs && t !in rest && subs[t].user == u && IsActive(subs[t], now) ::
                    subs[t].expires <= subs[found.value].expires
        decreases |rest|
      {
        var s :| s in rest;
        rest := rest - {s};
        if subs[s].user == u && IsActive(subs[s], now) && (found.None? || subs[found.value].expires < subs[s].expires) {
          found := Some(s);
        }
      }
    }

    method ExtendSubscriptionByDuration(s: nat, days: nat, plan: Plan)
      requires Valid() && s in subs && !IsExpansionPlan(plan)
      modifies this
      ensures Valid() && Snapshot() == old(Snapshot()).(
                            subs := old(subs)[s := ExtendRow(old(subs)[s], now, days, plan)])
    {
      var row := subs[s];
      var from := if row.expires < now then now else row.expires;
      subs := subs[s := row.(expires := from + days * DAY, plan := plan, status := Active)];
    }

    method ContractSubscriptionByDuration(s: nat, days: nat) returns (lapsed: bool)
      requires Valid() && s in subs
      modifies this
      ensures Valid() && Snapshot() == old(Snapshot()).(subs := old(subs)[s := ContractRow(old(subs)[s], now, days)])
      ensures lapsed <==> subs[s].expires <= now
    {
      var row := subs[s];
      var expires := row.expires - days * DAY;
      lapsed := expires <= now;
      subs := subs[s := row.(expires := expires, status := if lapsed then SubReverted else row.status)];
    }

    method CreateSubscription(s: nat, row: Sub) returns (ok: bool)
      requires Valid() && !IsExpansionPlan(row.plan)
      modifies this
      ensures Valid()
      ensures ok <==> s !in old(subs) && row.user in users
      ensures Snapshot() == if ok then old(Snapshot()).(subs := old(subs)[s := row]) else old(Snapshot())
    {
      ok := s !in subs && row.user in users;
      if ok {
        subs := subs[s := row];
      }
    }

    /** SetTrialUsedTx: refuses a second time. */
    method SetTrialUsed(u: nat) returns (ok: bool)
      requires Valid()
      modifies this
      ensures Valid()
      ensures ok <==> u in old(users) && !old(users)[u].trialUsed
      ensures Snapshot() == if ok then old(Snapshot()).(users := old(users)[u := old(users)[u].(trialUsed := true)])
          else old(Snapshot())
    {
      ok := u in users && !users[u].trialUsed;
      if ok {
        UsersReplaced(Snapshot(), users[u := users[u].(trialUsed := true)]);
        users := users[u := users[u].(trialUsed := true)];
      }
    }

    // ----- Device expansions ----------------------------------------------------------

    method FindExpansion(u: nat) returns (found: Option<nat>)
      ensures IsExpansionOf(expansions, u, found)
    {
      found := None;
      var rest := expansions.Keys;
      while rest != {}
        invariant rest <= expansions.Keys
        invariant found.None? ==> forall t | t in expansions && t !in rest :: expansions[t].user != u
        invariant found.Some? ==> found.value in expansions && expansions[found.value].user == u
        decreases |rest|
      {
        var e :| e in rest;
        rest := rest - {e};
        if expansions[e].user == u {
          found := Some(e);
        }
      }
    }

    /** The upsert keeps the higher slot count and the later expiry. */
    method CreateDeviceExpansion(found: Option<nat>, id: nat, u: nat, extra: int, expires: int) returns (ok: bool)
      requires Valid() && IsExpansionOf(expansions, u, found) && 1 <= extra <= 2
      modifies this
      ensures Valid()
      ensures ok <==> u in users && (found.Some? || id !in old(expansions))
      ensures Snapshot() == if ok then old(Snapshot()).(
                                        expansions := Upsert(old(expansions), found, id, u, extra, expires))
                            else old(Snapshot())
    {
      ok := u in users && (found.Some? || id !in expansions);
      if ok {
        UpsertKeepsExpansions(expansions, users, found, id, u, extra, expires);
        ExpansionsReplaced(Snapshot(), Upsert(expansions, found, id, u, extra, expires));
        match found {
          case None => expansions := expansions[id := DeviceExpansion(u, extra, expires)];
          case Some(e) =>
            var row := expansions[e];
            expansions := expansions[e := row.(extra := Max(row.extra, extra), expires := Max(row.expires, expires))];
        }
      }
    }

    method DeleteDeviceExpansion(u: nat)
      requires Valid()
      modifies this
      ensures Valid() && Snapshot() == old(Snapshot()).(expansions := DropExpansions(old(expansions), u))
    {
      expansions := map e | e in expansions && expansions[e].user != u :: expansions[e];
    }

    // ----- Promo codes and rewards ------------------------------------------------------

    /** The conditional counter bump, then the use row, which the unique index admits once per user. */
    method UsePromoCode(p: nat, u: nat, id: nat) returns (ok: bool)
      requires Valid()
      modifies this
      ensures Valid()
      ensures ok <==> && p in old(promos) && old(promos)[p].used < old(promos)[p].maxUses
                      && !UsedBy(old(uses), p, u) && u in users && id !in old(uses)
      ensures Snapshot() ==
              if ok then old(Snapshot()).(promos := old(promos)[p := old(promos)[p].(used := old(promos)[p].used + 1)],
                                          uses := old(uses)[id := (p, u)])
              else old(Snapshot())
    {
      ok := p in promos && promos[p].used < promos[p].maxUses && !UsedBy(uses, p, u) && u in users && id !in uses;
      if ok {
        promos := promos[p := promos[p].(used := promos[p].used + 1)];
        uses := uses[id := (p, u)];
      }
    }

    method FindReferralByReferee(u: nat) returns (found: Option<nat>)
      ensures match found
              case None => forall r | r in referrals :: referrals[r].referee != u
              case Some(r) => r in referrals && referrals[r].referee == u
    {
      found := None;
      var rest := referrals.Keys;
      while rest != {}
        invariant rest <= referrals.Keys
        invariant found.None? ==> forall t | t in referrals && t !in rest :: referrals[t].referee != u
        invariant found.Some? ==> found.value in referrals && referrals[found.value].referee == u
        decreases |rest|
      {
        var r :| r in rest;
        rest := rest - {r};
        if referrals[r].referee == u {
          found := Some(r);
        }
      }
    }

    method FindReward(payment: nat) returns (found: Option<nat>)
      ensures IsRewardOf(rewards, payment, found)
    {
      found := None;
      var rest := rewards.Keys;
      while rest != {}
        invariant rest <= rewards.Keys
        invariant found.None? ==> forall t | t in rewards && t !in rest :: rewards[t].payment != payment
        invariant found.Some? ==> found.value in rewards && rewards[found.value].payment == payment
        decreases |rest|
      {
        var w :| w in rest;
        rest := rest - {w};
        if rewards[w].payment == payment {
          found := Some(w);
        }
      }
    }

    /** INSERT ... ON CONFLICT (payment_id) DO NOTHING: a conflict is not an error, a broken reference is. */
    method CreateReferralReward(w: nat, row: Reward) returns (ok: bool)
      requires Valid()
      modifies this
      ensures Valid()
      ensures ok <==> PaidFor(old(rewards), row.payment)
                      || (w !in old(rewards) && row.referral in referrals && row.payment in payments
                          && row.referrer in users)
      ensures Snapshot() == if ok && !PaidFor(old(rewards), row.payment)
          then old(Snapshot()).(rewards := old(rewards)[w := row])
                            else old(Snapshot())
    {
      var conflict := FindReward(row.payment);
      ok := conflict.Some? || (w !in rewards && row.referral in referrals && row.payment in payments
          && row.referrer in users);
      if ok && conflict.None? {
        RewardsReplaced(Snapshot(), rewards[w := row]);
        rewards := rewards[w := row];
      }
    }

    method UpdateReferralTotals(r: nat, paid: int, reward: int)
      requires Valid()
      modifies this
      ensures Valid()
      ensures Snapshot() == old(Snapshot()).(referrals := BumpReferral(old(referrals), r, paid, reward))
    {
      ghost var after := BumpReferral(referrals, r, paid, reward);
      assert ReferralsOk(after, users) && RefereeUnique(after) && after.Keys == referrals.Keys;
      if r in referrals {
        var row := referrals[r];
        referrals := referrals[r := row.(totalPaid := row.totalPaid + paid, totalReward := row.totalReward + reward)];
      }
      assert referrals == after;
    }

    method UpdateRewardStatus(w: nat, status: RewardStatus)
      requires Valid()
      modifies this
      ensures Valid()
      ensures Snapshot() == old(Snapshot()).(rewards := MarkReward(old(rewards), w, status))
    {
      if w in rewards {
        RewardsReplaced(Snapshot(), rewards[w := rewards[w].(status := status)]);
        rewards := rewards[w := rewards[w].(status := status)];
      }
    }

    /** Conditional transition to 'reverted'; reports whether a row changed. */
    method RevertReferralReward(w: nat) returns (changed: bool)
      requires Valid()
      modifies this
      ensures Valid()
      ensures changed <==> && w in old(rewards)
                           && (old(rewards)[w].status == Immediate || old(rewards)[w].status == Paid
                               || old(rewards)[w].status == Pending)
      ensures Snapshot() == if changed
          then old(Snapshot()).(rewards := old(rewards)[w := old(rewards)[w].(status := Reverted)])
                            else old(Snapshot())
    {
      changed := w in rewards
          && (rewards[w].status.Immediate? || rewards[w].status.Paid? || rewards[w].status.Pending?);
      if changed {
        RewardsReplaced(Snapshot(), rewards[w := rewards[w].(status := Reverted)]);
        rewards := rewards[w := rewards[w].(status := Reverted)];
      }
    }

    // ----- Account merge -----------------------------------------------------------------

    method MoveTotals(src: User, dst: nat)
      requires Valid() && src.balance >= 0
      modifies this
      ensures Valid() && Snapshot() == old(Snapshot()).(users := AddTotals(old(users), src, dst))
    {
      ghost var after := AddTotals(users, src, dst);
      TotalsKeepUsers(users, src, dst);
      UsersReplaced(Snapshot(), after);
      if dst in users {
        var r := users[dst];
        users := users[dst := r.(balance := r.balance + src.balance, ltv := r.ltv + src.ltv,
                                 trialUsed := r.trialUsed || src.trialUsed)];
      }
      assert users == after;
    }

    method ReassignSubscriptions(src: nat, dst: nat)
      requires Valid() && dst in users
      modifies this
      ensures Valid() && Snapshot() == old(Snapshot()).(subs := MoveSubs(old(subs), src, dst))
    {
      subs := MoveSubs(subs, src, dst);
    }

    method ReassignPayments(src: nat, dst: nat) returns (ok: bool)
      requires Valid() && src != dst && dst in users
      modifies this
      ensures Valid() && (ok <==> !PendingClash(old(payments), src, dst))
      ensures Snapshot() == if ok then old(Snapshot()).(payments := MovePayments(old(payments), src, dst))
          else old(Snapshot())
    {
      ok := !PendingClash(payments, src, dst);
      if ok {
        payments := MovePayments(payments, src, dst);
      }
    }

    method ReassignLedger(src: nat, dst: nat)
      requires Valid() && dst in users
      modifies this
      ensures Valid() && Snapshot() == old(Snapshot()).(ledger := MoveLedger(old(ledger), src, dst))
    {
      ledger := MoveLedger(ledger, src, dst);
    }

    method ReassignChildren(t: ChildTable, src: nat, dst: nat)
      requires Valid() && dst in users
      modifies this
      ensures Valid() && Snapshot() == old(Snapshot()).(children := MoveChildren(old(children), {t}, src, dst))
    {
      children := MoveChildren(children, {t}, src, dst);
    }

    method ReassignExpansions(src: nat, dst: nat) returns (ok: bool)
      requires Valid() && src != dst && dst in users
      modifies this
      ensures Valid() && (ok <==> !ExpansionClash(old(expansions), src, dst))
      ensures Snapshot() == if ok then old(Snapshot()).(expansions := MoveExpansions(old(expansions), src, dst))
          else old(Snapshot())
    {
      ok := !ExpansionClash(expansions, src, dst);
      if ok {
        ExpansionsReplaced(Snapshot(), MoveExpansions(expansions, src, dst));
        expansions := MoveExpansions(expansions, src, dst);
      }
    }

    method ReassignCreators(src: nat, dst: nat)
      requires Valid() && dst in users
      modifies this
      ensures Valid() && Snapshot() == old(Snapshot()).(promos := MoveCreators(old(promos), src, dst))
    {
      promos := MoveCreators(promos, src, dst);
    }

    /** One statement of the reassignment loop; only two of them can meet a unique index. */
    method Reassign(t: Target, src: nat, dst: nat) returns (ok: bool)
      requires Valid() && src != dst && dst in users
      modifies this
      ensures Valid()
      ensures ok <==> Accepts(old(Snapshot()), t, src, dst)
      ensures Snapshot() == if ok then Reassigned(old(Snapshot()), {t}, src, dst) else old(Snapshot())
    {
      hide Constraints, PendingClash, ExpansionClash;
      NothingElseMoves(Snapshot(), t, src, dst);
      ok := true;
      match t {
        case Subscriptions => ReassignSubscriptions(src, dst);
        case Payments => ok := ReassignPayments(src, dst);
        case YadTransactions => ReassignLedger(src, dst);
        case Child(table) => ReassignChildren(table, src, dst);
        case DeviceExpansions => ok := ReassignExpansions(src, dst);
        case PromoCodes => ReassignCreators(src, dst);
      }
    }

    method MoveRewardReferrers(src: nat, dst: nat)
      requires Valid() && dst in users
      modifies this
      ensures Valid() && Snapshot() == old(Snapshot()).(rewards := MoveRewards(old(rewards), src, dst))
    {
      rewards := MoveRewards(rewards, src, dst);
    }

    /** Skipping referee dst is what keeps the no-self-referral check satisfied. */
    method MoveReferralReferrers(src: nat, dst: nat)
      requires Valid() && dst in users
      modifies this
      ensures Valid() && Snapshot() == old(Snapshot()).(referrals := MoveReferrals(old(referrals), src, dst))
    {
      referrals := MoveReferrals(referrals, src, dst);
    }

    method DeleteRewardsOf(gone: set<nat>)
      requires Valid()
      modifies this
      ensures Valid() && Snapshot() == old(Snapshot()).(rewards := DropRewards(old(rewards), gone))
    {
      rewards := DropRewards(rewards, gone);
    }

    /** Legal only after the rewards that point at the rows are gone. */
    method DeleteReferrals(gone: set<nat>)
      requires Valid() && forall w | w in rewards :: rewards[w].referral !in gone
      modifies this
      ensures Valid() && Snapshot() == old(Snapshot()).(referrals := old(referrals) - gone)
    {
      referrals := referrals - gone;
    }

    /** Rewards first, then the referrals they point at. */
    method DropReferrals(gone: set<nat>)
      requires Valid()
      modifies this
      ensures Valid()
      ensures Snapshot() == old(Snapshot()).(rewards := DropRewards(old(rewards), gone),
          referrals := old(referrals) - gone)
    {
      DeleteRewardsOf(gone);
      DeleteReferrals(gone);
    }

    /** UPDATE promocode_uses ... AND promo_code_id NOT IN (those of dst). */
    method MovePromoUses(src: nat, dst: nat)
      requires Valid() && src != dst && dst in users
      modifies this
      ensures Valid() && Snapshot() == old(Snapshot()).(uses := MoveUses(old(uses), src, dst))
    {
      MovedUsesStayUnique(uses, src, dst);
      uses := MoveUses(uses, src, dst);
    }

    method DeletePromoUses(u: nat)
      requires Valid()
      modifies this
      ensures Valid() && Snapshot() == old(Snapshot()).(uses := DropUses(old(uses), u))
    {
      uses := DropUses(uses, u);
    }

    method TransferPromoUses(src: nat, dst: nat)
      requires Valid() && src != dst && dst in users
      modifies this
      ensures Valid() && Snapshot() == old(Snapshot()).(uses := DropUses(MoveUses(old(uses), src, dst), src))
    {
      MovePromoUses(src, dst);
      DeletePromoUses(src);
    }

    method RepointReferrers(src: nat, dst: nat)
      requires Valid() && dst in users
      modifies this
      ensures Valid() && Snapshot() == old(Snapshot()).(users := ClearReferrer(Repoint(old(users), src, dst), dst, src))
    {
      RepointKeepsUsers(users, src, dst);
      UsersReplaced(Snapshot(), ClearReferrer(Repoint(users, src, dst), dst, src));
      users := Repoint(users, src, dst);
      if users[dst].referrer == Some(src) {
        users := users[dst := users[dst].(referrer := None)];
      }
    }

    /** Legal only when no foreign key points at the row. */
    method DeleteUser(u: nat)
      requires Valid() && Unreferenced(Snapshot(), u)
      modifies this
      ensures Valid() && Snapshot() == old(Snapshot()).(users := old(users) - {u})
    {
      UnreferencedCanGo(Snapshot(), u);
      ghost var after := Snapshot().(users := users - {u});
      users := users - {u};
      assert Snapshot() == after;
    }

    /** The rewards and referrals statements, in source order. */
    method MergeReferrals(src: nat, dst: nat)
      requires Valid() && src != dst && dst in users
      modifies this
      ensures Valid()
      ensures Snapshot() == old(Snapshot()).(referrals := MergedReferrals(old(referrals), src, dst),
                                             rewards := MergedRewards(old(rewards), old(referrals), src, dst))
    {
      ReferralStages(referrals, rewards, src, dst);
      MoveRewardReferrers(src, dst);
      MoveReferralReferrers(src, dst);
      DropReferrals(OfReferee(referrals, src));
      DropReferrals(OfReferrer(referrals, src));
      NothingDropped(referrals, rewards);
      DropReferrals(SelfReferrals(referrals, dst));
    }

    /**
     The whole merge, statement by statement under the constraints. It commits exactly
     when no unique index is met and nothing has to be moved to a missing account, and
     then amounts to Merged; otherwise the transaction leaves nothing behind.
     */
    method MergeUsers(src: nat, dst: nat) returns (ok: bool)
      requires Valid() && src != dst
      modifies this
      ensures Valid()
      ensures ok <==> CanMerge(old(Snapshot()), src, dst)
      ensures Snapshot() == if ok then Merged(old(Snapshot()), src, dst) else old(Snapshot())
    {
      var start := Snapshot();
      if src !in users {
        return false;
      }
      if dst !in users {
        ok := MergeIntoMissing(src, dst);
        return;
      }
      MoveTotals(users[src], dst);
      ok := ReassignAll(src, dst);
      if !ok {
        Restore(start);
        return;
      }
      FinishMerge(start, src, dst);
    }

    /**
     The reassignment loop for a missing account: a statement that moves a row breaks its
     foreign key, and one that does not changes nothing.
     */
    method ReassignNothing(src: nat) returns (ok: bool)
      ensures ok <==> forall t: Target :: !Touches(Snapshot(), t, src)
    {
      for i := 0 to |REASSIGN|
        invariant forall t: Target | Place(t) < i :: !Touches(Snapshot(), t, src)
      {
        NoStatementTwice(i);
        if Touches(Snapshot(), REASSIGN[i], src) {
          return false;
        }
      }
      ok := true;
    }

    /**
     The merge into an account that does not exist. The update of the balance matches no
     row; then each statement in turn either has nothing to move or breaks a foreign key.
     */
    method MergeIntoMissing(src: nat, dst: nat) returns (ok: bool)
      requires Valid() && src != dst && src in users && dst !in users
      modifies this
      ensures Valid() && (ok <==> NothingToMove(old(Snapshot()), src))
      ensures Snapshot() == if ok then Merged(old(Snapshot()), src, dst) else old(Snapshot())
    {
      hide Merged, Touches, WithoutReferee, LaterStatementsPass;
      NothingToMoveIff(Snapshot(), src, dst);
      ok := ReassignNothing(src);
      if !ok || (exists w | w in rewards :: rewards[w].referrer == src)
          || (exists r | r in referrals :: referrals[r].referrer == src && referrals[r].referee != dst) {
        return false;
      }
      NothingMovesOut(Snapshot(), src, dst);
      ok := FinishIntoMissing(src, dst);
    }

    /** The deletions around referrals; only that of the source as a referee finds a row. */
    method DropRefereeRows(src: nat, dst: nat)
      requires Valid() && dst !in users && EarlierStatementsPass(Snapshot(), src, dst)
      modifies this
      ensures Valid() && Snapshot() == WithoutReferee(old(Snapshot()), src)
    {
      hide Constraints, EarlierStatementsPass;
      OnlyRefereesGo(Snapshot(), src, dst);
      DropReferrals(OfReferee(referrals, src));
      DropReferrals(OfReferrer(referrals, src));
      DropReferrals(SelfReferrals(referrals, dst));
    }

    /** The referral deletions, the promo uses and the referrers, and the source itself. */
    method FinishIntoMissing(src: nat, dst: nat) returns (ok: bool)
      requires Valid() && src != dst && src in users && dst !in users && EarlierStatementsPass(Snapshot(), src, dst)
      modifies this
      ensures Valid() && (ok <==> LaterStatementsPass(old(Snapshot()), src, dst))
      ensures Snapshot() == if ok then WithoutReferee(old(Snapshot()), src).(users := old(users) - {src})
          else old(Snapshot())
    {
      hide Constraints, EarlierStatementsPass, Touches, Unreferenced;
      var start := Snapshot();
      DropRefereeRows(src, dst);
      if exists x | x in uses :: uses[x].1 == src {
        Restore(start);
        return false;
      }
      DeletePromoUses(src);
      if exists v | v in users :: users[v].referrer == Some(src) && v != dst {
        Restore(start);
        return false;
      }
      SourceIsLoose(start, src, dst);
      assert Snapshot() == WithoutReferee(start, src);
      DeleteUser(src);
      ok := true;
    }

    /** What remains once balances and child rows have moved. */
    method FinishMerge(ghost start: DB, src: nat, dst: nat)
      requires Valid() && src != dst && dst in users && src in start.users && dst in start.users
      requires Snapshot() == Merged(start, src, dst).(
                 users := AddTotals(start.users, start.users[src], dst),
                 referrals := start.referrals, rewards := start.rewards, uses := start.uses)
      modifies this
      ensures Valid() && Snapshot() == Merged(start, src, dst)
    {
      SourceCanBeDeleted(start, src, dst);
      MergeReferrals(src, dst);
      TransferPromoUses(src, dst);
      RepointReferrers(src, dst);
      DeleteUser(src);
    }

    /** The reassignment loop. */
    method ReassignAll(src: nat, dst: nat) returns (ok: bool)
      requires Valid() && src != dst && dst in users
      modifies this
      ensures Valid()
      ensures ok <==> !PendingClash(old(payments), src, dst) && !ExpansionClash(old(expansions), src, dst)
      ensures ok ==> Snapshot() == old(Snapshot()).(
                       subs := MoveSubs(old(subs), src, dst), payments := MovePayments(old(payments), src, dst),
                       ledger := MoveLedger(old(ledger), src, dst),
                       expansions := MoveExpansions(old(expansions), src, dst),
                       promos := MoveCreators(old(promos), src, dst),
                       children := MoveChildren(old(children), ALL_CHILDREN, src, dst))
    {
      hide Constraints, PendingClash, ExpansionClash;
      ghost var start, done := Snapshot(), {};
      NothingMovedYet(start, src, dst);
      for i := 0 to |REASSIGN|
        invariant Valid() && dst in users
        invariant forall t :: t in done <==> Place(t) < i
        invariant Snapshot() == Reassigned(start, done, src, dst)
        invariant Payments in done ==> !PendingClash(start.payments, src, dst)
        invariant DeviceExpansions in done ==> !ExpansionClash(start.expansions, src, dst)
      {
        NoStatementTwice(i);
        ReassignedSnoc(start, done, REASSIGN[i], src, dst);
        ok := Reassign(REASSIGN[i], src, dst);
        if !ok {
          return;
        }
        done := done + {REASSIGN[i]};
      }
      EverythingReassigned(done);
      ok := true;
    }
  }

  lemma ExpiryKeepsConstraints(db: DB)
    requires Constraints(db)
    ensures Constraints(db.(payments := ExpirePending(db.payments, db.now)))
  {
  }

  /** The two unique indexes a reassignment can meet. */
  ghost predicate Accepts(db: DB, t: Target, src: nat, dst: nat) {
    match t
    case Payments => !PendingClash(db.payments, src, dst)
    case DeviceExpansions => !ExpansionClash(db.expansions, src, dst)
    case _ => true
  }

  lemma NothingElseMoves(db: DB, t: Target, src: nat, dst: nat)
    ensures (set c: ChildTable | Child(c) in {t}) == if t.Child? then {t.table} else {}
    ensures MoveChildren(db.children, {}, src, dst) == db.children
  {
  }

  ghost predicate EarlierStatementsPass(db: DB, src: nat, dst: nat) {
    && (forall t: Target :: !Touches(db, t, src))
    && (forall w | w in db.rewards :: db.rewards[w].referrer != src)
    && (forall r | r in db.referrals && db.referrals[r].referee != dst :: db.referrals[r].referrer != src)
  }

  ghost predicate LaterStatementsPass(db: DB, src: nat, dst: nat) {
    && (forall x | x in db.uses :: db.uses[x].1 != src)
    && (forall v | v in db.users && v != dst :: db.users[v].referrer != Some(src))
  }

  lemma NothingToMoveIff(db: DB, src: nat, dst: nat)
    requires Constraints(db) && dst !in db.users
    ensures NothingToMove(db, src) <==> EarlierStatementsPass(db, src, dst) && LaterStatementsPass(db, src, dst)
  {
    hide UsersOk, RewardsOk, PaymentsOk, Touches;
    UntouchedIff(db, src);
  }

  lemma UntouchedIff(db: DB, src: nat)
    ensures (forall t: Target :: !Touches(db, t, src)) <==>
              && (forall s | s in db.subs :: db.subs[s].user != src)
              && (forall p | p in db.payments :: db.payments[p].user != src)
              && (forall i | 0 <= i < |db.ledger| :: db.ledger[i].user != src)
              && (forall c | c in db.children :: db.children[c] != src)
              && (forall e | e in db.expansions :: db.expansions[e].user != src)
              && (forall p | p in db.promos :: db.promos[p].creator != src)
  {
    assert Touches(db, Subscriptions, src) <==> exists s | s in db.subs :: db.subs[s].user == src;
    assert Touches(db, Payments, src) <==> exists p | p in db.payments :: db.payments[p].user == src;
    assert Touches(db, YadTransactions, src) <==> exists i | 0 <= i < |db.ledger| :: db.ledger[i].user == src;
    assert Touches(db, DeviceExpansions, src) <==> exists e | e in db.expansions :: db.expansions[e].user == src;
    assert Touches(db, PromoCodes, src) <==> exists p | p in db.promos :: db.promos[p].creator == src;
    forall c | c in db.children && db.children[c] == src ensures Touches(db, Child(c.0), src) {
    }
  }

  /** Only the referral of the source as a referee is deleted; the statements after it find nothing. */
  lemma OnlyRefereesGo(db: DB, src: nat, dst: nat)
    requires Constraints(db) && dst !in db.users && EarlierStatementsPass(db, src, dst)
    ensures var left := WithoutReferee(db, src);
            && OfReferrer(left.referrals, src) == {} && SelfReferrals(left.referrals, dst) == {}
            && DropRewards(left.rewards, {}) == left.rewards
  {
    hide UsersOk, RewardsOk, PaymentsOk, Touches;
  }

  lemma SourceIsLoose(db: DB, src: nat, dst: nat)
    requires Constraints(db) && dst !in db.users
    requires EarlierStatementsPass(db, src, dst) && LaterStatementsPass(db, src, dst)
    ensures Unreferenced(WithoutReferee(db, src), src) && DropUses(db.uses, src) == db.uses
  {
    NothingToMoveIff(db, src, dst);
  }

  /** With nothing to move the whole merge comes to these deletions. */
  lemma NothingMovesOut(db: DB, src: nat, dst: nat)
    requires Constraints(db) && src in db.users && dst !in db.users
    ensures NothingToMove(db, src) ==> Merged(db, src, dst) == WithoutReferee(db, src).(users := db.users - {src})
  {
    hide Merged, UsersOk, PaymentsOk, NothingToMove;
    if NothingToMove(db, src) {
      NothingMoves(db, src, dst);
    }
  }

  lemma TotalsKeepUsers(users: map<nat, User>, from: User, dst: nat)
    requires UsersOk(users) && from.balance >= 0
    ensures UsersOk(AddTotals(users, from, dst)) && AddTotals(users, from, dst).Keys == users.Keys
  {
  }

  lemma UnreferencedCanGo(db: DB, u: nat)
    requires Constraints(db) && Unreferenced(db, u)
    ensures Constraints(db.(users := db.users - {u}))
  {
  }

  lemma NothingDropped(referrals: map<nat, Referral>, rewards: map<nat, Reward>)
    ensures DropRewards(rewards, {}) == rewards && referrals - {} == referrals
  {
  }

  lemma NothingMovedYet(db: DB, src: nat, dst: nat)
    ensures Reassigned(db, {}, src, dst) == db
  {
    assert (set c: ChildTable | Child(c) in {}) == {};
    assert MoveChildren(db.children, {}, src, dst) == db.children;
  }

  lemma ReassignedSnoc(db: DB, done: set<Target>, t: Target, src: nat, dst: nat)
    requires t !in done && src != dst
    ensures Reassigned(Reassigned(db, done, src, dst), {t}, src, dst) == Reassigned(db, done + {t}, src, dst)
  {
    var once, both := Reassigned(Reassigned(db, done, src, dst), {t}, src, dst), Reassigned(db, done + {t}, src, dst);
    assert once.children == both.children by {
      ChildrenMovedSnoc(db.children, (set c: ChildTable | Child(c) in done), (set c: ChildTable | Child(c) in {t}),
          src, dst);
      assert (set c: ChildTable | Child(c) in done + {t})
          == (set c: ChildTable | Child(c) in done) + (set c: ChildTable | Child(c) in {t});
    }
  }

  lemma ChildrenMovedSnoc(children: map<(ChildTable, nat), nat>, before: set<ChildTable>, more: set<ChildTable>,
          src: nat, dst: nat)
    requires src != dst
    ensures MoveChildren(MoveChildren(children, before, src, dst), more, src, dst)
         == MoveChildren(children, before + more, src, dst)
  {
  }

  lemma NoStatementTwice(i: nat)
    requires i < |REASSIGN|
    ensures forall t :: Place(t) == i <==> t == REASSIGN[i]
  {
  }

  lemma EverythingReassigned(done: set<Target>)
    requires forall t: Target :: t in done
    ensures (set c: ChildTable | Child(c) in done) == ALL_CHILDREN
  {
    AllChildren();
  }
}
