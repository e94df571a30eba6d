/** Lifetime value: what a user's LTV column means, whatever the order and source of payment events. */
module Lifetime {
  import opened Prelude
  import opened Domain
  import opened Tables
  import opened Transactions
  import opened Merge
  import opened Sums
  import opened System
  import opened Jobs

  // ----- The law ------------------------------------------------------------------------------

  /** Committed confirmations of a payment less committed reversals. */
  ghost function Net(commits: multiset<Key>, reversals: multiset<nat>, p: nat): int {
    commits[(p, CONFIRMED)] as int - reversals[p] as int
  }

  /** What each payment contributes to the LTV of u. */
  ghost function Share(payments: map<nat, Payment>, commits: multiset<Key>, reversals: multiset<nat>,
          u: nat): map<nat, int> {
    map p | p in payments :: if payments[p].user == u then payments[p].amount * Net(commits, reversals, p) else 0
  }

  ghost predicate LtvOk(users: map<nat, User>, payments: map<nat, Payment>, commits: multiset<Key>,
          reversals: multiset<nat>) {
    forall u | u in users :: users[u].ltv == Sum(Share(payments, commits, reversals, u))
  }

  function IsOn(status: PaymentStatus): int {
    if status == CONFIRMED then 1 else 0
  }

  /** By how many confirmations the LTV is ahead of what the status of the payment says. */
  ghost function Lead(payments: map<nat, Payment>, commits: multiset<Key>, reversals: multiset<nat>, p: nat): int
    requires p in payments
  {
    Net(commits, reversals, p) - IsOn(payments[p].status)
  }

  /** The status of a paid payment tells whether it counts, unless a step has broken the match. */
  ghost predicate StatusTells(payments: map<nat, Payment>, commits: multiset<Key>, reversals: multiset<nat>,
          skewed: set<nat>) {
    forall p | p in payments && payments[p].amount != 0 && p !in skewed :: Lead(payments, commits, reversals, p) == 0
  }

  /** A payment's jobs are in flight one at a time. */
  ghost predicate Alone(flight: map<Key, Flight>, crowd: set<nat>) {
    forall j, k | j in flight && k in flight && j.0 == k.0 && j.0 !in crowd :: j == k
  }

  /** What a lone handler read about a status is still right, unless the status was flipped behind its back. */
  ghost predicate FlightTells(payments: map<nat, Payment>, flight: map<Key, Flight>, crowd: set<nat>,
          direct: set<nat>) {
    forall k | k in flight && flight[k].Loaded? && k.0 in payments && payments[k.0].amount != 0
               && k.0 !in crowd && k.0 !in direct ::
      flight[k].seen.status == CONFIRMED <==> payments[k.0].status == CONFIRMED
  }

  /** Only three things ever skew a payment. */
  ghost predicate Caused(skewed: set<nat>, direct: set<nat>, crowd: set<nat>, retaken: set<Key>) {
    forall p | p in skewed :: p in direct || p in crowd || Retaken(retaken, p)
  }

  // ----- What the tables do to the sums -------------------------------------------------------

  /** Payments may be added, and any column but owner and amount rewritten. */
  lemma SumsStand(payments: map<nat, Payment>, after: map<nat, Payment>, commits: multiset<Key>,
          reversals: multiset<nat>, u: nat)
    requires Kept(payments, after) && OnlyKnownPayments(payments, commits, reversals)
    requires forall p | p in payments :: after[p].user == payments[p].user
    ensures Sum(Share(after, commits, reversals, u)) == Sum(Share(payments, commits, reversals, u))
  {
    SumIgnoresZeros(Share(payments, commits, reversals, u), Share(after, commits, reversals, u));
  }

  lemma Distributes(a: int, n: int, m: int)
    ensures a * (n + m) == a * n + a * m
  {
  }

  lemma OneMoreCount(payments: map<nat, Payment>, commits: multiset<Key>, reversals: multiset<nat>,
                     commits': multiset<Key>, reversals': multiset<nat>, p: nat, more: int, u: nat)
    requires p in payments && Net(commits', reversals', p) == Net(commits, reversals, p) + more
    requires forall q | q != p :: Net(commits', reversals', q) == Net(commits, reversals, q)
    ensures Sum(Share(payments, commits', reversals', u))
         == Sum(Share(payments, commits, reversals, u)) + if payments[p].user == u then payments[p].amount * more else 0
  {
    var a: map<nat, int> := Share(payments, commits, reversals, u);
    var b: map<nat, int> := Share(payments, commits', reversals', u);
    assert b[p] - a[p] == if payments[p].user == u then payments[p].amount * more else 0 by {
      Distributes(payments[p].amount, Net(commits, reversals, p), more);
    }
    SumPut(a, p, b[p]);
    forall q | q in a && q != p ensures b[q] == a[q] {
      assert Net(commits', reversals', q) == Net(commits, reversals, q);
    }
    SumIgnoresZeros(a[p := b[p]], b);
  }

  lemma MergedShares(payments: map<nat, Payment>, commits: multiset<Key>, reversals: multiset<nat>, src: nat, dst: nat,
          u: nat)
    requires src != dst && u != src
    ensures Sum(Share(MovePayments(payments, src, dst), commits, reversals, u))
         == Sum(Share(payments, commits, reversals, u))
            + if u == dst then Sum(Share(payments, commits, reversals, src)) else 0
  {
    var after := Share(MovePayments(payments, src, dst), commits, reversals, u);
    if u == dst {
      SumAdds(Share(payments, commits, reversals, dst), Share(payments, commits, reversals, src), after);
    } else {
      SumIgnoresZeros(Share(payments, commits, reversals, u), after);
    }
  }

  lemma NoPaymentsNoShares(payments: map<nat, Payment>, commits: multiset<Key>, reversals: multiset<nat>, u: nat)
    requires forall p | p in payments :: payments[p].user != u
    ensures Sum(Share(payments, commits, reversals, u)) == 0
  {
    var nothing: map<nat, int> := map[];
    SumIgnoresZeros(nothing, Share(payments, commits, reversals, u));
  }

  // ----- What the transactions write -----------------------------------------------------------

  /** By how much a committed event moves the LTV of the job's user. */
  function LtvDelta(event: PaymentStatus, seen: Payment): int {
    match event
    case CONFIRMED => if IsPaidPlan(seen.plan) then seen.amount else 0
    case CANCELED => if seen.status == CONFIRMED then -seen.amount else 0
    case CHARGEBACKED => if seen.status == CONFIRMED then -seen.amount else 0
    case _ => 0
  }

  ghost predicate MovesLtv(users: map<nat, User>, after: map<nat, User>, u: nat, delta: int) {
    && after.Keys == users.Keys
    && forall v | v in users :: after[v].ltv == users[v].ltv + if v == u then delta else 0
  }

  lemma UndoRewardKeepsLtv(db: DB, reward: Option<nat>)
    requires reward.Some? ==> reward.value in db.rewards && db.rewards[reward.value].referrer in db.users
    ensures MovesLtv(db.users, UndoReward(db, reward).users, 0, 0)
  {
  }

  lemma UndoMovesLtv(db: DB, p: nat, u: nat, seen: Payment, status: PaymentStatus, target: Option<nat>)
    requires u in db.users && (target.Some? ==> target.value in db.subs)
    ensures MovesLtv(db.users, Undo(db, p, u, seen, status, target).users, u, -seen.amount)
  {
  }

  lemma ConfirmMovesLtv(db: DB, p: nat, u: nat, kopecks: int)
    requires Confirm(db, p, u, kopecks).Ok?
    ensures u in db.users && MovesLtv(db.users, Confirm(db, p, u, kopecks).value.users, u, kopecks)
  {
  }

  lemma RevertMovesLtv(db: DB, p: nat, u: nat, seen: Payment, status: PaymentStatus, target: Option<nat>,
          reward: Option<nat>)
    requires target.Some? ==> target.value in db.subs
    requires reward.Some? ==> reward.value in db.rewards && db.rewards[reward.value].referrer in db.users
    requires Revert(db, p, u, seen, status, target, reward).Ok?
    ensures u in db.users
    ensures MovesLtv(db.users, Revert(db, p, u, seen, status, target, reward).value.users, u,
                     if seen.status == CONFIRMED then -seen.amount else 0)
  {
    hide Undo, UndoReward;
    if seen.status == CONFIRMED {
      UndoMovesLtv(db, p, u, seen, status, target);
      UndoRewardKeepsLtv(Undo(db, p, u, seen, status, target), reward);
    }
  }

  lemma SettleMovesLtv(db: DB, p: nat, u: nat, event: PaymentStatus, seen: Payment, target: Option<nat>,
          reward: Option<nat>)
    requires target.Some? ==> target.value in db.subs
    requires reward.Some? ==> reward.value in db.rewards && db.rewards[reward.value].referrer in db.users
    requires Settle(db, p, u, event, seen, target, reward).Ok? && IsPaymentEvent(event) && IsPaidPlan(seen.plan)
    ensures u in db.users
    ensures MovesLtv(db.users, Settle(db, p, u, event, seen, target, reward).value.users, u, LtvDelta(event, seen))
  {
    hide Revert, Confirm, MovesLtv;
    if event == CONFIRMED {
      ConfirmMovesLtv(db, p, u, seen.amount);
    } else {
      RevertMovesLtv(db, p, u, seen, event, target, reward);
    }
  }

  predicate WritesUsers(tx: Tx) {
    || tx.SettleEvent? || tx.MergeAccounts? || tx.Register? || tx.BuyPlan? || tx.BeginTrial? || tx.Adjust?
    || tx.ApplyPromo? || tx.RewardReferral? || tx.PayoutPending? || tx.BuyExpansion?
  }

  lemma OthersLeaveUsers(s: Sys, tx: Tx, after: DB)
    requires Reads(s, tx) && Effect(s, tx) == Ok(after) && !WritesUsers(tx)
    ensures after.users == s.db.users
  {
  }

  lemma PurchasesKeepLtv(db: DB, u: nat, plan: Plan, target: Option<nat>, id: nat, at: int)
    requires target.Some? ==> target.value in db.subs
    ensures Buy(db, u, plan, target, id, at).Ok? ==>
        MovesLtv(db.users, Buy(db, u, plan, target, id, at).value.users, 0, 0)
  {
  }

  lemma SlotsKeepLtv(db: DB, u: nat, qty: int, days: int, expires: int, found: Option<nat>, id: nat)
    requires found.Some? ==> found.value in db.expansions
    ensures BuySlots(db, u, qty, days, expires, found, id).Ok? ==>
        MovesLtv(db.users, BuySlots(db, u, qty, days, expires, found, id).value.users, 0, 0)
  {
  }

  lemma RewardsKeepLtv(db: DB, w: nat, r: nat, referrer: nat, payment: nat, paid: int, yad: nat)
    ensures PayReward(db, w, r, referrer, payment, paid, yad).Ok? ==>
        MovesLtv(db.users, PayReward(db, w, r, referrer, payment, paid, yad).value.users, 0, 0)
    ensures Payout(db, w).Ok? ==> MovesLtv(db.users, Payout(db, w).value.users, 0, 0)
  {
  }

  lemma AccountsKeepLtv(db: DB)
    ensures MovesLtv(db.users, db.users, 0, 0)
  {
  }

  lemma CreditsKeepLtv(s: Sys, tx: Tx, after: DB)
    requires Reads(s, tx) && Effect(s, tx) == Ok(after) && (tx.BeginTrial? || tx.Adjust? || tx.ApplyPromo?)
    ensures MovesLtv(s.db.users, after.users, 0, 0)
  {
  }

  lemma OthersKeepLtv(s: Sys, tx: Tx, after: DB)
    requires Reads(s, tx) && Effect(s, tx) == Ok(after)
    requires !tx.SettleEvent? && !tx.MergeAccounts? && !tx.Register?
    ensures MovesLtv(s.db.users, after.users, 0, 0)
  {
    hide Buy, BuySlots, PayReward, Payout, Credit, UsePromo, StartTrial, MovesLtv;
    hide IsRewardOf, Unbooked, RewardYAD;
    if !WritesUsers(tx) {
      OthersLeaveUsers(s, tx, after);
      AccountsKeepLtv(s.db);
    } else if tx.BeginTrial? || tx.Adjust? || tx.ApplyPromo? {
      CreditsKeepLtv(s, tx, after);
    } else if tx.BuyPlan? {
      PurchasesKeepLtv(s.db, tx.u, tx.plan, tx.target, tx.id, tx.at);
    } else if tx.BuyExpansion? {
      SlotsKeepLtv(s.db, tx.u, tx.qty, tx.days, tx.expires, tx.found, tx.id);
    } else if tx.RewardReferral? {
      var job := tx.rewardJob;
      RewardsKeepLtv(s.db, tx.w, tx.r, tx.referrerId, job.payment, job.paid, RewardYAD(job.paid, tx.risk));
    } else if tx.PayoutPending? {
      RewardsKeepLtv(s.db, tx.w, 0, 0, 0, 0, 0);
    }
  }

  // ----- Every step keeps the law ----------------------------------------------------------------

  /** +1 for a confirmation, -1 for a reversal with something to undo. */
  function NetDelta(event: PaymentStatus, seen: Payment): int {
    match event
    case CONFIRMED => if IsPaidPlan(seen.plan) then 1 else 0
    case CANCELED => if seen.status == CONFIRMED then -1 else 0
    case CHARGEBACKED => if seen.status == CONFIRMED then -1 else 0
    case _ => 0
  }

  lemma SettleMovesNet(s: Sys, tx: Tx)
    requires tx.SettleEvent? && Reads(s, tx) && FlightsNamed(s.db.payments, s.gone, s.flight)
    requires ReadsStand(s.db.payments, s.flight) && PaymentsOk(s.db.payments, s.db.users)
    ensures var seen := s.flight[tx.key].seen;
            && Names(s.db.payments, s.gone, tx.key.0, s.flight[tx.key].user) && IsPaymentEvent(tx.key.1)
            && LtvDelta(tx.key.1, seen) == s.db.payments[tx.key.0].amount * NetDelta(tx.key.1, seen)
            && IsPaidPlan(seen.plan)
  {
  }

  lemma NetMoves(s: Sys, tx: Tx, q: nat)
    requires tx.SettleEvent? && Reads(s, tx)
    ensures Net(CommitsAfter(s, tx), ReversalsAfter(s, tx), q) - Net(s.commits, s.reversals, q)
         == if q != tx.key.0 || (tx.key.1 == CONFIRMED && !IsPaidPlan(s.flight[tx.key].seen.plan)) then
              if q == tx.key.0 then 1 else 0
            else NetDelta(tx.key.1, s.flight[tx.key].seen)
  {
  }

  lemma NetsMove(s: Sys, tx: Tx)
    requires tx.SettleEvent? && Reads(s, tx) && (tx.key.1 == CONFIRMED ==> IsPaidPlan(s.flight[tx.key].seen.plan))
    ensures forall q :: Net(CommitsAfter(s, tx), ReversalsAfter(s, tx), q)
                     == Net(s.commits, s.reversals, q)
                        + if q == tx.key.0 then NetDelta(tx.key.1, s.flight[tx.key].seen) else 0
  {
    forall q ensures Net(CommitsAfter(s, tx), ReversalsAfter(s, tx), q)
                  == Net(s.commits, s.reversals, q)
                     + if q == tx.key.0 then NetDelta(tx.key.1, s.flight[tx.key].seen) else 0
    {
      NetMoves(s, tx, q);
    }
  }

  /** One event counted, on the payment's side and on the user's side. */
  lemma OneEventCounts(
      users: map<nat, User>, users': map<nat, User>, payments: map<nat, Payment>, p: nat, status: PaymentStatus,
      commits: multiset<Key>, reversals: multiset<nat>, commits': multiset<Key>, reversals': multiset<nat>,
      u: nat, more: int)
    requires p in payments && LtvOk(users, payments, commits, reversals)
        && OnlyKnownPayments(payments, commits', reversals')
    requires MovesLtv(users, users', u, payments[p].amount * more)
    requires if u in users then payments[p].user == u else payments[p].amount * more == 0
    requires forall q :: Net(commits', reversals', q) == Net(commits, reversals, q) + if q == p then more else 0
    ensures LtvOk(users', SetStatus(payments, p, status), commits', reversals')
  {
    var after := SetStatus(payments, p, status);
    var amount := payments[p].amount * more;
    forall v | v in users' ensures users'[v].ltv == Sum(Share(after, commits', reversals', v)) {
      SumsStand(payments, after, commits', reversals', v);
      OneMoreCount(payments, commits, reversals, commits', reversals', p, more, v);
      assert users'[v].ltv == users[v].ltv + if v == u then amount else 0;
    }
  }

  lemma SettleKeepsLtv(s: Sys, tx: Tx, after: DB)
    requires tx.SettleEvent? && Reads(s, tx) && Effect(s, tx) == Ok(after)
    requires s.gone !! s.db.users.Keys && FlightsNamed(s.db.payments, s.gone, s.flight)
    requires ReadsStand(s.db.payments, s.flight) && PaymentsOk(s.db.payments, s.db.users)
    requires OnlyKnownPayments(s.db.payments, s.commits, s.reversals)
    requires LtvOk(s.db.users, s.db.payments, s.commits, s.reversals)
    ensures LtvOk(after.users, after.payments, CommitsAfter(s, tx), ReversalsAfter(s, tx))
  {
    var commits, reversals := CommitsAfter(s, tx), ReversalsAfter(s, tx);
    var p, u, event, seen := tx.key.0, s.flight[tx.key].user, tx.key.1, s.flight[tx.key].seen;
    SettleMovesNet(s, tx);
    SettleMovesLtv(s.db, p, u, event, seen, tx.target, tx.reward);
    KnownStaysKnown(s.db.payments, s.db.payments, s.commits, s.reversals, tx.key);
    NetsMove(s, tx);
    OneEventCounts(s.db.users, after.users, s.db.payments, p, event, s.commits, s.reversals, commits, reversals, u,
        NetDelta(event, seen));
  }

  lemma MergeMovesLtv(users: map<nat, User>, src: nat, dst: nat)
    requires src in users && src != dst
    ensures var after := MergedUsers(users, src, dst);
            && after.Keys == users.Keys - {src}
            && forall u | u in after :: after[u].ltv == users[u].ltv + if u == dst then users[src].ltv else 0
  {
  }

  lemma MergeKeepsLtv(db: DB, src: nat, dst: nat, commits: multiset<Key>, reversals: multiset<nat>)
    requires src in db.users && src != dst && LtvOk(db.users, db.payments, commits, reversals)
    ensures LtvOk(Merged(db, src, dst).users, Merged(db, src, dst).payments, commits, reversals)
  {
    var after := Merged(db, src, dst);
    MergeMovesLtv(db.users, src, dst);
    forall u | u in after.users ensures after.users[u].ltv == Sum(Share(after.payments, commits, reversals, u)) {
      MergedShares(db.payments, commits, reversals, src, dst, u);
    }
  }

  lemma RegistrationKeepsLtv(db: DB, u: nat, referrer: Option<nat>, commits: multiset<Key>, reversals: multiset<nat>)
    requires PaymentsOk(db.payments, db.users) && u !in db.users && LtvOk(db.users, db.payments, commits, reversals)
    ensures LtvOk(db.users[u := FreshUser(referrer)], db.payments, commits, reversals)
  {
    NoPaymentsNoShares(db.payments, commits, reversals, u);
  }

  ghost predicate SameHands(payments: map<nat, Payment>, after: map<nat, Payment>) {
    forall p | p in payments :: p in after && after[p].user == payments[p].user
  }

  lemma OthersKeepOwners(s: Sys, tx: Tx, after: DB)
    requires Reads(s, tx) && Effect(s, tx) == Ok(after) && !tx.SettleEvent? && !tx.MergeAccounts?
    ensures SameHands(s.db.payments, after.payments)
  {
    if !WritesPayments(tx) {
      OthersLeavePayments(s, tx, after);
    }
  }

  lemma UnmovedLtvStands(users: map<nat, User>, users': map<nat, User>, payments: map<nat, Payment>,
          payments': map<nat, Payment>, commits: multiset<Key>, reversals: multiset<nat>)
    requires OnlyKnownPayments(payments, commits, reversals) && LtvOk(users, payments, commits, reversals)
    requires MovesLtv(users, users', 0, 0) && Kept(payments, payments') && SameHands(payments, payments')
    ensures LtvOk(users', payments', commits, reversals)
  {
    forall u | u in users' ensures users'[u].ltv == Sum(Share(payments', commits, reversals, u)) {
      SumsStand(payments, payments', commits, reversals, u);
    }
  }

  lemma QuietCommitKeepsLtv(s: Sys, tx: Tx, after: DB)
    requires OnlyKnownPayments(s.db.payments, s.commits, s.reversals)
        && LtvOk(s.db.users, s.db.payments, s.commits, s.reversals)
    requires Reads(s, tx) && Effect(s, tx) == Ok(after)
    requires !tx.SettleEvent? && !tx.MergeAccounts? && !tx.Register?
    ensures LtvOk(after.users, after.payments, s.commits, s.reversals)
  {
    hide Reads, Effect, LtvOk, OnlyKnownPayments, MovesLtv, Kept;
    OthersKeepLtv(s, tx, after);
    TransactionsKeepPayments(s, tx, after);
    OthersKeepOwners(s, tx, after);
    UnmovedLtvStands(s.db.users, after.users, s.db.payments, after.payments, s.commits, s.reversals);
  }

  lemma CommitKeepsLtv(s: Sys, tx: Tx, after: DB)
    requires Reads(s, tx) && Effect(s, tx) == Ok(after)
    requires s.gone !! s.db.users.Keys && FlightsNamed(s.db.payments, s.gone, s.flight)
    requires ReadsStand(s.db.payments, s.flight) && PaymentsOk(s.db.payments, s.db.users)
    requires OnlyKnownPayments(s.db.payments, s.commits, s.reversals)
    requires LtvOk(s.db.users, s.db.payments, s.commits, s.reversals)
    ensures LtvOk(after.users, after.payments, CommitsAfter(s, tx), ReversalsAfter(s, tx))
  {
    if tx.SettleEvent? {
      SettleKeepsLtv(s, tx, after);
    } else if tx.MergeAccounts? {
      MergeKeepsLtv(s.db, tx.src, tx.dst, s.commits, s.reversals);
    } else if tx.Register? {
      RegistrationKeepsLtv(s.db, tx.u, tx.referrer, s.commits, s.reversals);
    } else {
      QuietCommitKeepsLtv(s, tx, after);
    }
  }

  // ----- How far the status tells ----------------------------------------------------------------

  /** What the writer believed: the status it wrote, or the confirmation it took back. */
  function Told(s: Sys, tx: Tx): int
    requires tx.MarkStatus? || (tx.SettleEvent? && tx.key in s.flight && s.flight[tx.key].Loaded?)
  {
    if tx.MarkStatus? then IsOn(tx.status)
    else if IsReversal(tx.key.1) then IsOn(s.flight[tx.key].seen.status) else 0
  }

  /** By how much a transaction moves the lead of payment p. */
  function Shift(s: Sys, tx: Tx, p: nat): int
    requires p in s.db.payments && (tx.SettleEvent? ==> tx.key in s.flight && s.flight[tx.key].Loaded?)
  {
    if (tx.MarkStatus? && tx.p == p) || (tx.SettleEvent? && tx.key.0 == p)
    then IsOn(s.db.payments[p].status) - Told(s, tx) else 0
  }

  /** No payment enters or leaves CONFIRMED, and a new one that is born CONFIRMED is free. */
  ghost predicate ConfirmationsKept(payments: map<nat, Payment>, after: map<nat, Payment>) {
    && Kept(payments, after)
    && (forall p | p in payments :: after[p].status == CONFIRMED <==> payments[p].status == CONFIRMED)
    && (forall p | p in after && p !in payments :: after[p].amount == 0 || after[p].status != CONFIRMED)
  }

  lemma OthersKeepConfirmations(s: Sys, tx: Tx, after: DB)
    requires Reads(s, tx) && Effect(s, tx) == Ok(after) && !tx.SettleEvent? && !tx.MarkStatus?
    ensures ConfirmationsKept(s.db.payments, after.payments)
  {
    hide IsLatest, IsRewardOf, CanMerge;
    TransactionsKeepPayments(s, tx, after);
    if !WritesPayments(tx) {
      OthersLeavePayments(s, tx, after);
    } else if tx.MergeAccounts? || tx.TouchPayment? {
    } else if tx.Checkout? || tx.SlotCheckout? {
    }
  }

  /** The statuses after a transaction, as far as the lead is concerned. */
  lemma StatusesMove(s: Sys, tx: Tx, after: DB, p: nat)
    requires Reads(s, tx) && Effect(s, tx) == Ok(after) && p in s.db.payments
    ensures p in after.payments
    ensures if tx.MarkStatus? && tx.p == p then after.payments[p].status == tx.status
            else if tx.SettleEvent? && tx.key.0 == p then after.payments[p].status == tx.key.1
            else IsOn(after.payments[p].status) == IsOn(s.db.payments[p].status)
  {
    hide Settle, Grant, Buy, StartTrial, Credit, UsePromo, PayReward, Payout, BuySlots, GrantSlots;
    hide Constraints, IsLatest, IsRewardOf, IsExpansionOf, Unbooked, CanMerge;
    if !tx.SettleEvent? && !tx.MarkStatus? {
      OthersKeepConfirmations(s, tx, after);
    }
  }

  /** Of all transactions only direct writes and settlements move a lead, and exactly by the shift. */
  lemma LeadMoves(s: Sys, tx: Tx, after: DB, p: nat)
    requires Reads(s, tx) && Effect(s, tx) == Ok(after) && p in s.db.payments
    requires FlightsNamed(s.db.payments, s.gone, s.flight) && ReadsStand(s.db.payments, s.flight)
    requires PaymentsOk(s.db.payments, s.db.users)
    ensures p in after.payments
    ensures Lead(after.payments, CommitsAfter(s, tx), ReversalsAfter(s, tx), p)
         == Lead(s.db.payments, s.commits, s.reversals, p) + Shift(s, tx, p)
  {
    StatusesMove(s, tx, after, p);
    if tx.SettleEvent? {
      SettleMovesNet(s, tx);
      NetMoves(s, tx, p);
    }
  }

  lemma ShiftIsSkew(s: Sys, tx: Tx, p: nat)
    requires p in s.db.payments && (tx.SettleEvent? ==> tx.key in s.flight && s.flight[tx.key].Loaded?)
    requires s.db.payments[p].amount != 0
    ensures p in SkewedAfter(s, tx) <==> p in s.skewed || Shift(s, tx, p) != 0
  {
  }

  /** What is in flight or was counted is about payments that are there already. */
  lemma NewPaymentsCountNothing(s: Sys, tx: Tx, p: nat)
    requires Reads(s, tx) && p !in s.db.payments
    requires OnlyKnownPayments(s.db.payments, s.commits, s.reversals) && FlightsNamed(s.db.payments, s.gone, s.flight)
    ensures Net(CommitsAfter(s, tx), ReversalsAfter(s, tx), p) == 0
  {
    hide Constraints, IsLatest, IsRewardOf;
    if tx.SettleEvent? {
      assert Names(s.db.payments, s.gone, tx.key.0, s.flight[tx.key].user);
    }
  }

  lemma NewPaymentsAreOff(s: Sys, tx: Tx, after: DB, p: nat)
    requires Reads(s, tx) && Effect(s, tx) == Ok(after) && p in after.payments && p !in s.db.payments
    ensures after.payments[p].amount == 0 || after.payments[p].status != CONFIRMED
  {
    hide Constraints, IsLatest, IsRewardOf, Settle;
    if !tx.SettleEvent? && !tx.MarkStatus? {
      OthersKeepConfirmations(s, tx, after);
    }
  }

  lemma CommitKeepsTells(s: Sys, tx: Tx, after: DB)
    requires Reads(s, tx) && Effect(s, tx) == Ok(after)
    requires FlightsNamed(s.db.payments, s.gone, s.flight) && ReadsStand(s.db.payments, s.flight)
    requires PaymentsOk(s.db.payments, s.db.users) && OnlyKnownPayments(s.db.payments, s.commits, s.reversals)
    requires StatusTells(s.db.payments, s.commits, s.reversals, s.skewed)
    ensures StatusTells(after.payments, CommitsAfter(s, tx), ReversalsAfter(s, tx), SkewedAfter(s, tx))
  {
    forall p | p in after.payments && after.payments[p].amount != 0 && p !in SkewedAfter(s, tx)
      ensures Lead(after.payments, CommitsAfter(s, tx), ReversalsAfter(s, tx), p) == 0
    {
      if p in s.db.payments {
        TransactionsKeepPayments(s, tx, after);
        LeadMoves(s, tx, after, p);
        ShiftIsSkew(s, tx, p);
      } else {
        NewPaymentsAreOff(s, tx, after, p);
        NewPaymentsCountNothing(s, tx, p);
      }
    }
  }

  /** A lone handler whose payment nobody wrote to directly never skews it. */
  lemma LoneHandlersNeverSkew(s: Sys, tx: Tx)
    requires tx.SettleEvent? && Reads(s, tx)
    requires FlightsNamed(s.db.payments, s.gone, s.flight)
    requires OncePerKey(s.commits, s.flight, s.once.Keys, s.retaken)
    requires StatusTells(s.db.payments, s.commits, s.reversals, s.skewed)
    requires FlightTells(s.db.payments, s.flight, s.crowd, s.direct)
    requires Caused(s.skewed, s.direct, s.crowd, s.retaken)
    requires tx.key.0 !in s.direct && tx.key.0 !in s.crowd && !Retaken(s.retaken, tx.key.0)
    ensures !Skews(s, tx)
  {
    assert tx.key.1 == CONFIRMED ==> s.commits[tx.key] == 0;
    assert s.db.payments[tx.key.0].amount != 0 ==> Lead(s.db.payments, s.commits, s.reversals, tx.key.0) == 0;
  }

  lemma CommitKeepsCauses(s: Sys, tx: Tx)
    requires Reads(s, tx)
    requires FlightsNamed(s.db.payments, s.gone, s.flight)
    requires OncePerKey(s.commits, s.flight, s.once.Keys, s.retaken)
    requires StatusTells(s.db.payments, s.commits, s.reversals, s.skewed)
    requires FlightTells(s.db.payments, s.flight, s.crowd, s.direct)
    requires Caused(s.skewed, s.direct, s.crowd, s.retaken)
    ensures Caused(SkewedAfter(s, tx), DirectAfter(s, tx), s.crowd, s.retaken)
  {
    if tx.SettleEvent? && tx.key.0 !in s.direct && tx.key.0 !in s.crowd && !Retaken(s.retaken, tx.key.0) {
      LoneHandlersNeverSkew(s, tx);
    }
  }

  lemma CommitKeepsFlightTells(s: Sys, tx: Tx, after: DB, flight: map<Key, Flight>)
    requires Reads(s, tx) && Effect(s, tx) == Ok(after) && FlightsNamed(s.db.payments, s.gone, s.flight)
    requires FlightTells(s.db.payments, s.flight, s.crowd, s.direct) && Alone(s.flight, s.crowd)
    requires flight == if tx.SettleEvent? then s.flight - {tx.key} else s.flight
    ensures FlightTells(after.payments, flight, s.crowd, DirectAfter(s, tx)) && Alone(flight, s.crowd)
  {
    hide Effect, IsLatest, IsRewardOf, IsExpansionOf, CanMerge, Unbooked;
    TransactionsKeepPayments(s, tx, after);
    forall k | k in flight && flight[k].Loaded? && k.0 in after.payments && after.payments[k.0].amount != 0
               && k.0 !in s.crowd && k.0 !in DirectAfter(s, tx)
      ensures flight[k].seen.status == CONFIRMED <==> after.payments[k.0].status == CONFIRMED
    {
      assert Names(s.db.payments, s.gone, k.0, s.flight[k].user);
      StatusesMove(s, tx, after, k.0);
    }
  }

  ghost predicate Tells(s: Sys) {
    && StatusTells(s.db.payments, s.commits, s.reversals, s.skewed)
    && Alone(s.flight, s.crowd) && FlightTells(s.db.payments, s.flight, s.crowd, s.direct)
    && Caused(s.skewed, s.direct, s.crowd, s.retaken)
  }

  lemma CommitTells(s: Sys, tx: Tx)
    requires FlightsNamed(s.db.payments, s.gone, s.flight) && ReadsStand(s.db.payments, s.flight)
    requires PaymentsOk(s.db.payments, s.db.users) && OnlyKnownPayments(s.db.payments, s.commits, s.reversals)
    requires OncePerKey(s.commits, s.flight, s.once.Keys, s.retaken)
    requires Tells(s) && Enabled(s, Commit(tx))
    ensures Tells(Next(s, Commit(tx)))
  {
    hide StatusTells, Alone, FlightTells, Caused, FlightsNamed, ReadsStand, PaymentsOk, OnlyKnownPayments, OncePerKey;
    var after := Effect(s, tx).value;
    CommitKeepsTells(s, tx, after);
    CommitKeepsCauses(s, tx);
    CommitKeepsFlightTells(s, tx, after, Next(s, Commit(tx)).flight);
  }

  /** Taking a job either finds the payment alone or puts it among the crowded ones. */
  lemma TakingKeepsAlone(payments: map<nat, Payment>, flight: map<Key, Flight>, crowd: set<nat>, direct: set<nat>,
          key: Key, u: nat)
    requires Alone(flight, crowd) && FlightTells(payments, flight, crowd, direct)
    ensures var more := if exists k | k in flight :: k.0 == key.0 then crowd + {key.0} else crowd;
            Alone(flight[key := Taken(u)], more) && FlightTells(payments, flight[key := Taken(u)], more, direct)
  {
  }

  lemma TakeTells(s: Sys, job: Job)
    requires Tells(s) && Enabled(s, Take(job))
    ensures Tells(Next(s, Take(job)))
  {
    hide StatusTells, Alone, FlightTells;
    TakingKeepsAlone(s.db.payments, s.flight, s.crowd, s.direct, (job.payment, job.event), job.user);
  }

  lemma LoadTells(s: Sys, key: Key)
    requires Tells(s) && Enabled(s, Load(key))
    ensures Tells(Next(s, Load(key)))
  {
    hide StatusTells, Caused;
    var t := Next(s, Load(key));
    assert t.db == s.db && t.crowd == s.crowd && t.direct == s.direct;
  }

  lemma GivingUpTells(s: Sys, key: Key, again: bool)
    requires Tells(s) && Enabled(s, GiveUp(key, again))
    ensures Tells(Next(s, GiveUp(key, again)))
  {
    hide StatusTells, Caused;
    var t := Next(s, GiveUp(key, again));
    assert t.db == s.db && t.crowd == s.crowd && t.direct == s.direct;
  }

  lemma StepKeepsTells(s: Sys, step: Step)
    requires FlightsNamed(s.db.payments, s.gone, s.flight) && ReadsStand(s.db.payments, s.flight)
    requires PaymentsOk(s.db.payments, s.db.users) && OnlyKnownPayments(s.db.payments, s.commits, s.reversals)
    requires OncePerKey(s.commits, s.flight, s.once.Keys, s.retaken)
    requires Tells(s) && Enabled(s, step)
    ensures Tells(Next(s, step))
  {
    hide StatusTells, Alone, FlightTells, Caused, FlightsNamed, ReadsStand, PaymentsOk, OnlyKnownPayments, OncePerKey;
    match step {
      case Commit(tx) => CommitTells(s, tx);
      case Webhook(_, _, _) =>
      case Take(job) => TakeTells(s, job);
      case Load(key) => LoadTells(s, key);
      case GiveUp(key, again) => GivingUpTells(s, key, again);
      case SkipReward(_) =>
    }
  }

  // ----- What the law says ------------------------------------------------------------------------

  /** The amounts of u's payments, and of those that are CONFIRMED. */
  ghost function Charged(payments: map<nat, Payment>, u: nat): map<nat, int> {
    map p | p in payments :: if payments[p].user == u then payments[p].amount else 0
  }

  ghost function Confirmed(payments: map<nat, Payment>, u: nat): map<nat, int> {
    map p | p in payments :: if payments[p].user == u && payments[p].status == CONFIRMED then payments[p].amount else 0
  }

  /** By how much the LTV of u exceeds the confirmed total: the leads, payment by payment. */
  ghost function Leads(payments: map<nat, Payment>, commits: multiset<Key>, reversals: multiset<nat>,
          u: nat): map<nat, int> {
    map p | p in payments ::
      if payments[p].user == u then payments[p].amount * Lead(payments, commits, reversals, p) else 0
  }

  lemma LtvIsConfirmedPlusLeads(users: map<nat, User>, payments: map<nat, Payment>, commits: multiset<Key>,
          reversals: multiset<nat>, u: nat)
    requires LtvOk(users, payments, commits, reversals) && u in users
    ensures users[u].ltv == Sum(Confirmed(payments, u)) + Sum(Leads(payments, commits, reversals, u))
  {
    forall p | p in payments
      ensures payments[p].amount * Net(commits, reversals, p)
           == payments[p].amount * IsOn(payments[p].status) + payments[p].amount * Lead(payments, commits, reversals, p)
    {
      Distributes(payments[p].amount, IsOn(payments[p].status), Lead(payments, commits, reversals, p));
    }
    SumAdds(Confirmed(payments, u), Leads(payments, commits, reversals, u), Share(payments, commits, reversals, u));
  }

  /** The LTV of u over and above u's CONFIRMED payments. */
  ghost function Gap(db: DB, u: nat): int
    requires u in db.users
  {
    db.users[u].ltv - Sum(Confirmed(db.payments, u))
  }

  /** A direct write or a settlement moves the gap of the payment's owner by its amount, once per unit of shift. */
  lemma GapMoves(s: Sys, tx: Tx, after: DB)
    requires Reads(s, tx) && Effect(s, tx) == Ok(after) && (tx.MarkStatus? || tx.SettleEvent?)
    requires FlightsNamed(s.db.payments, s.gone, s.flight) && ReadsStand(s.db.payments, s.flight)
    requires PaymentsOk(s.db.payments, s.db.users) && LtvOk(s.db.users, s.db.payments, s.commits, s.reversals)
    requires LtvOk(after.users, after.payments, CommitsAfter(s, tx), ReversalsAfter(s, tx))
    ensures var p := if tx.MarkStatus? then tx.p else tx.key.0;
            && p in s.db.payments && s.db.payments[p].user in after.users
            && Gap(after, s.db.payments[p].user)
               == Gap(s.db, s.db.payments[p].user) + s.db.payments[p].amount * Shift(s, tx, p)
  {
    hide LtvOk, ReadsStand, Lead, Shift, Leads, Confirmed;
    var p := if tx.MarkStatus? then tx.p else tx.key.0;
    var commits, reversals := CommitsAfter(s, tx), ReversalsAfter(s, tx);
    EveryLeadMoves(s, tx, after, p);
    LeadsMove(s.db.payments, after.payments, s.commits, s.reversals, commits, reversals, p, Shift(s, tx, p));
    LtvIsConfirmedPlusLeads(s.db.users, s.db.payments, s.commits, s.reversals, s.db.payments[p].user);
    LtvIsConfirmedPlusLeads(after.users, after.payments, commits, reversals, s.db.payments[p].user);
  }

  lemma EveryLeadMoves(s: Sys, tx: Tx, after: DB, p: nat)
    requires Reads(s, tx) && Effect(s, tx) == Ok(after) && (tx.MarkStatus? || tx.SettleEvent?)
    requires p == if tx.MarkStatus? then tx.p else tx.key.0
    requires FlightsNamed(s.db.payments, s.gone, s.flight) && ReadsStand(s.db.payments, s.flight)
    requires PaymentsOk(s.db.payments, s.db.users)
    ensures p in s.db.payments && after.payments.Keys == s.db.payments.Keys
    ensures forall q | q in s.db.payments ::
              after.payments[q].user == s.db.payments[q].user && after.payments[q].amount == s.db.payments[q].amount
    ensures after.users.Keys == s.db.users.Keys
    ensures forall q | q in s.db.payments ::
              Lead(after.payments, CommitsAfter(s, tx), ReversalsAfter(s, tx), q)
              == Lead(s.db.payments, s.commits, s.reversals, q) + if q == p then Shift(s, tx, p) else 0
  {
    hide ReadsStand, PaymentsOk, Lead;
    assert Names(s.db.payments, s.gone, p, if tx.MarkStatus? then tx.reader else s.flight[tx.key].user);
    assert after.payments == SetStatus(s.db.payments, p, if tx.MarkStatus? then tx.status else tx.key.1);
    forall q | q in s.db.payments
      ensures Lead(after.payments, CommitsAfter(s, tx), ReversalsAfter(s, tx), q)
           == Lead(s.db.payments, s.commits, s.reversals, q) + if q == p then Shift(s, tx, p) else 0
    {
      LeadMoves(s, tx, after, q);
    }
  }

  lemma LeadsMove(payments: map<nat, Payment>, after: map<nat, Payment>, commits: multiset<Key>,
          reversals: multiset<nat>,
          commits': multiset<Key>, reversals': multiset<nat>, p: nat, shift: int)
    requires p in payments && after.Keys == payments.Keys
    requires forall q | q in payments :: after[q].user == payments[q].user && after[q].amount == payments[q].amount
    requires forall q | q in payments :: Lead(after, commits', reversals', q)
                                      == Lead(payments, commits, reversals, q) + if q == p then shift else 0
    ensures Sum(Leads(after, commits', reversals', payments[p].user))
         == Sum(Leads(payments, commits, reversals, payments[p].user)) + payments[p].amount * shift
  {
    var u := payments[p].user;
    var a: map<nat, int> := Leads(payments, commits, reversals, u);
    var b: map<nat, int> := Leads(after, commits', reversals', u);
    Distributes(payments[p].amount, Lead(payments, commits, reversals, p), shift);
    SumPut(a, p, b[p]);
    SumIgnoresZeros(a[p := b[p]], b);
  }

  lemma NoLeadsWithoutSkew(payments: map<nat, Payment>, commits: multiset<Key>, reversals: multiset<nat>,
          skewed: set<nat>, u: nat)
    requires StatusTells(payments, commits, reversals, skewed)
    requires forall p | p in payments && payments[p].user == u && payments[p].amount != 0 :: p !in skewed
    ensures Sum(Leads(payments, commits, reversals, u)) == 0
  {
    var nothing: map<nat, int> := map[];
    SumIgnoresZeros(nothing, Leads(payments, commits, reversals, u));
  }

  lemma LtvIsAtMostTheCharges(s: Sys, u: nat)
    requires LtvOk(s.db.users, s.db.payments, s.commits, s.reversals)
    requires OncePerKey(s.commits, s.flight, s.once.Keys, s.retaken) && OrdersOk(s.db.payments) && u in s.db.users
    requires forall p | p in s.db.payments && s.db.payments[p].user == u :: !Retaken(s.retaken, p)
    ensures s.db.users[u].ltv <= Sum(Charged(s.db.payments, u))
  {
    var share: map<nat, int> := Share(s.db.payments, s.commits, s.reversals, u);
    var charged: map<nat, int> := Charged(s.db.payments, u);
    forall p | p in share ensures share[p] <= charged[p] {
      if s.db.payments[p].user == u {
        var n := Net(s.commits, s.reversals, p);
        assert !Retaken(s.retaken, p);
        assert n <= s.commits[(p, CONFIRMED)] as int <= 1;
        AtMostOnce(s.db.payments[p].amount, n);
      }
    }
    SumMonotone(share, charged);
  }

  lemma AtMostOnce(amount: int, n: int)
    requires amount >= 0 && n <= 1
    ensures amount * n <= amount
  {
  }
}
