/**
 The PostgreSQL tables the money paths touch, and the constraints the schema puts on
 them. A row's primary key is its map key; every UUID is a number.
 */
module Tables {
  import opened Prelude
  import opened Domain

  /** The tx_type of a ledger row together with the reference it carries. */
  datatype Reason =
    | RewardCredit(reward: nat)
    | ClawbackOf(reward: nat)
    | PromoCredit(promo: nat)
    | PlanBonus
    | Spent
    | AdminAdjust

  datatype User = User(balance: int, ltv: int, referrer: Option<nat>, trialUsed: bool, risk: int)

  datatype Payment = Payment(user: nat, amount: int, status: PaymentStatus, plan: Plan, qty: nat, expires: Option<int>)

  datatype Sub = Sub(user: nat, plan: Plan, status: SubStatus, expires: int)

  datatype Row = Row(user: nat, delta: int, balance: int, reason: Reason)

  datatype Referral = Referral(referrer: nat, referee: nat, totalPaid: int, totalReward: int)

  datatype Reward = Reward(
    referral: nat, payment: nat, referrer: nat, amount: int, immediate: int, status: RewardStatus)

  datatype Promo = Promo(isYad: bool, yad: int, percent: int, maxUses: int, used: int, expires: Option<int>,
      creator: nat)

  datatype DeviceExpansion = DeviceExpansion(user: nat, extra: int, expires: int)

  /** Tables that only point at a user. */
  datatype ChildTable =
    | Tickets | TicketMessages | ShopOrders | Devices
    | AccountActivity | RiskEvents | AuditLogs | Notifications

  /** The database at one moment; `now` is what NOW() returns. */
  datatype DB = DB(
    now: int,
    users: map<nat, User>,
    payments: map<nat, Payment>,
    subs: map<nat, Sub>,
    ledger: seq<Row>,
    referrals: map<nat, Referral>,
    rewards: map<nat, Reward>,
    promos: map<nat, Promo>,
    uses: map<nat, (nat, nat)>,
    expansions: map<nat, DeviceExpansion>,
    children: map<(ChildTable, nat), nat>)

  const EMPTY := DB(0, map[], map[], map[], [], map[], map[], map[], map[], map[], map[])

  // ----- Constraints, table by table ----------------------------------------------

  ghost predicate UsersOk(users: map<nat, User>) {
    forall u | u in users ::
      users[u].balance >= 0 && (users[u].referrer.Some? ==> users[u].referrer.value in users)
  }

  ghost predicate PaymentsOk(payments: map<nat, Payment>, users: map<nat, User>) {
    forall p | p in payments ::
      payments[p].user in users && IsPaidPlan(payments[p].plan) && payments[p].qty <= 2
  }

  /** The partial unique index on (user_id, plan) WHERE status = 'PENDING'. */
  ghost predicate PendingUnique(payments: map<nat, Payment>) {
    forall p, q | p in payments && q in payments && p != q ::
      payments[p].status == PENDING && payments[q].status == PENDING && payments[p].user == payments[q].user ==>
        payments[p].plan != payments[q].plan
  }

  ghost predicate SubsOk(subs: map<nat, Sub>, users: map<nat, User>) {
    forall s | s in subs :: subs[s].user in users && !IsExpansionPlan(subs[s].plan)
  }

  ghost predicate LedgerOk(ledger: seq<Row>, users: map<nat, User>) {
    forall i | 0 <= i < |ledger| :: ledger[i].user in users
  }

  ghost predicate ReferralsOk(referrals: map<nat, Referral>, users: map<nat, User>) {
    forall r | r in referrals ::
      referrals[r].referrer in users && referrals[r].referee in users && referrals[r].referrer != referrals[r].referee
  }

  ghost predicate RefereeUnique(referrals: map<nat, Referral>) {
    forall r, q | r in referrals && q in referrals && r != q :: referrals[r].referee != referrals[q].referee
  }

  ghost predicate RewardsOk(rewards: map<nat, Reward>, referrals: map<nat, Referral>, payments: map<nat, Payment>,
          users: map<nat, User>) {
    forall w | w in rewards ::
      rewards[w].referral in referrals && rewards[w].payment in payments && rewards[w].referrer in users
  }

  ghost predicate RewardPaymentUnique(rewards: map<nat, Reward>) {
    forall w, x | w in rewards && x in rewards && w != x :: rewards[w].payment != rewards[x].payment
  }

  ghost predicate PromosOk(promos: map<nat, Promo>, users: map<nat, User>) {
    forall p | p in promos ::
      promos[p].creator in users && promos[p].yad >= 0 && 0 <= promos[p].percent <= 100
  }

  ghost predicate UsesOk(uses: map<nat, (nat, nat)>, promos: map<nat, Promo>, users: map<nat, User>) {
    forall x | x in uses :: uses[x].0 in promos && uses[x].1 in users
  }

  /** UNIQUE (promo_code_id, user_id). */
  ghost predicate UsesUnique(uses: map<nat, (nat, nat)>) {
    forall x, y | x in uses && y in uses && x != y :: uses[x] != uses[y]
  }

  ghost predicate ExpansionsOk(expansions: map<nat, DeviceExpansion>, users: map<nat, User>) {
    forall e | e in expansions :: expansions[e].user in users && 1 <= expansions[e].extra <= 2
  }

  ghost predicate ExpansionUnique(expansions: map<nat, DeviceExpansion>) {
    forall e, f | e in expansions && f in expansions && e != f :: expansions[e].user != expansions[f].user
  }

  ghost predicate ChildrenOk(children: map<(ChildTable, nat), nat>, users: map<nat, User>) {
    forall c | c in children :: children[c] in users
  }

  /** Everything PostgreSQL enforces on these tables. */
  ghost predicate Constraints(db: DB) {
    && UsersOk(db.users)
    && PaymentsOk(db.payments, db.users) && PendingUnique(db.payments)
    && SubsOk(db.subs, db.users)
    && LedgerOk(db.ledger, db.users)
    && ReferralsOk(db.referrals, db.users) && RefereeUnique(db.referrals)
    && RewardsOk(db.rewards, db.referrals, db.payments, db.users) && RewardPaymentUnique(db.rewards)
    && PromosOk(db.promos, db.users)
    && UsesOk(db.uses, db.promos, db.users) && UsesUnique(db.uses)
    && ExpansionsOk(db.expansions, db.users) && ExpansionUnique(db.expansions)
    && ChildrenOk(db.children, db.users)
  }

  /** Whether the index on PENDING payments admits this status for the row. */
  predicate StatusFits(payments: map<nat, Payment>, p: nat, status: PaymentStatus) {
    status == PENDING && p in payments ==>
      forall q | q in payments && q != p ::
        !(payments[q].status == PENDING && payments[q].user == payments[p].user && payments[q].plan == payments[p].plan)
  }

  predicate UsedBy(uses: map<nat, (nat, nat)>, p: nat, u: nat) {
    exists x | x in uses :: uses[x] == (p, u)
  }

  // ----- Row selections -------------------------------------------------------------

  /** A result of `ORDER BY expires_at DESC LIMIT 1`: ties may be broken either way. */
  ghost predicate IsLatest(subs: map<nat, Sub>, u: nat, found: Option<nat>) {
    match found
    case None => forall s | s in subs :: subs[s].user != u
    case Some(s) =>
      && s in subs && subs[s].user == u
      && forall t | t in subs && subs[t].user == u :: subs[t].expires <= subs[s].expires
  }

  predicate IsActive(sub: Sub, now: int) {
    (sub.status.Active? || sub.status.Trial?) && now < sub.expires
  }

  /** The unexpired active or trial row that ends last. */
  ghost predicate IsActiveOf(subs: map<nat, Sub>, u: nat, now: int, found: Option<nat>) {
    match found
    case None => forall s | s in subs && subs[s].user == u :: !IsActive(subs[s], now)
    case Some(s) =>
      && s in subs && subs[s].user == u && IsActive(subs[s], now)
      && forall t | t in subs && subs[t].user == u && IsActive(subs[t], now) :: subs[t].expires <= subs[s].expires
  }

  ghost predicate IsExpansionOf(expansions: map<nat, DeviceExpansion>, u: nat, found: Option<nat>) {
    match found
    case None => forall e | e in expansions :: expansions[e].user != u
    case Some(e) => e in expansions && expansions[e].user == u
  }

  ghost predicate IsRewardOf(rewards: map<nat, Reward>, payment: nat, found: Option<nat>) {
    match found
    case None => forall w | w in rewards :: rewards[w].payment != payment
    case Some(w) => w in rewards && rewards[w].payment == payment
  }

  // ----- Row updates ----------------------------------------------------------------

  /** A successful AdjustYADBalance: the new balance and the ledger row that records it. */
  function Post(db: DB, u: nat, delta: int, reason: Reason): DB
    requires u in db.users
  {
    var balance := db.users[u].balance + delta;
    db.(users := db.users[u := db.users[u].(balance := balance)],
        ledger := db.ledger + [Row(u, delta, balance, reason)])
  }

  /** ClawbackYAD on an existing user: clamped at the balance, no row for a zero take. */
  function Clawback(db: DB, u: nat, amount: int, reason: Reason): DB
    requires u in db.users
  {
    var take := Min(db.users[u].balance, amount);
    if amount <= 0 || take == 0 then db else Post(db, u, -take, reason)
  }

  function AddLtv(users: map<nat, User>, u: nat, kopecks: int): map<nat, User> {
    if u in users then users[u := users[u].(ltv := users[u].ltv + kopecks)] else users
  }

  function SetStatus(payments: map<nat, Payment>, p: nat, status: PaymentStatus): map<nat, Payment> {
    if p in payments then payments[p := payments[p].(status := status)] else payments
  }

  function ExpirePending(payments: map<nat, Payment>, now: int): map<nat, Payment> {
    map p | p in payments ::
      if payments[p].status == PENDING && payments[p].expires.Some? && payments[p].expires.value <= now
      then payments[p].(status := EXPIRED) else payments[p]
  }

  /** Reward states from which a charge-back still has something to undo. */
  predicate Revertible(status: RewardStatus) {
    status.Immediate? || status.Paid? || status.Pending?
  }

  /** Whether the payment already has its one reward. */
  predicate PaidFor(rewards: map<nat, Reward>, payment: nat) {
    exists x | x in rewards :: rewards[x].payment == payment
  }

  function MarkReward(rewards: map<nat, Reward>, w: nat, status: RewardStatus): map<nat, Reward> {
    if w in rewards then rewards[w := rewards[w].(status := status)] else rewards
  }

  function BumpReferral(referrals: map<nat, Referral>, r: nat, paid: int, reward: int): map<nat, Referral> {
    if r in referrals then
      referrals[r := referrals[r].(totalPaid := referrals[r].totalPaid + paid,
          totalReward := referrals[r].totalReward + reward)]
    else referrals
  }

  function ExtendRow(sub: Sub, now: int, days: nat, plan: Plan): Sub {
    sub.(expires := Max(sub.expires, now) + days * DAY, plan := plan, status := Active)
  }

  function ContractRow(sub: Sub, now: int, days: nat): Sub {
    var e := sub.expires - days * DAY;
    sub.(expires := e, status := if e <= now then SubReverted else sub.status)
  }

  function DropExpansions(expansions: map<nat, DeviceExpansion>, u: nat): map<nat, DeviceExpansion> {
    map e | e in expansions && expansions[e].user != u :: expansions[e]
  }

  /** INSERT ... ON CONFLICT (user_id) DO UPDATE with GREATEST on both columns. */
  function Upsert(expansions: map<nat, DeviceExpansion>, found: Option<nat>, id: nat, u: nat, extra: int,
          expires: int): map<nat, DeviceExpansion>
    requires found.Some? ==> found.value in expansions
  {
    match found
    case None => expansions[id := DeviceExpansion(u, extra, expires)]
    case Some(e) =>
      var x := expansions[e];
      expansions[e := x.(extra := Max(x.extra, extra), expires := Max(x.expires, expires))]
  }

  /** The slots an unexpired expansion row already grants. */
  function Owned(expansions: map<nat, DeviceExpansion>, found: Option<nat>, now: int): int
    requires found.Some? ==> found.value in expansions
  {
    if found.Some? && expansions[found.value].expires > now then expansions[found.value].extra else 0
  }

  // ----- What keeps the constraints --------------------------------------------------

  lemma UsersReplaced(db: DB, users: map<nat, User>)
    requires Constraints(db) && users.Keys == db.users.Keys && UsersOk(users)
    ensures Constraints(db.(users := users))
  {
  }

  lemma PostKeepsConstraints(db: DB, u: nat, delta: int, reason: Reason)
    requires Constraints(db) && u in db.users && db.users[u].balance + delta >= 0
    ensures Constraints(Post(db, u, delta, reason))
  {
    var after := Post(db, u, delta, reason);
    UsersReplaced(db, after.users);
    assert LedgerOk(after.ledger, after.users);
  }

  /** A status fits exactly if the unique index on PENDING payments still holds after it is written. */
  lemma StatusFitsIff(payments: map<nat, Payment>, p: nat, status: PaymentStatus)
    requires PendingUnique(payments)
    ensures StatusFits(payments, p, status) <==> PendingUnique(SetStatus(payments, p, status))
  {
    if status == PENDING && p in payments {
      var after := SetStatus(payments, p, status);
      forall q | q in payments && q != p && payments[q].status == PENDING && payments[q].user == payments[p].user
                 && payments[q].plan == payments[p].plan
        ensures !PendingUnique(after)
      {
        assert after[q] == payments[q] && after[p].status == PENDING;
      }
    }
  }

  lemma ExpansionsReplaced(db: DB, expansions: map<nat, DeviceExpansion>)
    requires Constraints(db) && ExpansionsOk(expansions, db.users) && ExpansionUnique(expansions)
    ensures Constraints(db.(expansions := expansions))
  {
  }

  lemma UpsertKeepsExpansions(expansions: map<nat, DeviceExpansion>, users: map<nat, User>, found: Option<nat>,
          id: nat, u: nat, extra: int, expires: int)
    requires ExpansionsOk(expansions, users) && ExpansionUnique(expansions) && IsExpansionOf(expansions, u, found)
    requires u in users && 1 <= extra <= 2 && (found.None? ==> id !in expansions)
    ensures var after := Upsert(expansions, found, id, u, extra, expires);
            ExpansionsOk(after, users) && ExpansionUnique(after)
  {
  }

  lemma RewardsReplaced(db: DB, rewards: map<nat, Reward>)
    requires Constraints(db) && RewardsOk(rewards, db.referrals, db.payments, db.users) && RewardPaymentUnique(rewards)
    ensures Constraints(db.(rewards := rewards))
  {
  }
}
