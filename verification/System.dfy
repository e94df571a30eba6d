/**
 The money machine as a state machine. A step is one committed transaction or one Redis
 operation; an aborted transaction is no step at all. Between any two steps of one
 handler, any steps of the others may run.
 */
module System {
  import opened Prelude
  import opened Domain
  import opened Tables
  import opened Transactions
  import M = Merge
  import E = Expiry
  import X = Expansions
  import L = Latest

  // ----- Queues --------------------------------------------------------------------------

  type Key = (nat, PaymentStatus)

  datatype Job = Job(payment: nat, user: nat, event: PaymentStatus)

  datatype GrantJob = GrantJob(payment: nat, user: nat, plan: Plan, qty: nat)

  datatype RewardJob = RewardJob(payment: nat, referee: nat, paid: int)

  /** A payment job past its once-key: before and after the handler has read the payment row. */
  datatype Flight =
    | Taken(user: nat)
    | Loaded(user: nat, seen: Payment)

  /** A reward added to a referral's totals for a payment that had its reward already. */
  datatype Again = Again(payment: nat, yad: nat)

  /** How long Redis keeps a once-key. */
  const ONCE_TTL: int := 48 * HOUR

  /**
   The tables, the queues and what a run has done so far. `once` holds the deadline of each
   once-key ever set, `commits` and `reversals` count the committed transactions per event
   key and those that subtracted LTV, `granted` and `offered` are every activation and
   reward job ever enqueued, `history` is what happened to each subscription row's expiry,
   `deeds` what happened to each user's rows, `slots` what was granted to each expansion
   row, `gone` the accounts merged away.

   The last six fields remember steps that the laws below turn on: keys handled again after
   their once-key had expired, payments with two jobs in flight at once, payments of which
   a step broke the match between status and LTV, those of which a status written outside
   the queue did, what was added to each referral for a payment that had its reward, and
   users who hold two subscription rows.
   */
  datatype Sys = Sys(
    db: DB,
    gone: set<nat>,
    events: set<Key>,
    once: map<Key, int>,
    slotsOnce: map<nat, int>,
    jobs: multiset<Job>,
    flight: map<Key, Flight>,
    commits: multiset<Key>,
    reversals: multiset<nat>,
    granted: multiset<GrantJob>,
    offered: multiset<RewardJob>,
    rewardJobs: multiset<RewardJob>,
    history: map<nat, seq<E.Op>>,
    deeds: map<nat, seq<L.Act>>,
    slots: map<nat, seq<X.Grant>>,
    retaken: set<Key>,
    crowd: set<nat>,
    skewed: set<nat>,
    direct: set<nat>,
    repaid: map<nat, seq<Again>>,
    doubled: set<nat>)

  const INITIAL := Sys(EMPTY, {}, {}, map[], map[], multiset{}, map[], multiset{}, multiset{}, multiset{}, multiset{},
                       multiset{}, map[], map[], map[], {}, {}, {}, {}, map[], {})

  // ----- Transactions ---------------------------------------------------------------------

  datatype Tx =
    | Tick(to: int)
    | Register(u: nat, referrer: Option<nat>)
    | Refer(r: nat, referrerId: nat, referee: nat)
    | Checkout(p: nat, u: nat, plan: Plan, discount: int, sent: bool)
    | SlotCheckout(p: nat, u: nat, qty: int, owned: int, days: int)
    | TouchPayment(p: nat)
    | ExpirePayments
    | MarkStatus(p: nat, status: PaymentStatus, reader: nat, sent: bool)
    /** A status check whose write failed, or found the payment CONFIRMED already: the job goes out all the same. */
    | EnqueueOnly(p: nat, reader: nat)
    | SettleEvent(key: Key, target: Option<nat>, reward: Option<nat>, sentGrant: bool, sentReward: bool)
    | Activate(job: GrantJob, target: Option<nat>, id: nat, at: int)
    | Assign(u: nat, plan: Plan, target: Option<nat>, id: nat, at: int)
    | BuyPlan(u: nat, plan: Plan, target: Option<nat>, id: nat, at: int)
    | BeginTrial(u: nat, id: nat, at: int)
    | ExtendDays(s: nat, more: nat)
    | SetSubStatus(s: nat, sub: SubStatus)
    | LapseSubs
    | Adjust(u: nat, delta: int, reason: Reason)
    | CreatePromo(p: nat, promo: Promo)
    | ApplyPromo(p: nat, u: nat, id: nat)
    | RewardReferral(rewardJob: RewardJob, w: nat, r: nat, referrerId: nat, risk: int)
    | PayoutPending(w: nat)
    | BuyExpansion(u: nat, qty: int, days: int, expires: int, found: Option<nat>, id: nat)
    | ActivateSlots(job: GrantJob, since: int, expires: int, found: Option<nat>, id: nat)
    | DropExpired
    | MergeAccounts(src: nat, dst: nat)
    | ChildRow(child: (ChildTable, nat), u: nat)

  function FreshUser(referrer: Option<nat>): User {
    User(0, 0, referrer, false, 0)
  }

  /** The row InitiatePayment stores: a free one is born CONFIRMED. */
  function CheckoutRow(u: nat, plan: Plan, discount: int, now: int): Payment {
    var kopecks := CheckoutKopecks(plan, discount);
    if kopecks == 0 then Payment(u, 0, CONFIRMED, plan, 0, None)
    else Payment(u, kopecks, PENDING, plan, 0, Some(now + HOUR / 2))
  }

  /** The row InitiateDeviceExpansionPayment stores. */
  function SlotCheckoutRow(u: nat, qty: nat, owned: int, days: int, now: int): Payment {
    Payment(u, ExpansionKopecks(qty, days) - (if owned > 0 then ExpansionKopecks(owned, days) else 0), PENDING,
            if qty == 2 then Expansion2 else Expansion, qty, Some(now + HOUR / 2))
  }

  function LapseRow(sub: Sub, now: int): Sub {
    if (sub.status.Active? || sub.status.Trial?) && sub.expires <= now then sub.(status := Lapsed) else sub
  }

  /** Admin: relative extension that revives an expired or canceled row and leaves others as they are. */
  function ExtendRowByDays(sub: Sub, now: int, days: nat): Sub {
    sub.(expires := Max(sub.expires, now) + days * DAY,
         status := if sub.status.Lapsed? || sub.status.Stopped? then Active else sub.status)
  }

  /** The slots a job asks for; a quantity out of range counts as one. */
  function SlotQty(job: GrantJob): (qty: nat)
    ensures 1 <= qty <= 2
  {
    if 1 <= job.qty <= 2 then job.qty else 1
  }

  function InsertPayment(db: DB, p: nat, row: Payment): Result<DB> {
    if p in db.payments then Err(ConstraintViolated) else Ok(db.(payments := db.payments[p := row]))
  }

  /**
   Row ids the source looked up under its locks, and what earlier reads still imply: a
   payment's or a referral's user read before is the present one, or has been merged away.
   A reward that the reversal could not look up is None. `since` is when the slots' once-key,
   free by then, was set.
   */
  ghost predicate Reads(s: Sys, tx: Tx) {
    var db := s.db;
    match tx
    case Tick(to) => db.now <= to
    case Register(u, _) => u !in s.gone
    case Checkout(p, u, plan, _, _) => PlanPriceKopecks(plan) > 0
    case SlotCheckout(_, _, qty, owned, _) => 1 <= qty <= 2 && 0 <= owned < qty
    case MarkStatus(p, status, reader, _) =>
      status != PENDING && p in db.payments && (reader == db.payments[p].user || reader in s.gone)
    case EnqueueOnly(p, reader) => p in db.payments && (reader == db.payments[p].user || reader in s.gone)
    case SettleEvent(key, target, reward, _, _) =>
      && key in s.flight && s.flight[key].Loaded?
      && (target.Some? ==> IsLatest(db.subs, s.flight[key].user, target))
      && (reward.Some? ==> IsRewardOf(db.rewards, key.0, reward) && db.rewards[reward.value].referrer in db.users)
      && (Reverses(s, tx) ==>
            IsExpansionPlan(s.flight[key].seen.plan) || IsLatest(db.subs, s.flight[key].user, target))
    case Activate(job, target, _, at) => job in s.granted && !IsExpansionPlan(job.plan)
        && IsLatest(db.subs, job.user, target) && at <= db.now
    case Assign(u, _, target, _, at) => IsLatest(db.subs, u, target) && at <= db.now
    case BuyPlan(u, _, target, _, at) => IsLatest(db.subs, u, target) && at <= db.now
    case BeginTrial(_, _, at) => at <= db.now
    case ExtendDays(row, _) => row in db.subs
    case SetSubStatus(row, _) => row in db.subs
    case Adjust(_, _, reason) => reason.PlanBonus? || reason.Spent? || reason.AdminAdjust?
    case CreatePromo(p, promo) => promo.used == 0 && promo.maxUses >= 0 && Unbooked(db.ledger, PromoCredit(p))
    case RewardReferral(job, w, r, referrer, _) =>
      && job in s.rewardJobs && Unbooked(db.ledger, RewardCredit(w)) && Unbooked(db.ledger, ClawbackOf(w))
      && (r in db.referrals ==>
            db.referrals[r].referee == job.referee && (db.referrals[r].referrer == referrer || referrer in s.gone))
    case PayoutPending(w) => w in db.rewards && db.rewards[w].status.Pending?
    case BuyExpansion(u, qty, _, _, found, _) => 1 <= qty <= 2 && IsExpansionOf(db.expansions, u, found)
    case ActivateSlots(job, since, _, found, _) =>
      && job in s.granted && IsExpansionPlan(job.plan) && since <= db.now
      && (job.payment in s.slotsOnce ==> s.slotsOnce[job.payment] <= since)
      && IsExpansionOf(db.expansions, job.user, found)
    case MergeAccounts(src, dst) => src != dst && M.CanMerge(db, src, dst)
    case _ => true
  }

  /** A fresh UUID: no ledger row refers to it yet. */
  ghost predicate Unbooked(ledger: seq<Row>, reason: Reason) {
    forall i | 0 <= i < |ledger| :: ledger[i].reason != reason
  }

  /** What the transaction would leave, if PostgreSQL accepts it. */
  ghost function Effect(s: Sys, tx: Tx): Result<DB>
    requires Reads(s, tx)
  {
    var db := s.db;
    match tx
    case Tick(to) => Ok(db.(now := to))
    case Register(u, referrer) => if u in db.users then Err(ConstraintViolated)
        else Ok(db.(users := db.users[u := FreshUser(referrer)]))
    case Refer(r, referrer, referee) =>
      if r in db.referrals then Err(ConstraintViolated)
      else Ok(db.(referrals := db.referrals[r := Referral(referrer, referee, 0, 0)]))
    case Checkout(p, u, plan, discount, _) => InsertPayment(db, p, CheckoutRow(u, plan, discount, db.now))
    case SlotCheckout(p, u, qty, owned, days) => InsertPayment(db, p, SlotCheckoutRow(u, qty, owned, days, db.now))
    case TouchPayment(p) =>
      if p in db.payments && db.payments[p].status == PENDING
      then Ok(db.(payments := db.payments[p := db.payments[p].(expires := Some(db.now + HOUR / 2))]))
      else Err(NotFound)
    case ExpirePayments => Ok(db.(payments := ExpirePending(db.payments, db.now)))
    case MarkStatus(p, status, _, _) => Ok(db.(payments := SetStatus(db.payments, p, status)))
    case EnqueueOnly(_, _) => Ok(db)
    case SettleEvent(key, target, reward, _, _) =>
      Settle(db, key.0, s.flight[key].user, key.1, s.flight[key].seen, target, reward)
    case Activate(job, target, id, at) => Grant(db, job.user, job.plan, target, id, at)
    case Assign(u, plan, target, id, at) => Grant(db, u, plan, target, id, at)
    case BuyPlan(u, plan, target, id, at) => Buy(db, u, plan, target, id, at)
    case BeginTrial(u, id, at) => StartTrial(db, u, id, at)
    case ExtendDays(row, more) => Ok(db.(subs := db.subs[row := ExtendRowByDays(db.subs[row], db.now, more)]))
    case SetSubStatus(row, sub) => Ok(db.(subs := db.subs[row := db.subs[row].(status := sub)]))
    case LapseSubs => Ok(db.(subs := map x | x in db.subs :: LapseRow(db.subs[x], db.now)))
    case Adjust(u, delta, reason) => Credit(db, u, delta, reason)
    case CreatePromo(p, promo) =>
      if p in db.promos then Err(ConstraintViolated) else Ok(db.(promos := db.promos[p := promo]))
    case ApplyPromo(p, u, id) => UsePromo(db, p, u, id)
    case RewardReferral(job, w, r, referrer, risk) =>
      var yad := RewardYAD(job.paid, risk);
      if yad == 0 then Err(NotFound) else PayReward(db, w, r, referrer, job.payment, job.paid, yad)
    case PayoutPending(w) => Payout(db, w)
    case BuyExpansion(u, qty, days, expires, found, id) => BuySlots(db, u, qty, days, expires, found, id)
    case ActivateSlots(job, _, expires, found, id) => GrantSlots(db, job.user, SlotQty(job), expires, found, id)
    case DropExpired =>
      Ok(db.(expansions := map e | e in db.expansions && db.expansions[e].expires > db.now :: db.expansions[e]))
    case MergeAccounts(src, dst) => Ok(M.Merged(db, src, dst))
    case ChildRow(child, u) => Ok(db.(children := db.children[child := u]))
  }

  // ----- Steps ---------------------------------------------------------------------------------

  datatype Step =
    | Commit(tx: Tx)
    /** A webhook delivery: the event row, the amount check, the job. `sent` is false when enqueueing failed. */
    | Webhook(key: Key, kopecks: int, sent: bool)
    /** BRPOP and the once-key, set for 48 hours unless it is still held. */
    | Take(job: Job)
    /** The handler reads the payment row. */
    | Load(key: Key)
    /** The handler gives up; the job may come back through the retry queue. */
    | GiveUp(key: Key, again: bool)
    /** A reward job that ends without a transaction: no referrer, risk, or the dead-letter queue. */
    | SkipReward(rewardJob: RewardJob)

  ghost predicate Enabled(s: Sys, step: Step) {
    match step
    case Commit(tx) => Constraints(s.db) && Reads(s, tx) && Effect(s, tx).Ok? && Constraints(Effect(s, tx).value)
    case Webhook(key, _, _) => key !in s.events
    case Take(job) => job in s.jobs && (Held(s, (job.payment, job.event)) || (job.payment, job.event) !in s.flight)
    case Load(key) => key in s.flight && s.flight[key].Taken? && key.0 in s.db.payments
    case GiveUp(key, _) => key in s.flight
    case SkipReward(job) => job in s.rewardJobs
  }

  predicate Held(s: Sys, key: Key) {
    key in s.once && s.db.now < s.once[key]
  }

  /** Whether the webhook leads to a job: a known payment, a processed status, the right amount. */
  predicate Accepted(db: DB, key: Key, kopecks: int) {
    && key.0 in db.payments
    && (key.1 == CONFIRMED || key.1 == CANCELED || key.1 == CHARGEBACKED)
    && -1 <= kopecks - db.payments[key.0].amount <= 1
  }

  function JobsSent(s: Sys, tx: Tx): multiset<Job>
    requires tx.MarkStatus? ==> tx.p in s.db.payments
  {
    match tx
    case Checkout(p, u, plan, discount, sent) =>
      if sent && CheckoutKopecks(plan, discount) == 0 then multiset{Job(p, u, CONFIRMED)} else multiset{}
    case MarkStatus(p, status, reader, sent) =>
      if sent && status == CONFIRMED then multiset{Job(p, reader, CONFIRMED)} else multiset{}
    case EnqueueOnly(p, reader) => multiset{Job(p, reader, CONFIRMED)}
    case _ => multiset{}
  }

  /** A committed confirmation of an allowed plan. */
  predicate Confirms(s: Sys, tx: Tx) {
    tx.SettleEvent? && tx.key.1 == CONFIRMED && tx.key in s.flight && s.flight[tx.key].Loaded?
        && IsPaidPlan(s.flight[tx.key].seen.plan)
  }

  predicate IsReversal(event: PaymentStatus) {
    event == CANCELED || event == CHARGEBACKED
  }

  /** A committed reversal that had something to undo. */
  predicate Reverses(s: Sys, tx: Tx) {
    && tx.SettleEvent? && IsReversal(tx.key.1)
    && tx.key in s.flight && s.flight[tx.key].Loaded? && s.flight[tx.key].seen.status == CONFIRMED
  }

  function Granted(s: Sys, tx: Tx): multiset<GrantJob> {
    if Confirms(s, tx) && tx.sentGrant then
      var seen := s.flight[tx.key].seen;
      multiset{GrantJob(tx.key.0, s.flight[tx.key].user, seen.plan, if seen.qty > 0 then seen.qty else 1)}
    else multiset{}
  }

  function Offered(s: Sys, tx: Tx): multiset<RewardJob> {
    if Confirms(s, tx) && tx.sentReward && s.flight[tx.key].seen.amount > 0
    then multiset{RewardJob(tx.key.0, s.flight[tx.key].user, s.flight[tx.key].seen.amount)}
    else multiset{}
  }

  /** The subscription row whose expiry the transaction moves, and how. */
  function ExpiryOp(s: Sys, tx: Tx): Option<(nat, E.Op)> {
    match tx
    case SettleEvent(key, target, _, _, _) =>
      if Reverses(s, tx) && target.Some? && !IsExpansionPlan(s.flight[key].seen.plan)
          && PlanDays(s.flight[key].seen.plan) > 0
      then Some((target.value, E.Contract(s.db.now, PlanDays(s.flight[key].seen.plan) * DAY)))
      else None
    case Activate(job, target, id, at) => Some(GrantOp(s.db.now, job.plan, target, id, at))
    case Assign(_, plan, target, id, at) => Some(GrantOp(s.db.now, plan, target, id, at))
    case BuyPlan(_, plan, target, id, at) => Some(GrantOp(s.db.now, plan, target, id, at))
    case BeginTrial(_, id, at) => Some((id, E.Extend(at, 3 * DAY)))
    case ExtendDays(row, more) => Some((row, E.Extend(s.db.now, more * DAY)))
    case _ => None
  }

  function GrantOp(now: int, plan: Plan, target: Option<nat>, id: nat, at: int): (nat, E.Op) {
    match target
    case Some(row) => (row, E.Extend(now, PlanDays(plan) * DAY))
    case None => (id, E.Extend(at, PlanDays(plan) * DAY))
  }

  function Recorded(history: map<nat, seq<E.Op>>, op: Option<(nat, E.Op)>): map<nat, seq<E.Op>> {
    match op
    case None => history
    case Some((row, o)) => history[row := (if row in history then history[row] else []) + [o]]
  }

  /** The subscription rows of a user, by their expiry. */
  function UserRows(subs: map<nat, Sub>, u: nat): L.Rows {
    map row | row in subs && subs[row].user == u :: subs[row].expires
  }

  function GrantDeed(now: int, plan: Plan, target: Option<nat>, id: nat, at: int): L.Act {
    if target.Some? then L.Buy(now, PlanDays(plan) * DAY) else L.Adopt(map[id := at + PlanDays(plan) * DAY])
  }

  /** The user whose rows the transaction changes, and how. */
  function Deed(s: Sys, tx: Tx): Option<(nat, L.Act)> {
    match tx
    case SettleEvent(key, _, _, _, _) =>
      if ExpiryOp(s, tx).None? || key !in s.flight then None
      else Some((s.flight[key].user, L.Refund(s.db.now, ExpiryOp(s, tx).value.1.days)))
    case Activate(job, target, id, at) => Some((job.user, GrantDeed(s.db.now, job.plan, target, id, at)))
    case Assign(u, plan, target, id, at) => Some((u, GrantDeed(s.db.now, plan, target, id, at)))
    case BuyPlan(u, plan, target, id, at) => Some((u, GrantDeed(s.db.now, plan, target, id, at)))
    case BeginTrial(u, id, at) => Some((u, L.Adopt(map[id := at + 3 * DAY])))
    case ExtendDays(row, more) =>
      if row in s.db.subs then Some((s.db.subs[row].user, L.Days(row, s.db.now, more * DAY))) else None
    case MergeAccounts(src, dst) => Some((dst, L.Adopt(UserRows(s.db.subs, src))))
    case _ => None
  }

  function DeedsOf(deeds: map<nat, seq<L.Act>>, u: nat): seq<L.Act> {
    if u in deeds then deeds[u] else []
  }

  function Done(deeds: map<nat, seq<L.Act>>, deed: Option<(nat, L.Act)>): map<nat, seq<L.Act>> {
    match deed
    case None => deeds
    case Some((u, act)) => deeds[u := DeedsOf(deeds, u) + [act]]
  }

  // ----- What the run remembers -----------------------------------------------------------------

  predicate Flips(payments: map<nat, Payment>, p: nat, confirmed: bool) {
    p in payments && payments[p].amount != 0 && (payments[p].status == CONFIRMED) != confirmed
  }

  /**
   The step moves the status of a paid payment into or out of CONFIRMED without moving the
   LTV along, or the other way round: a direct write that flips it, a confirmation of a row
   that is CONFIRMED already, a reversal whose reading of the status is out of date.
   */
  predicate Skews(s: Sys, tx: Tx) {
    match tx
    case MarkStatus(p, status, _, _) => Flips(s.db.payments, p, status == CONFIRMED)
    case SettleEvent(key, _, _, _, _) =>
      && key in s.flight && s.flight[key].Loaded?
      && Flips(s.db.payments, key.0, IsReversal(key.1) && s.flight[key].seen.status == CONFIRMED)
    case _ => false
  }

  function SkewedAfter(s: Sys, tx: Tx): set<nat> {
    if !Skews(s, tx) then s.skewed
    else s.skewed + {if tx.MarkStatus? then tx.p else if tx.SettleEvent? then tx.key.0 else 0}
  }

  function DirectAfter(s: Sys, tx: Tx): set<nat> {
    if tx.MarkStatus? && Skews(s, tx) then s.direct + {tx.p} else s.direct
  }

  function Agains(repaid: map<nat, seq<Again>>, r: nat): seq<Again> {
    if r in repaid then repaid[r] else []
  }

  /** A reward job for a payment that has its reward already: the totals grow and the credit is paid all the same. */
  function RepaidAfter(s: Sys, tx: Tx): map<nat, seq<Again>> {
    if tx.Refer? then s.repaid - {tx.r}
    else if tx.RewardReferral? && PaidFor(s.db.rewards, tx.rewardJob.payment) then
      s.repaid[tx.r := Agains(s.repaid, tx.r) + [Again(tx.rewardJob.payment, RewardYAD(tx.rewardJob.paid, tx.risk))]]
    else s.repaid
  }

  predicate HasRow(subs: map<nat, Sub>, u: nat) {
    exists row | row in subs :: subs[row].user == u
  }

  /** A trial next to an existing row, and a merge of two accounts that both hold rows, can leave a user with two. */
  function DoubledAfter(s: Sys, tx: Tx): set<nat> {
    if tx.BeginTrial? && HasRow(s.db.subs, tx.u) then s.doubled + {tx.u}
    else if tx.MergeAccounts? && (tx.src in s.doubled || (HasRow(s.db.subs, tx.src) && HasRow(s.db.subs, tx.dst)))
    then s.doubled + {tx.dst}
    else s.doubled
  }

  /** The expansion row the transaction upserts, and what it grants. */
  function SlotGrant(tx: Tx): Option<(nat, X.Grant)> {
    match tx
    case BuyExpansion(_, qty, _, expires, found, id) =>
      Some((if found.Some? then found.value else id, X.Grant(qty, expires)))
    case ActivateSlots(job, _, expires, found, id) =>
      Some((if found.Some? then found.value else id, X.Grant(SlotQty(job), expires)))
    case _ => None
  }

  /** Grants are kept for as long as their row is. */
  function SlotsAfter(slots: map<nat, seq<X.Grant>>, grant: Option<(nat, X.Grant)>,
          rows: map<nat, DeviceExpansion>): map<nat, seq<X.Grant>> {
    map e | e in rows ::
      var before := if e in slots then slots[e] else [];
      if grant.Some? && grant.value.0 == e then before + [grant.value.1] else before
  }

  function GoneAfter(s: Sys, tx: Tx): set<nat> {
    if tx.MergeAccounts? then s.gone + {tx.src} else s.gone
  }

  function CommitsAfter(s: Sys, tx: Tx): multiset<Key> {
    if tx.SettleEvent? then s.commits + multiset{tx.key} else s.commits
  }

  function ReversalsAfter(s: Sys, tx: Tx): multiset<nat> {
    if Reverses(s, tx) then s.reversals + multiset{tx.key.0} else s.reversals
  }

  function RewardJobsAfter(s: Sys, tx: Tx): multiset<RewardJob> {
    if tx.RewardReferral? then s.rewardJobs - multiset{tx.rewardJob} else s.rewardJobs + Offered(s, tx)
  }

  /** The state after a committed transaction. */
  ghost function Committed(s: Sys, tx: Tx): Sys
    requires Enabled(s, Commit(tx))
  {
    s.(db := Effect(s, tx).value,
       gone := GoneAfter(s, tx),
       jobs := s.jobs + JobsSent(s, tx),
       flight := if tx.SettleEvent? then s.flight - {tx.key} else s.flight,
       commits := CommitsAfter(s, tx),
       reversals := ReversalsAfter(s, tx),
       granted := s.granted + Granted(s, tx),
       offered := s.offered + Offered(s, tx),
       rewardJobs := RewardJobsAfter(s, tx),
       slotsOnce := if tx.ActivateSlots? then s.slotsOnce[tx.job.payment := tx.since + ONCE_TTL] else s.slotsOnce,
       history := Recorded(s.history, ExpiryOp(s, tx)),
       deeds := Done(s.deeds, Deed(s, tx)),
       slots := SlotsAfter(s.slots, SlotGrant(tx), Effect(s, tx).value.expansions),
       skewed := SkewedAfter(s, tx),
       direct := DirectAfter(s, tx),
       repaid := RepaidAfter(s, tx),
       doubled := DoubledAfter(s, tx))
  }

  /** The state after a Redis operation, which touches no table: reward jobs only go, retaken keys only come. */
  ghost function Relayed(s: Sys, step: Step): (t: Sys)
    requires Enabled(s, step) && !step.Commit?
    ensures t == s.(events := t.events, once := t.once, jobs := t.jobs, flight := t.flight,
                    rewardJobs := t.rewardJobs, retaken := t.retaken, crowd := t.crowd)
    ensures t.rewardJobs <= s.rewardJobs && s.retaken <= t.retaken
  {
    match step
    case Webhook(key, kopecks, sent) =>
      s.(events := s.events + {key},
         jobs := if sent && Accepted(s.db, key, kopecks)
             then s.jobs + multiset{Job(key.0, s.db.payments[key.0].user, key.1)} else s.jobs)
    case Take(job) =>
      var key, rest := (job.payment, job.event), s.(jobs := s.jobs - multiset{job});
      if Held(s, key) then rest
      else rest.(once := s.once[key := s.db.now + ONCE_TTL],
                 flight := s.flight[key := Taken(job.user)],
                 retaken := if key in s.once then s.retaken + {key} else s.retaken,
                 crowd := if exists k | k in s.flight :: k.0 == job.payment then s.crowd + {job.payment} else s.crowd)
    case Load(key) => s.(flight := s.flight[key := Loaded(s.flight[key].user, s.db.payments[key.0])])
    case GiveUp(key, again) =>
      s.(flight := s.flight - {key},
         jobs := if again then s.jobs + multiset{Job(key.0, s.flight[key].user, key.1)} else s.jobs)
    case SkipReward(job) => s.(rewardJobs := s.rewardJobs - multiset{job})
  }

  ghost function Next(s: Sys, step: Step): Sys
    requires Enabled(s, step)
  {
    if step.Commit? then Committed(s, step.tx) else Relayed(s, step)
  }

  /** A run: a sequence of states from the empty system, each following from the one before. */
  ghost predicate Follows(s: Sys, t: Sys) {
    exists step: Step :: Enabled(s, step) && t == Next(s, step)
  }

  ghost predicate Run(states: seq<Sys>) {
    && states != [] && states[0] == INITIAL
    && forall i | 0 < i < |states| :: Follows(states[i - 1], states[i])
  }
}
