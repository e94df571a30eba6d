/**
 The payment queue: whatever the source of a job, each event of each payment commits at
 most once, and a confirmation enqueues at most one activation and one reward job.
 */
module Jobs {
  import opened Prelude
  import opened Domain
  import opened Tables
  import opened Transactions
  import opened Merge
  import opened System

  // ----- The invariant --------------------------------------------------------------------

  predicate IsPaymentEvent(event: PaymentStatus) {
    event == CONFIRMED || event == CANCELED || event == CHARGEBACKED
  }

  /** The user a job names owns the payment, or has been merged away. */
  ghost predicate Names(payments: map<nat, Payment>, gone: set<nat>, p: nat, u: nat) {
    p in payments && (payments[p].user == u || u in gone)
  }

  ghost predicate JobsNamed(payments: map<nat, Payment>, gone: set<nat>, jobs: multiset<Job>) {
    forall j | j in jobs :: Names(payments, gone, j.payment, j.user) && IsPaymentEvent(j.event)
  }

  ghost predicate FlightsNamed(payments: map<nat, Payment>, gone: set<nat>, flight: map<Key, Flight>) {
    forall k | k in flight :: Names(payments, gone, k.0, flight[k].user) && IsPaymentEvent(k.1)
  }

  ghost predicate GrantsNamed(payments: map<nat, Payment>, gone: set<nat>, granted: multiset<GrantJob>) {
    forall g | g in granted :: Names(payments, gone, g.payment, g.user)
  }

  ghost predicate OffersNamed(payments: map<nat, Payment>, gone: set<nat>, offered: multiset<RewardJob>) {
    forall o | o in offered :: Names(payments, gone, o.payment, o.referee)
  }

  /** What is bought and for how much never changes. */
  predicate SameOrder(row: Payment, after: Payment) {
    after.amount == row.amount && after.plan == row.plan && after.qty == row.qty
  }

  /** So what a handler read of it still holds. */
  ghost predicate ReadsStand(payments: map<nat, Payment>, flight: map<Key, Flight>) {
    forall k | k in flight && flight[k].Loaded? && k.0 in payments :: SameOrder(payments[k.0], flight[k].seen)
  }

  /** An activation job carries the plan of its payment and the quantity, one if the payment has none. */
  ghost predicate GrantsCarry(payments: map<nat, Payment>, granted: multiset<GrantJob>) {
    forall g | g in granted ::
      && g.payment in payments && g.plan == payments[g.payment].plan
      && g.qty == (if payments[g.payment].qty > 0 then payments[g.payment].qty else 1)
  }

  /** A reward job carries the amount of its payment. */
  ghost predicate OffersCarry(payments: map<nat, Payment>, offered: multiset<RewardJob>) {
    forall o | o in offered :: o.payment in payments && o.paid == payments[o.payment].amount > 0
  }

  ghost predicate Carried(s: Sys) {
    GrantsCarry(s.db.payments, s.granted) && OffersCarry(s.db.payments, s.offered)
  }

  /** Two slots are ordered under one plan, one under another, none under the rest. */
  predicate Orderly(row: Payment) {
    row.amount >= 0 && row.qty == if row.plan == Expansion2 then 2 else if row.plan == Expansion then 1 else 0
  }

  ghost predicate OrdersOk(payments: map<nat, Payment>) {
    forall p | p in payments :: Orderly(payments[p])
  }

  /** Until it is set a second time, one once-key covers one handler and one committed transaction. */
  ghost predicate OncePerKey(commits: multiset<Key>, flight: map<Key, Flight>, once: set<Key>, retaken: set<Key>) {
    forall k: Key :: k in retaken || commits[k] + (if k in flight then 1 else 0) <= if k in once then 1 else 0
  }

  ghost predicate OnlyKnownPayments(payments: map<nat, Payment>, commits: multiset<Key>, reversals: multiset<nat>) {
    && (forall k | k in commits :: k.0 in payments)
    && (forall p | p in reversals :: p in payments)
  }

  predicate Retaken(retaken: set<Key>, p: nat) {
    (p, CONFIRMED) in retaken
  }

  /** Every activation job stems from a committed confirmation, one per payment unless that was retaken. */
  ghost predicate OneGrantPerPayment(granted: multiset<GrantJob>, commits: multiset<Key>, retaken: set<Key>) {
    && (forall g | g in granted ::
          commits[(g.payment, CONFIRMED)] >= 1 && (Retaken(retaken, g.payment) || granted[g] == 1))
    && (forall g, h | g in granted && h in granted && g.payment == h.payment :: Retaken(retaken, g.payment) || g == h)
  }

  /** And so does every reward job. */
  ghost predicate OneOfferPerPayment(offered: multiset<RewardJob>, commits: multiset<Key>, retaken: set<Key>) {
    && (forall o | o in offered ::
          commits[(o.payment, CONFIRMED)] >= 1 && (Retaken(retaken, o.payment) || offered[o] == 1))
    && (forall o, q | o in offered && q in offered && o.payment == q.payment :: Retaken(retaken, o.payment) || o == q)
  }

  ghost predicate Addressed(s: Sys) {
    && s.gone !! s.db.users.Keys
    && JobsNamed(s.db.payments, s.gone, s.jobs) && FlightsNamed(s.db.payments, s.gone, s.flight)
    && GrantsNamed(s.db.payments, s.gone, s.granted) && OffersNamed(s.db.payments, s.gone, s.offered)
  }

  ghost predicate Counted(s: Sys) {
    && OncePerKey(s.commits, s.flight, s.once.Keys, s.retaken)
    && OnlyKnownPayments(s.db.payments, s.commits, s.reversals)
    && OneGrantPerPayment(s.granted, s.commits, s.retaken)
    && OneOfferPerPayment(s.offered, s.commits, s.retaken) && s.rewardJobs <= s.offered
  }

  ghost predicate JobsOk(s: Sys) {
    && Addressed(s) && Counted(s)
    && ReadsStand(s.db.payments, s.flight) && OrdersOk(s.db.payments)
  }

  // ----- The payments table only grows -------------------------------------------------------

  ghost predicate Kept(payments: map<nat, Payment>, after: map<nat, Payment>) {
    forall p | p in payments ::
      p in after && SameOrder(payments[p], after[p])
  }

  /** A payment changes hands only when its owner is merged away. */
  ghost predicate OwnersKept(payments: map<nat, Payment>, after: map<nat, Payment>, gone: set<nat>) {
    forall p | p in payments && p in after :: after[p].user == payments[p].user || payments[p].user in gone
  }

  ghost predicate NewOrdersOk(payments: map<nat, Payment>, after: map<nat, Payment>) {
    forall p | p in after && p !in payments :: Orderly(after[p])
  }

  predicate WritesPayments(tx: Tx) {
    || tx.Checkout? || tx.SlotCheckout? || tx.TouchPayment? || tx.ExpirePayments?
    || tx.MarkStatus? || tx.SettleEvent? || tx.MergeAccounts?
  }

  lemma OthersLeavePayments(s: Sys, tx: Tx, after: DB)
    requires Reads(s, tx) && Effect(s, tx) == Ok(after) && !WritesPayments(tx)
    ensures after.payments == s.db.payments
  {
    hide Grant, Buy, StartTrial, Credit, UsePromo, PayReward, Payout, BuySlots, GrantSlots;
    hide IsLatest, IsRewardOf, IsExpansionOf, CanMerge, Unbooked;
  }

  ghost predicate PaymentsStay(payments: map<nat, Payment>, after: map<nat, Payment>, gone: set<nat>) {
    Kept(payments, after) && NewOrdersOk(payments, after) && OwnersKept(payments, after, gone)
  }

  lemma StatusesStay(payments: map<nat, Payment>, p: nat, status: PaymentStatus, gone: set<nat>)
    ensures PaymentsStay(payments, SetStatus(payments, p, status), gone)
  {
  }

  lemma MovesStay(payments: map<nat, Payment>, src: nat, dst: nat, gone: set<nat>)
    requires src in gone
    ensures PaymentsStay(payments, MovePayments(payments, src, dst), gone)
  {
  }

  lemma SamePaymentsStay(payments: map<nat, Payment>, gone: set<nat>)
    ensures PaymentsStay(payments, payments, gone)
  {
  }

  /** New payments, and what the gateway and the clock do to old ones. */
  lemma CheckoutsStay(s: Sys, tx: Tx, after: DB)
    requires Reads(s, tx) && Effect(s, tx) == Ok(after)
    requires tx.Checkout? || tx.SlotCheckout? || tx.TouchPayment? || tx.ExpirePayments?
    ensures PaymentsStay(s.db.payments, after.payments, s.gone)
  {
  }

  lemma TransactionsKeepPayments(s: Sys, tx: Tx, after: DB)
    requires Reads(s, tx) && Effect(s, tx) == Ok(after)
    ensures Kept(s.db.payments, after.payments) && NewOrdersOk(s.db.payments, after.payments)
    ensures OwnersKept(s.db.payments, after.payments, GoneAfter(s, tx))
  {
    hide Kept, NewOrdersOk, OwnersKept, Settle, SetStatus, MovePayments, IsLatest, IsRewardOf, CanMerge;
    var payments := s.db.payments;
    assert PaymentsStay(payments, after.payments, GoneAfter(s, tx)) by {
      if tx.SettleEvent? {
        StatusesStay(payments, tx.key.0, tx.key.1, s.gone);
      } else if tx.MarkStatus? {
        StatusesStay(payments, tx.p, tx.status, s.gone);
      } else if tx.MergeAccounts? {
        MovesStay(payments, tx.src, tx.dst, s.gone + {tx.src});
      } else if WritesPayments(tx) {
        CheckoutsStay(s, tx, after);
      } else {
        OthersLeavePayments(s, tx, after);
        SamePaymentsStay(payments, s.gone);
      }
    }
  }

  lemma TransactionsKeepUsers(s: Sys, tx: Tx, after: DB)
    requires Reads(s, tx) && Effect(s, tx) == Ok(after)
    ensures match tx
            case Register(u, _) => after.users.Keys == s.db.users.Keys + {u}
            case MergeAccounts(src, dst) => after.users.Keys == s.db.users.Keys - {src}
            case _ => after.users.Keys == s.db.users.Keys
  {
    hide Settle, Grant, Buy, StartTrial, Credit, UsePromo, PayReward, Payout, BuySlots, GrantSlots;
    hide IsLatest, IsRewardOf, IsExpansionOf, Unbooked;
    if tx.MergeAccounts? {
      MergedUsersForgetSource(s.db.users, tx.src, tx.dst);
    }
  }

  // ----- Every step keeps the queue in order ----------------------------------------------------

  /** What a job names, it still names after any committed transaction. */
  lemma NamesSurvive(payments: map<nat, Payment>, gone: set<nat>, after: map<nat, Payment>, gone': set<nat>)
    requires Kept(payments, after) && OwnersKept(payments, after, gone') && gone <= gone'
    ensures forall p, u | Names(payments, gone, p, u) :: Names(after, gone', p, u)
  {
  }

  lemma SentJobsAreNamed(s: Sys, tx: Tx, after: DB)
    requires Addressed(s) && Reads(s, tx) && Effect(s, tx) == Ok(after)
    requires forall p, u | Names(s.db.payments, s.gone, p, u) :: Names(after.payments, GoneAfter(s, tx), p, u)
    ensures JobsNamed(after.payments, GoneAfter(s, tx), s.jobs + JobsSent(s, tx))
  {
    hide FlightsNamed, GrantsNamed, OffersNamed, IsLatest, IsRewardOf, IsExpansionOf, CanMerge, Unbooked;
  }

  lemma EnqueuedJobsAreNamed(s: Sys, tx: Tx, payments: map<nat, Payment>, gone: set<nat>)
    requires Addressed(s)
    requires forall p, u | Names(s.db.payments, s.gone, p, u) :: Names(payments, gone, p, u)
    ensures GrantsNamed(payments, gone, s.granted + Granted(s, tx))
    ensures OffersNamed(payments, gone, s.offered + Offered(s, tx))
  {
    assert forall k | k in s.flight :: Names(s.db.payments, s.gone, k.0, s.flight[k].user);
  }

  lemma FlightsStayNamed(payments: map<nat, Payment>, gone: set<nat>, flight: map<Key, Flight>,
          after: map<nat, Payment>, gone': set<nat>, keys: set<Key>)
    requires FlightsNamed(payments, gone, flight)
    requires forall p, u | Names(payments, gone, p, u) :: Names(after, gone', p, u)
    ensures FlightsNamed(after, gone', flight - keys)
  {
    assert forall k | k in flight :: Names(payments, gone, k.0, flight[k].user);
  }

  lemma CommitKeepsAddressed(s: Sys, tx: Tx)
    requires Addressed(s) && Enabled(s, Commit(tx))
    ensures Addressed(Next(s, Commit(tx)))
  {
    hide Kept, OwnersKept, Names, JobsNamed, FlightsNamed, GrantsNamed, OffersNamed, Constraints, Effect;
    var t := Next(s, Commit(tx));
    TransactionsKeepPayments(s, tx, t.db);
    TransactionsKeepUsers(s, tx, t.db);
    NamesSurvive(s.db.payments, s.gone, t.db.payments, t.gone);
    SentJobsAreNamed(s, tx, t.db);
    EnqueuedJobsAreNamed(s, tx, t.db.payments, t.gone);
    FlightsStayNamed(s.db.payments, s.gone, s.flight, t.db.payments, t.gone, if tx.SettleEvent? then {tx.key} else {});
    assert t.flight == s.flight - if tx.SettleEvent? then {tx.key} else {};
  }

  lemma CommitKeepsReads(s: Sys, tx: Tx)
    requires FlightsNamed(s.db.payments, s.gone, s.flight) && ReadsStand(s.db.payments, s.flight)
        && OrdersOk(s.db.payments)
    requires Enabled(s, Commit(tx))
    ensures var t := Next(s, Commit(tx)); ReadsStand(t.db.payments, t.flight) && OrdersOk(t.db.payments)
  {
    hide Constraints, Reads, Effect;
    TransactionsKeepPayments(s, tx, Next(s, Commit(tx)).db);
  }

  lemma OneMoreCommit(commits: multiset<Key>, flight: map<Key, Flight>, once: set<Key>, retaken: set<Key>, key: Key)
    requires OncePerKey(commits, flight, once, retaken) && key in flight
    ensures key in retaken || commits[key] == 0
    ensures OncePerKey(commits + multiset{key}, flight - {key}, once, retaken)
  {
  }

  /** A confirmation that commits now has not committed before, so its jobs are the payment's first. */
  lemma OneMoreGrant(granted: multiset<GrantJob>, commits: multiset<Key>, retaken: set<Key>, key: Key,
          more: multiset<GrantJob>)
    requires OneGrantPerPayment(granted, commits, retaken) && (key in retaken || commits[key] == 0)
    requires more == multiset{}
             || (key.1 == CONFIRMED && exists g: GrantJob :: g.payment == key.0 && more == multiset{g})
    ensures OneGrantPerPayment(granted + more, commits + multiset{key}, retaken)
  {
  }

  lemma OneMoreOffer(offered: multiset<RewardJob>, commits: multiset<Key>, retaken: set<Key>, key: Key,
          more: multiset<RewardJob>)
    requires OneOfferPerPayment(offered, commits, retaken) && (key in retaken || commits[key] == 0)
    requires more == multiset{}
             || (key.1 == CONFIRMED && exists o: RewardJob :: o.payment == key.0 && more == multiset{o})
    ensures OneOfferPerPayment(offered + more, commits + multiset{key}, retaken)
  {
  }

  lemma KnownStaysKnown(payments: map<nat, Payment>, after: map<nat, Payment>, commits: multiset<Key>,
          reversals: multiset<nat>, key: Key)
    requires OnlyKnownPayments(payments, commits, reversals) && Kept(payments, after)
    ensures OnlyKnownPayments(after, commits, reversals)
    ensures key.0 in payments ==> OnlyKnownPayments(after, commits + multiset{key}, reversals + multiset{key.0})
    ensures key.0 in payments ==> OnlyKnownPayments(after, commits + multiset{key}, reversals)
  {
  }

  lemma CommitKeepsKnown(s: Sys, tx: Tx)
    requires Addressed(s) && Counted(s) && Enabled(s, Commit(tx))
    ensures var t := Next(s, Commit(tx)); OnlyKnownPayments(t.db.payments, t.commits, t.reversals)
  {
    var t := Next(s, Commit(tx));
    TransactionsKeepPayments(s, tx, t.db);
    if tx.SettleEvent? {
      assert Names(s.db.payments, s.gone, tx.key.0, s.flight[tx.key].user);
      KnownStaysKnown(s.db.payments, t.db.payments, s.commits, s.reversals, tx.key);
    }
  }

  lemma SettleKeepsCounts(s: Sys, tx: Tx)
    requires Addressed(s) && Counted(s) && Enabled(s, Commit(tx)) && tx.SettleEvent?
    ensures Counted(Next(s, Commit(tx)))
  {
    var t := Next(s, Commit(tx));
    OneMoreCommit(s.commits, s.flight, s.once.Keys, s.retaken, tx.key);
    OneMoreGrant(s.granted, s.commits, s.retaken, tx.key, Granted(s, tx));
    OneMoreOffer(s.offered, s.commits, s.retaken, tx.key, Offered(s, tx));
    CommitKeepsKnown(s, tx);
  }

  lemma OthersLeaveCounts(s: Sys, tx: Tx)
    requires Enabled(s, Commit(tx)) && !tx.SettleEvent?
    ensures var t := Next(s, Commit(tx));
            && t.commits == s.commits && t.flight == s.flight && t.once == s.once && t.retaken == s.retaken
            && t.granted == s.granted && t.offered == s.offered && t.rewardJobs <= s.rewardJobs
  {
  }

  lemma OthersKeepCounts(s: Sys, tx: Tx)
    requires Addressed(s) && Counted(s) && Enabled(s, Commit(tx)) && !tx.SettleEvent?
    ensures Counted(Next(s, Commit(tx)))
  {
    CommitKeepsKnown(s, tx);
    OthersLeaveCounts(s, tx);
  }

  lemma WebhookKeepsJobs(s: Sys, step: Step)
    requires JobsOk(s) && Enabled(s, step) && step.Webhook?
    ensures JobsOk(Next(s, step))
  {
  }

  lemma TakingKeepsOnce(commits: multiset<Key>, flight: map<Key, Flight>, once: set<Key>, retaken: set<Key>, key: Key,
          taken: Flight)
    requires OncePerKey(commits, flight, once, retaken)
    ensures OncePerKey(commits, flight[key := taken], once + {key}, if key in once then retaken + {key} else retaken)
  {
    assert key in retaken || commits[key] + (if key in flight then 1 else 0) <= if key in once then 1 else 0;
  }

  /** Once-keys retaken only loosen the counts of jobs. */
  lemma RetakingKeepsCounts(s: Sys, more: set<Key>)
    requires OneGrantPerPayment(s.granted, s.commits, s.retaken) && OneOfferPerPayment(s.offered, s.commits, s.retaken)
    ensures OneGrantPerPayment(s.granted, s.commits, s.retaken + more)
    ensures OneOfferPerPayment(s.offered, s.commits, s.retaken + more)
  {
  }

  lemma TakingKeepsNames(payments: map<nat, Payment>, gone: set<nat>, jobs: multiset<Job>, flight: map<Key, Flight>,
          job: Job)
    requires JobsNamed(payments, gone, jobs) && FlightsNamed(payments, gone, flight) && ReadsStand(payments, flight)
        && job in jobs
    ensures var after := flight[(job.payment, job.event) := Taken(job.user)];
            JobsNamed(payments, gone, jobs - multiset{job}) && FlightsNamed(payments, gone, after)
                && ReadsStand(payments, after)
  {
  }

  lemma TakeKeepsAddressed(s: Sys, job: Job)
    requires Addressed(s) && ReadsStand(s.db.payments, s.flight) && Enabled(s, Take(job))
    ensures var t := Next(s, Take(job)); Addressed(t) && ReadsStand(t.db.payments, t.flight)
  {
    hide JobsNamed, FlightsNamed, GrantsNamed, OffersNamed, ReadsStand;
    TakingKeepsNames(s.db.payments, s.gone, s.jobs, s.flight, job);
  }

  lemma TakeKeepsCounted(s: Sys, job: Job)
    requires Counted(s) && Enabled(s, Take(job))
    ensures Counted(Next(s, Take(job)))
  {
    hide OncePerKey, OnlyKnownPayments, OneGrantPerPayment, OneOfferPerPayment;
    var key := (job.payment, job.event);
    if !Held(s, key) {
      TakingKeepsOnce(s.commits, s.flight, s.once.Keys, s.retaken, key, Taken(job.user));
      RetakingKeepsCounts(s, {key});
      assert Next(s, Take(job)).once.Keys == s.once.Keys + {key};
    }
  }

  lemma TakeKeepsJobs(s: Sys, step: Step)
    requires JobsOk(s) && Enabled(s, step) && step.Take?
    ensures JobsOk(Next(s, step))
  {
    hide Addressed, Counted, ReadsStand;
    TakeKeepsAddressed(s, step.job);
    TakeKeepsCounted(s, step.job);
  }

  lemma LoadKeepsJobs(s: Sys, step: Step)
    requires JobsOk(s) && Enabled(s, step) && step.Load?
    ensures JobsOk(Next(s, step))
  {
    var t := Next(s, step);
    assert t.db == s.db && t.gone == s.gone && t.commits == s.commits && t.jobs == s.jobs;
  }

  lemma GivingUpKeepsJobs(s: Sys, step: Step)
    requires JobsOk(s) && Enabled(s, step) && step.GiveUp?
    ensures JobsOk(Next(s, step))
  {
    var t := Next(s, step);
    assert Names(s.db.payments, s.gone, step.key.0, s.flight[step.key].user);
    assert t.db == s.db && t.gone == s.gone && t.commits == s.commits && t.granted == s.granted
        && t.offered == s.offered;
  }

  lemma SkippingKeepsJobs(s: Sys, step: Step)
    requires JobsOk(s) && Enabled(s, step) && step.SkipReward?
    ensures JobsOk(Next(s, step))
  {
  }

  lemma CommitKeepsJobs(s: Sys, tx: Tx)
    requires JobsOk(s) && Enabled(s, Commit(tx))
    ensures JobsOk(Next(s, Commit(tx)))
  {
    hide Enabled, Next, OncePerKey, OnlyKnownPayments, OneGrantPerPayment, OneOfferPerPayment;
    CommitKeepsAddressed(s, tx);
    CommitKeepsReads(s, tx);
    if tx.SettleEvent? {
      SettleKeepsCounts(s, tx);
    } else {
      OthersKeepCounts(s, tx);
    }
  }

  lemma StepKeepsJobs(s: Sys, step: Step)
    requires JobsOk(s) && Enabled(s, step)
    ensures JobsOk(Next(s, step))
  {
    hide Enabled, Next, JobsOk;
    match step {
      case Commit(tx) => CommitKeepsJobs(s, tx);
      case Webhook(_, _, _) => WebhookKeepsJobs(s, step);
      case Take(_) => TakeKeepsJobs(s, step);
      case Load(_) => LoadKeepsJobs(s, step);
      case GiveUp(_, _) => GivingUpKeepsJobs(s, step);
      case SkipReward(_) => SkippingKeepsJobs(s, step);
    }
  }

  // ----- What the jobs carry -----------------------------------------------------------------------

  lemma OrdersStillCarried(payments: map<nat, Payment>, after: map<nat, Payment>, granted: multiset<GrantJob>,
          offered: multiset<RewardJob>)
    requires Kept(payments, after) && GrantsCarry(payments, granted) && OffersCarry(payments, offered)
    ensures GrantsCarry(after, granted) && OffersCarry(after, offered)
  {
  }

  lemma SettlementCarries(s: Sys, tx: Tx)
    requires FlightsNamed(s.db.payments, s.gone, s.flight) && ReadsStand(s.db.payments, s.flight)
    requires tx.SettleEvent? ==> tx.key in s.flight && s.flight[tx.key].Loaded?
    ensures GrantsCarry(s.db.payments, Granted(s, tx)) && OffersCarry(s.db.payments, Offered(s, tx))
  {
    if tx.SettleEvent? {
      assert Names(s.db.payments, s.gone, tx.key.0, s.flight[tx.key].user);
    }
  }

  lemma MoreIsCarried(payments: map<nat, Payment>, granted: multiset<GrantJob>, offered: multiset<RewardJob>,
          grants: multiset<GrantJob>, offers: multiset<RewardJob>)
    requires GrantsCarry(payments, granted) && OffersCarry(payments, offered)
    requires GrantsCarry(payments, grants) && OffersCarry(payments, offers)
    ensures GrantsCarry(payments, granted + grants) && OffersCarry(payments, offered + offers)
  {
  }

  lemma CommitKeepsCarried(s: Sys, tx: Tx)
    requires Carried(s) && FlightsNamed(s.db.payments, s.gone, s.flight) && ReadsStand(s.db.payments, s.flight)
    requires Enabled(s, Commit(tx))
    ensures Carried(Next(s, Commit(tx)))
  {
    var t := Next(s, Commit(tx));
    SettlementCarries(s, tx);
    TransactionsKeepPayments(s, tx, t.db);
    hide GrantsCarry, OffersCarry, Kept, Constraints, Reads, Effect, Granted, Offered;
    OrdersStillCarried(s.db.payments, t.db.payments, s.granted, s.offered);
    OrdersStillCarried(s.db.payments, t.db.payments, Granted(s, tx), Offered(s, tx));
    MoreIsCarried(t.db.payments, s.granted, s.offered, Granted(s, tx), Offered(s, tx));
  }

  lemma StepKeepsCarried(s: Sys, step: Step)
    requires Carried(s) && JobsOk(s) && Enabled(s, step)
    ensures Carried(Next(s, step))
  {
    hide GrantsCarry, OffersCarry;
    if step.Commit? {
      CommitKeepsCarried(s, step.tx);
    }
  }

  /** What OncePerKey says of the event a step settles: unless its key was retaken, it has never committed before. */
  ghost predicate FirstCommit(s: Sys, step: Step) {
    step.Commit? && step.tx.SettleEvent? && step.tx.key !in s.retaken ==> s.commits[step.tx.key] == 0
  }

  lemma SettledKeysAreNew(s: Sys, step: Step)
    requires OncePerKey(s.commits, s.flight, s.once.Keys, s.retaken) && Enabled(s, step)
    ensures FirstCommit(s, step)
  {
  }
}
