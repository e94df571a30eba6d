/** The handlers against the state machine: what a handler leaves behind is a few steps of the machine, or nothing. */
module Refinement {
  import opened Prelude
  import opened Domain
  import opened Tables
  import opened System
  import opened Purchases
  import W = Worker
  import S = Service
  import G = Gateway

  // ----- Purchases and activations ------------------------------------------------------------

  /** A purchase attempt that reports success is exactly one BuyPlan step; one that fails is none. */
  lemma PurchaseIsOneStepOrNone(s: Sys, round: Round, left: DB, r: Result<int>, u: nat, plan: Plan,
          target: Option<nat>, id: nat, at: int)
    requires Legal(round) && s.db == round.state && at <= s.db.now && IsLatest(s.db.subs, u, target)
        && Constraints(left)
    requires Attempted(round, T.Buy(s.db, u, plan, target, id, at), left, r, RowOf(target, id))
    ensures var step := Commit(BuyPlan(u, plan, target, id, at));
            if r.Ok? then Enabled(s, step) && Next(s, step).db == left else left == s.db
  {
  }

  /** And an activation attempt, of the worker or of an admin, is one Assign step or none. */
  lemma ActivationIsOneStepOrNone(s: Sys, round: Round, left: DB, r: Result<int>, u: nat, plan: Plan,
          target: Option<nat>, id: nat, at: int)
    requires Legal(round) && s.db == round.state && at <= s.db.now && IsLatest(s.db.subs, u, target)
        && Constraints(left)
    requires Attempted(round, T.Grant(s.db, u, plan, target, id, at), left, r, RowOf(target, id))
    ensures var step := Commit(Assign(u, plan, target, id, at));
            if r.Ok? then Enabled(s, step) && Next(s, step).db == left else left == s.db
  {
  }

  /** A transaction that PostgreSQL accepts is a step. */
  lemma AcceptedIsAStep(s: Sys, tx: Tx, left: DB)
    requires Constraints(s.db) && Reads(s, tx) && Effect(s, tx) == Ok(left) && Constraints(left)
    ensures Enabled(s, Commit(tx)) && Next(s, Commit(tx)).db == left
  {
    hide Constraints, Reads, Effect;
  }

  // ----- The payment handler ----------------------------------------------------------------------

  /** A reversal with something to undo fails for a user who is not there. */
  lemma UndoingNeedsTheUser(db: DB, p: nat, u: nat, event: PaymentStatus, seen: Payment, target: Option<nat>,
          reward: Option<nat>)
    requires target.Some? ==> target.value in db.subs
    requires reward.Some? ==> reward.value in db.rewards && db.rewards[reward.value].referrer in db.users
    requires T.Settle(db, p, u, event, seen, target, reward).Ok? && W.Undoes(event, seen)
    ensures u in db.users
  {
  }

  lemma FoundRowsExist(db: DB, p: nat, u: nat, event: PaymentStatus, seen: Payment, findable: bool, target: Option<nat>,
          reward: Option<nat>)
    requires Constraints(db) && W.LookedUp(db, p, u, event, seen, findable, target, reward)
    ensures target.Some? ==> target.value in db.subs
    ensures reward.Some? ==> reward.value in db.rewards && db.rewards[reward.value].referrer in db.users
  {
  }

  /** The jobs the handler sends are the ones the step enqueues. */
  lemma SettlementSendsTheJobs(m: Sys, tx: Tx)
    requires tx.SettleEvent? && tx.key in m.flight && m.flight[tx.key].Loaded?
    ensures var u, seen := m.flight[tx.key].user, m.flight[tx.key].seen;
            && Granted(m, tx) == multiset(if tx.sentGrant then W.GrantsFor(tx.key.0, u, tx.key.1, seen) else [])
            && Offered(m, tx) == multiset(if tx.sentReward then W.OffersFor(tx.key.0, u, tx.key.1, seen) else [])
  {
  }

  /** What the handler looked up is what the step reads. */
  lemma LookedUpIsRead(m: Sys, tx: Tx, findable: bool)
    requires tx.SettleEvent? && tx.key in m.flight && m.flight[tx.key].Loaded? && Constraints(m.db)
    requires var u, seen := m.flight[tx.key].user, m.flight[tx.key].seen;
             && W.LookedUp(m.db, tx.key.0, u, tx.key.1, seen, findable, tx.target, tx.reward)
             && (tx.target.Some? ==> tx.target.value in m.db.subs)
             && (tx.reward.Some? ==>
                   tx.reward.value in m.db.rewards && m.db.rewards[tx.reward.value].referrer in m.db.users)
             && T.Settle(m.db, tx.key.0, u, tx.key.1, seen, tx.target, tx.reward).Ok?
    ensures var u, seen := m.flight[tx.key].user, m.flight[tx.key].seen;
            && Reads(m, tx)
            && Effect(m, tx) == T.Settle(m.db, tx.key.0, u, tx.key.1, seen, tx.target, tx.reward)
  {
    hide Constraints, T.Settle, IsLatest, IsRewardOf;
    var u, seen := m.flight[tx.key].user, m.flight[tx.key].seen;
    if W.Undoes(tx.key.1, seen) {
      UndoingNeedsTheUser(m.db, tx.key.0, u, tx.key.1, seen, tx.target, tx.reward);
    }
  }

  /** On whatever database the others left by then, it is one Commit(SettleEvent) with its jobs, or nothing. */
  lemma SettlementIsOneStepOrNone(m: Sys, key: Key, o: W.Outside, left: DB, r: Result<bool>, target: Option<nat>,
          reward: Option<nat>)
    requires key in m.flight && m.flight[key].Loaded? && Constraints(m.db) && Constraints(left)
    requires var u, seen := m.flight[key].user, m.flight[key].seen;
             && W.LookedUp(m.db, key.0, u, key.1, seen, o.findable, target, reward)
             && W.Processed(m.db, T.Settle(m.db, key.0, u, key.1, seen, target, reward), o.fault, left, r,
                            r == Ok(true))
    ensures var u, seen := m.flight[key].user, m.flight[key].seen;
            var tx := SettleEvent(key, target, reward, o.sentGrant, o.sentReward);
            if r.Ok? then
              && Enabled(m, Commit(tx)) && Next(m, Commit(tx)).db == left
              && Granted(m, tx) == multiset(if o.sentGrant then W.GrantsFor(key.0, u, key.1, seen) else [])
              && Offered(m, tx) == multiset(if o.sentReward then W.OffersFor(key.0, u, key.1, seen) else [])
            else left == m.db
  {
    hide Constraints, T.Settle, Granted, Offered, Enabled, Next, Reads, Effect;
    var u, seen := m.flight[key].user, m.flight[key].seen;
    var tx := SettleEvent(key, target, reward, o.sentGrant, o.sentReward);
    FoundRowsExist(m.db, key.0, u, key.1, seen, o.findable, target, reward);
    if r.Ok? {
      LookedUpIsRead(m, tx, o.findable);
      AcceptedIsAStep(m, tx, left);
      SettlementSendsTheJobs(m, tx);
    }
  }

  lemma TakingIsEnsuring(s: Sys, job: Job, isNew: bool, after: map<Key, int>)
    requires job in s.jobs && W.Ensured(s.once, s.db.now, (job.payment, job.event), isNew, after)
    requires isNew ==> (job.payment, job.event) !in s.flight
    ensures var key := (job.payment, job.event);
            && Enabled(s, Take(job)) && (isNew <==> !Held(s, key))
            && var taken := Next(s, Take(job));
               && taken.once == after && taken.db == s.db
               && (if isNew then key in taken.flight && taken.flight[key] == Taken(job.user)
                   else taken == s.(jobs := s.jobs - multiset{job}))
  {
    hide Constraints, Reads, Effect, Accepted, Committed;
  }

  lemma ReadingIsLoading(taken: Sys, key: Key)
    requires key in taken.flight && taken.flight[key].Taken?
    ensures Enabled(taken, GiveUp(key, true)) && Next(taken, GiveUp(key, true)).db == taken.db
    ensures key.0 in taken.db.payments ==>
              && Enabled(taken, Load(key))
              && var loaded := Next(taken, Load(key));
                 loaded.db == taken.db && key in loaded.flight
                 && loaded.flight[key] == Loaded(taken.flight[key].user, taken.db.payments[key.0])
  {
  }

  /**
   One delivery of the payment handler, by its own contract, is a few steps of the machine:
   EnsureOnce is Take; a held key ends there; an unknown payment gives up; otherwise the row
   is read by Load, and from any state `m` that the others have reached by then the
   transaction is one Commit(SettleEvent) with the jobs it sends, or the handler gives up.
   */
  lemma DeliveryIsItsSteps(s: Sys, m: Sys, job: Job, o: W.Outside, r: Result<bool>, target: Option<nat>,
          reward: Option<nat>, after: map<Key, int>, left: DB, grants: seq<GrantJob>, offers: seq<RewardJob>)
    requires Constraints(m.db) && Constraints(left)
    requires W.Handled(s.once, s.db, job, m.db, o, r, target, reward, after, left, grants, offers)
    requires job in s.jobs && (Held(s, (job.payment, job.event)) || (job.payment, job.event) !in s.flight)
    requires !Held(s, (job.payment, job.event)) && job.payment in s.db.payments ==>
               && (job.payment, job.event) in m.flight
               && m.flight[(job.payment, job.event)] == Loaded(job.user, s.db.payments[job.payment])
    ensures Enabled(s, Take(job)) && Next(s, Take(job)).once == after && Next(s, Take(job)).db == s.db
    ensures var key, taken := (job.payment, job.event), Next(s, Take(job));
            if r == Ok(false) then
              taken == s.(jobs := s.jobs - multiset{job}) && left == s.db && grants == [] && offers == []
            else if job.payment !in s.db.payments then
              && Enabled(taken, GiveUp(key, true)) && Next(taken, GiveUp(key, true)).db == left
              && grants == [] && offers == []
            else
              && Enabled(taken, Load(key)) && key in Next(taken, Load(key)).flight
              && Next(taken, Load(key)).flight[key] == m.flight[key]
              && var tx := SettleEvent(key, target, reward, o.sentGrant, o.sentReward);
                 if r.Ok? then
                   && Enabled(m, Commit(tx)) && Next(m, Commit(tx)).db == left
                   && Granted(m, tx) == multiset(grants) && Offered(m, tx) == multiset(offers)
                 else left == m.db && Enabled(m, GiveUp(key, true)) && grants == [] && offers == []
  {
    hide Constraints, Next, W.LookedUp, T.Settle, Granted, Offered;
    var key := (job.payment, job.event);
    TakingIsEnsuring(s, job, r != Ok(false), after);
    if r != Ok(false) {
      ReadingIsLoading(Next(s, Take(job)), key);
      if job.payment in s.db.payments {
        SettlementIsOneStepOrNone(m, key, o, left, r, target, reward);
      }
    }
  }

  // ----- The other handlers ---------------------------------------------------------------------------

  lemma MarkingIsOneStep(m: Sys, p: nat, status: PaymentStatus, u: nat, reachable: bool, left: DB)
    requires Constraints(m.db) && Constraints(left) && status != PENDING
    requires p in m.db.payments && (m.db.payments[p].user == u || u in m.gone)
    requires left == m.db.(payments := SetStatus(m.db.payments, p, status))
    ensures var tx := MarkStatus(p, status, u, reachable);
            && Enabled(m, Commit(tx)) && Next(m, Commit(tx)).db == left
            && JobsSent(m, tx)
               == if status == CONFIRMED && reachable then multiset{Job(p, u, CONFIRMED)} else multiset{}
  {
    hide Constraints, SetStatus;
  }

  lemma EnqueueingIsOneStep(m: Sys, p: nat, u: nat)
    requires Constraints(m.db) && p in m.db.payments && (m.db.payments[p].user == u || u in m.gone)
    ensures var tx := EnqueueOnly(p, u);
            && Enabled(m, Commit(tx)) && Next(m, Commit(tx)).db == m.db
            && JobsSent(m, tx) == multiset{Job(p, u, CONFIRMED)}
  {
    hide Constraints;
  }

  /** What a status check does is one MarkStatus step with its job; if the write failed, the job alone, or nothing. */
  lemma CheckIsOneStep(m: Sys, p: nat, u: nat, row: Payment, now: int, answer: Option<PaymentStatus>, written: bool,
          reachable: bool, left: DB)
    requires Constraints(m.db) && p in m.db.payments && (m.db.payments[p].user == u || u in m.gone)
    requires G.ToWrite(row, now, answer).Some? && Constraints(left)
    requires left == if written then m.db.(payments := SetStatus(m.db.payments, p, G.ToWrite(row, now, answer).value))
                     else m.db
    ensures var status := G.ToWrite(row, now, answer).value;
            var jobs := if status == CONFIRMED && reachable then multiset{Job(p, u, CONFIRMED)} else multiset{};
            var tx := if written then MarkStatus(p, status, u, reachable) else EnqueueOnly(p, u);
            if written || jobs != multiset{} then
              Enabled(m, Commit(tx)) && Next(m, Commit(tx)).db == left && JobsSent(m, tx) == jobs
            else left == m.db
  {
    hide Constraints, SetStatus, Enabled, Next, JobsSent;
    var status := G.ToWrite(row, now, answer).value;
    if written {
      MarkingIsOneStep(m, p, status, u, reachable, left);
    } else if status == CONFIRMED && reachable {
      EnqueueingIsOneStep(m, p, u);
    }
  }

  /** A reward transaction with the referrer as it was read is one RewardReferral step, or nothing. */
  lemma RewardIsOneStepOrNone(m: Sys, job: RewardJob, w: nat, referral: nat, referrer: nat, risk: int, fault: bool,
          left: DB, r: Result<nat>)
    requires Constraints(m.db) && Constraints(left) && RewardYAD(job.paid, risk) > 0
    requires Reads(m, RewardReferral(job, w, referral, referrer, risk))
    requires var yad := RewardYAD(job.paid, risk);
             S.Credited(m.db, T.PayReward(m.db, w, referral, referrer, job.payment, job.paid, yad), fault, yad, left, r)
    ensures var step := Commit(RewardReferral(job, w, referral, referrer, risk));
            if r.Ok? then Enabled(m, step) && Next(m, step).db == left else left == m.db
  {
    hide Constraints, T.PayReward, Reads, Enabled, Next, RewardYAD;
    if r.Ok? {
      AcceptedIsAStep(m, RewardReferral(job, w, referral, referrer, risk), left);
    }
  }
}
