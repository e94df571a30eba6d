/** The queue handlers of the worker, statement by statement, against the transactions they amount to. */
module Worker {
  import opened Prelude
  import opened Domain
  import opened Tables
  import opened Database
  import opened System
  import T = Transactions

  /** What processing an event leaves: the transaction and the jobs, or the database it met and no job. */
  ghost predicate Processed(
      before: DB, effect: Result<DB>, fault: bool, left: DB, r: Result<bool>, jobs: bool)
  {
    match effect
    case Err(e) => r == Err(e) && left == before && !jobs
    case Ok(after) =>
      if fault then r == Err(Serialization) && left == before && !jobs else r == Ok(true) && left == after && jobs
  }

  /**
   What the handler found out under its locks: the latest row, and the reward, where the
   reversal needs them. A reward that cannot be looked up (`findable` is false) is skipped.
   */
  ghost predicate LookedUp(before: DB, p: nat, u: nat, event: PaymentStatus, seen: Payment, findable: bool,
          target: Option<nat>, reward: Option<nat>) {
    && (target.Some? ==> IsLatest(before.subs, u, target))
    && (reward.Some? ==> IsRewardOf(before.rewards, p, reward))
    && (u in before.users && Undoes(event, seen) ==>
          && (if findable then IsRewardOf(before.rewards, p, reward) else reward.None?)
          && (IsExpansionPlan(seen.plan) || IsLatest(before.subs, u, target)))
  }

  /**
   What the outside decides during one delivery: whether the reward can be looked up,
   whether PostgreSQL refuses the commit, and whether Redis takes the two jobs, whose loss
   is only logged.
   */
  datatype Outside = Outside(findable: bool, fault: bool, sentGrant: bool, sentReward: bool)

  /** SET NX with a TTL of 48 hours: the key is new unless it is held. */
  ghost predicate Ensured(once: map<Key, int>, now: int, key: Key, isNew: bool, after: map<Key, int>) {
    && (isNew <==> !(key in once && now < once[key]))
    && after == if isNew then once[key := now + ONCE_TTL] else once
  }

  /**
   One delivery, from the database `start` on which it is looked at: a held key does
   nothing, an unknown payment is an error, and otherwise one transaction, Settle with the
   row as it was read, commits or does not on the database `between` that the others have
   left by then, and the jobs go out only after a committed confirmation.
   */
  ghost predicate Handled(
      once: map<Key, int>, start: DB, job: Job, between: DB, o: Outside, r: Result<bool>, target: Option<nat>,
      reward: Option<nat>, after: map<Key, int>, left: DB, grants: seq<GrantJob>, offers: seq<RewardJob>)
    requires Constraints(between)
  {
    && Ensured(once, start.now, (job.payment, job.event), r != Ok(false), after)
    && if r == Ok(false) then left == start && grants == [] && offers == []
       else if job.payment !in start.payments then r == Err(NotFound) && left == start && grants == [] && offers == []
       else
         var p, u, seen := job.payment, job.user, start.payments[job.payment];
         && LookedUp(between, p, u, job.event, seen, o.findable, target, reward)
         && Processed(between, T.Settle(between, p, u, job.event, seen, target, reward), o.fault, left, r,
                      r == Ok(true))
         && grants == (if r == Ok(true) && o.sentGrant then GrantsFor(p, u, job.event, seen) else [])
         && offers == (if r == Ok(true) && o.sentReward then OffersFor(p, u, job.event, seen) else [])
  }

  lemma OneRewardPerPayment(db: DB, p: nat, reward: Option<nat>)
    requires Constraints(db) && IsRewardOf(db.rewards, p, reward)
    ensures forall w | w in db.rewards && db.rewards[w].payment == p :: reward == Some(w)
    ensures forall w | w in db.rewards :: db.rewards[w].referrer in db.users
  {
    hide UsersOk, PaymentsOk, SubsOk, PromosOk, UsesOk;
  }

  class Consumer {
    const repo: Repo
    /** Redis: the deadlines of the once-keys, and the queues this worker feeds. */
    var once: map<Key, int>
    var grants: seq<GrantJob>
    var offers: seq<RewardJob>

    constructor (repo: Repo)
      ensures this.repo == repo && once == map[] && grants == [] && offers == []
    {
      this.repo := repo;
      once, grants, offers := map[], [], [];
    }

    /** EnsureOnce: SET NX with a TTL of 48 hours. */
    method EnsureOnce(key: Key) returns (isNew: bool)
      modifies this
      ensures Ensured(old(once), repo.now, key, isNew, once)
      ensures grants == old(grants) && offers == old(offers)
    {
      isNew := !(key in once && repo.now < once[key]);
      if isNew {
        once := once[key := repo.now + ONCE_TTL];
      }
    }

    /** The payment queue's handler. */
    method HandlePaymentProcess(job: Job, between: DB, o: Outside)
      returns (r: Result<bool>, target: Option<nat>, reward: Option<nat>)
      requires repo.Valid() && Constraints(between)
      modifies this, repo
      ensures repo.Valid() && old(grants) <= grants && old(offers) <= offers
      ensures Handled(old(once), old(repo.Snapshot()), job, between, o, r, target, reward,
                      once, repo.Snapshot(), grants[|old(grants)|..], offers[|old(offers)|..])
    {
      target, reward := None, None;
      var isNew := EnsureOnce((job.payment, job.event));
      if !isNew {
        return Ok(false), None, None;
      }
      if job.payment !in repo.payments {
        return Err(NotFound), None, None;
      }
      var seen := repo.payments[job.payment];
      // The plan CHECK on payments keeps the refused plans out of the table.
      assert IsPaidPlan(seen.plan);
      repo.Restore(between);
      r, target, reward := Dispatch(job.payment, job.user, job.event, seen, o);
    }

    /** The switch over the event, on the database the transaction meets. */
    method Dispatch(p: nat, u: nat, event: PaymentStatus, seen: Payment, o: Outside)
      returns (r: Result<bool>, target: Option<nat>, reward: Option<nat>)
      requires repo.Valid() && IsPaidPlan(seen.plan)
      modifies this, repo
      ensures repo.Valid() && once == old(once) && r != Ok(false)
      ensures LookedUp(old(repo.Snapshot()), p, u, event, seen, o.findable, target, reward)
      ensures Processed(old(repo.Snapshot()), T.Settle(old(repo.Snapshot()), p, u, event, seen, target, reward),
                        o.fault, repo.Snapshot(), r, r == Ok(true))
      ensures grants == old(grants) + (if r == Ok(true) && o.sentGrant then GrantsFor(p, u, event, seen) else [])
      ensures offers == old(offers) + (if r == Ok(true) && o.sentReward then OffersFor(p, u, event, seen) else [])
    {
      hide T.Confirm, T.Revert, Constraints, IsLatest, IsRewardOf;
      target, reward := None, None;
      if event == CONFIRMED {
        r := ProcessConfirmed(p, u, seen, o.fault, o.sentGrant, o.sentReward);
      } else if event == CANCELED || event == CHARGEBACKED {
        r, target, reward := ProcessReverted(p, u, seen, event, o.findable, o.fault);
      } else {
        r := PersistStatus(p, event, o.fault);
      }
    }

    method PersistStatus(p: nat, status: PaymentStatus, fault: bool) returns (r: Result<bool>)
      requires repo.Valid()
      modifies repo
      ensures repo.Valid()
      ensures if !StatusFits(old(repo.payments), p, status) then r == Err(ConstraintViolated)
              else if fault then r == Err(Serialization) else r == Ok(true)
      ensures repo.Snapshot() == if r.Ok?
          then old(repo.Snapshot()).(payments := SetStatus(old(repo.payments), p, status))
                                 else old(repo.Snapshot())
    {
      var start := repo.Snapshot();
      var ok := repo.UpdatePaymentStatus(p, status);
      if !ok {
        return Err(ConstraintViolated);
      }
      if fault {
        repo.Restore(start);
        return Err(Serialization);
      }
      r := Ok(true);
    }

    method ProcessConfirmed(p: nat, u: nat, seen: Payment, fault: bool, sentGrant: bool, sentReward: bool)
      returns (r: Result<bool>)
      requires repo.Valid() && IsPaidPlan(seen.plan)
      modifies this, repo
      ensures repo.Valid() && once == old(once)
      ensures var jobs := r == Ok(true);
              && Processed(old(repo.Snapshot()), T.Confirm(old(repo.Snapshot()), p, u, seen.amount), fault,
                           repo.Snapshot(), r, jobs)
              && grants == old(grants) + (if jobs && sentGrant then GrantsFor(p, u, CONFIRMED, seen) else [])
              && offers == old(offers) + (if jobs && sentReward then OffersFor(p, u, CONFIRMED, seen) else [])
    {
      if u !in repo.users {
        return Err(NotFound);
      }
      var start := repo.Snapshot();
      var ok := repo.UpdatePaymentStatus(p, CONFIRMED);
      repo.UpdateLTV(u, seen.amount);
      if fault {
        repo.Restore(start);
        return Err(Serialization);
      }
      var qty := 1;
      if seen.qty > 0 {
        qty := seen.qty;
      }
      if sentGrant {
        grants := grants + [GrantJob(p, u, seen.plan, qty)];
      }
      if seen.amount > 0 && sentReward {
        offers := offers + [RewardJob(p, u, seen.amount)];
      }
      r := Ok(true);
    }

    method ProcessReverted(p: nat, u: nat, seen: Payment, status: PaymentStatus, findable: bool, fault: bool)
      returns (r: Result<bool>, target: Option<nat>, reward: Option<nat>)
      requires repo.Valid() && IsReversal(status)
      modifies repo
      ensures repo.Valid() && LookedUp(old(repo.Snapshot()), p, u, status, seen, findable, target, reward)
      ensures Processed(old(repo.Snapshot()), T.Revert(old(repo.Snapshot()), p, u, seen, status, target, reward), fault,
                        repo.Snapshot(), r, r == Ok(true))
      ensures findable && seen.status == CONFIRMED && r.Ok? ==>
                forall w | w in old(repo.rewards) && old(repo.rewards)[w].payment == p :: reward == Some(w)
    {
      hide Constraints, IsLatest, IsRewardOf, T.UndoReward;
      target, reward := None, None;
      if u !in repo.users {
        return Err(NotFound), None, None;
      }
      var start := repo.Snapshot();
      var ok := repo.UpdatePaymentStatus(p, status);
      if seen.status == CONFIRMED {
        repo.UpdateLTV(u, -seen.amount);
        if IsExpansionPlan(seen.plan) {
          repo.DeleteDeviceExpansion(u);
        } else {
          target := repo.LockLatestSubscription(u);
          if target.Some? && PlanDays(seen.plan) > 0 {
            var lapsed := repo.ContractSubscriptionByDuration(target.value, PlanDays(seen.plan));
          }
        }
        assert repo.Snapshot() == T.Undo(start, p, u, seen, status, target);
        reward := UndoReward(p, findable);
      }
      if fault {
        repo.Restore(start);
        return Err(Serialization), target, reward;
      }
      r := Ok(true);
    }

    /** The clawback block: skipped if the lookup fails; a conditional transition first, money only if it happened. */
    method UndoReward(p: nat, findable: bool) returns (reward: Option<nat>)
      requires repo.Valid()
      modifies repo
      ensures repo.Valid() && if findable then IsRewardOf(old(repo.rewards), p, reward) else reward.None?
      ensures repo.Snapshot() == T.UndoReward(old(repo.Snapshot()), reward)
      ensures findable ==>
                forall w | w in old(repo.rewards) && old(repo.rewards)[w].payment == p :: reward == Some(w)
    {
      hide Constraints;
      reward := None;
      if findable {
        reward := repo.FindReward(p);
        OneRewardPerPayment(repo.Snapshot(), p, reward);
      }
      if reward.Some? {
        var row := repo.rewards[reward.value];
        var reverted := repo.RevertReferralReward(reward.value);
        if reverted && row.immediate > 0 {
          var taken := repo.ClawbackYAD(row.referrer, row.immediate, ClawbackOf(reward.value));
        }
      }
    }
  }

  predicate Undoes(event: PaymentStatus, seen: Payment) {
    IsReversal(event) && seen.status == CONFIRMED
  }

  function GrantsFor(p: nat, u: nat, event: PaymentStatus, seen: Payment): seq<GrantJob> {
    if event == CONFIRMED && IsPaidPlan(seen.plan)
        then [GrantJob(p, u, seen.plan, if seen.qty > 0 then seen.qty else 1)] else []
  }

  function OffersFor(p: nat, u: nat, event: PaymentStatus, seen: Payment): seq<RewardJob> {
    if event == CONFIRMED && IsPaidPlan(seen.plan) && seen.amount > 0 then [RewardJob(p, u, seen.amount)] else []
  }
}
