/** The retry loops around subscription purchases and activations, with other transactions running in between. */
module Purchases {
  import opened Prelude
  import opened Domain
  import opened Tables
  import opened Database
  import T = Transactions

  /**
   One attempt as its transaction meets the world: the committed database it starts from,
   which any number of other transactions may have changed since the last attempt, and
   whether PostgreSQL aborts it with a serialization failure.
   */
  datatype Round = Round(state: DB, fault: bool)

  const MAX_ATTEMPTS: nat := 3

  ghost predicate Legal(round: Round) {
    Constraints(round.state)
  }

  ghost predicate AllLegal(rounds: seq<Round>) {
    |rounds| == MAX_ATTEMPTS && forall i | 0 <= i < |rounds| :: Legal(rounds[i])
  }

  /** The attempts that came before the last one were all aborted. */
  predicate OnlyRetriesFaults(rounds: seq<Round>, tries: nat) {
    tries <= |rounds| && forall i | 0 <= i < tries - 1 :: rounds[i].fault
  }

  /** One attempt: the whole effect and the new expiry of `row`, or no effect and the reason. */
  ghost predicate Attempted(round: Round, effect: Result<DB>, left: DB, r: Result<int>, row: nat) {
    match effect
    case Err(e) => r == Err(e) && left == round.state
    case Ok(after) =>
      if round.fault then r == Err(Serialization) && left == round.state
      else left == after && r.Ok? && row in after.subs && after.subs[row].expires == r.value
  }

  function RowOf(target: Option<nat>, id: nat): nat {
    if target.Some? then target.value else id
  }

  /** The half that every activation shares: extend the locked row, or create the first one. */
  method ExtendOrInsert(repo: Repo, u: nat, plan: Plan, target: Option<nat>, id: nat, at: int) returns (r: Result<int>)
    requires repo.Valid() && PlanDays(plan) > 0 && u in repo.users && (target.Some? ==> target.value in repo.subs)
    modifies repo
    ensures repo.Valid()
    ensures Attempted(Round(old(repo.Snapshot()), false), T.Grant(old(repo.Snapshot()), u, plan, target, id, at),
                      repo.Snapshot(), r, RowOf(target, id))
  {
    hide Constraints;
    var expires: int;
    match target {
      case Some(s) =>
        repo.ExtendSubscriptionByDuration(s, PlanDays(plan), plan);
        expires := repo.subs[s].expires;
      case None =>
        expires := at + PlanDays(plan) * DAY;
        var ok := repo.CreateSubscription(id, Sub(u, plan, Active, expires));
        if !ok {
          return Err(ConstraintViolated);
        }
    }
    r := Ok(expires);
  }

  /** extendOrCreateSub and assignSubInTx: lock the user and the latest row, extend it or create the first. */
  method ExtendOrCreate(repo: Repo, u: nat, plan: Plan, id: nat, at: int, round: Round)
          returns (r: Result<int>, target: Option<nat>)
    requires Legal(round) && PlanDays(plan) > 0
    modifies repo
    ensures repo.Valid() && IsLatest(round.state.subs, u, target)
    ensures Attempted(round, T.Grant(round.state, u, plan, target, id, at), repo.Snapshot(), r, RowOf(target, id))
  {
    hide Constraints;
    repo.Restore(round.state);
    target := repo.LockLatestSubscription(u);
    if u !in repo.users {
      return Err(NotFound), target;
    }
    r := ExtendOrInsert(repo, u, plan, target, id, at);
    if r.Ok? && round.fault {
      repo.Restore(round.state);
      r := Err(Serialization);
    }
  }

  /** tryBuyWithYAD: the debit and the grant in one transaction. */
  method TryBuyWithYAD(repo: Repo, u: nat, plan: Plan, id: nat, at: int, round: Round)
          returns (r: Result<int>, target: Option<nat>)
    requires Legal(round) && PlanYADPrice(plan) > 0
    modifies repo
    ensures repo.Valid() && IsLatest(round.state.subs, u, target)
    ensures Attempted(round, T.Buy(round.state, u, plan, target, id, at), repo.Snapshot(), r, RowOf(target, id))
  {
    hide Constraints;
    repo.Restore(round.state);
    target := repo.LockLatestSubscription(u);
    if u !in repo.users {
      return Err(NotFound), target;
    }
    var price: int := PlanYADPrice(plan);
    var ok := repo.AdjustYADBalance(u, -price, Spent);
    if !ok {
      return Err(Insufficient), target;
    }
    r := ExtendOrInsert(repo, u, plan, target, id, at);
    if r.Err? {
      repo.Restore(round.state);
    } else if round.fault {
      repo.Restore(round.state);
      r := Err(Serialization);
    }
  }

  /**
   BuySubscriptionWithYAD. Success is exactly one committed Buy, run against the database
   of the last attempt; every error leaves the database as the other transactions made
   it. `tries` counts the attempts started, none of them when the checks refuse.
   */
  method BuySubscriptionWithYAD(repo: Repo, u: nat, plan: Plan, id: nat, at: int, rounds: seq<Round>)
    returns (r: Result<int>, tries: nat, target: Option<nat>)
    requires repo.Valid() && AllLegal(rounds)
    modifies repo
    ensures repo.Valid() && OnlyRetriesFaults(rounds, tries)
    ensures tries == 0 ==> r.Err? && repo.Snapshot() == old(repo.Snapshot())
    ensures tries == 0 <==>
              || PlanYADPrice(plan) == 0 || u !in old(repo.users)
              || old(repo.users)[u].balance < PlanYADPrice(plan)
    ensures PlanYADPrice(plan) == 0 ==> r == Err(UnknownPlan)
    ensures tries > 0 ==>
              var last := rounds[tries - 1];
              && IsLatest(last.state.subs, u, target)
              && Attempted(last, T.Buy(last.state, u, plan, target, id, at), repo.Snapshot(), r, RowOf(target, id))
              && (r == Err(Serialization) ==> tries == MAX_ATTEMPTS)
  {
    hide Constraints;
    tries, target := 0, None;
    if PlanYADPrice(plan) == 0 {
      return Err(UnknownPlan), 0, None;
    }
    if u !in repo.users {
      return Err(NotFound), 0, None;
    }
    if repo.users[u].balance < PlanYADPrice(plan) {
      return Err(Insufficient), 0, None;
    }
    r := Err(Serialization);
    while tries < MAX_ATTEMPTS
      invariant repo.Valid() && tries <= MAX_ATTEMPTS
      invariant forall i | 0 <= i < tries :: rounds[i].fault
      invariant r == Err(Serialization)
      invariant tries == 0 ==> repo.Snapshot() == old(repo.Snapshot())
      invariant tries > 0 ==>
                  var last := rounds[tries - 1];
                  && IsLatest(last.state.subs, u, target)
                  && Attempted(last, T.Buy(last.state, u, plan, target, id, at), repo.Snapshot(), r, RowOf(target, id))
    {
      r, target := TryBuyWithYAD(repo, u, plan, id, at, rounds[tries]);
      tries := tries + 1;
      if r != Err(Serialization) {
        return;
      }
    }
  }

  /** The activation loop of the worker, and the same loop in the admin assignment. */
  method ActivateSubscription(repo: Repo, u: nat, plan: Plan, id: nat, at: int, rounds: seq<Round>)
    returns (r: Result<int>, tries: nat, target: Option<nat>)
    requires repo.Valid() && AllLegal(rounds)
    modifies repo
    ensures repo.Valid() && OnlyRetriesFaults(rounds, tries)
    ensures tries == 0 <==> PlanDays(plan) == 0
    ensures tries == 0 ==> r == Err(UnknownPlan) && repo.Snapshot() == old(repo.Snapshot())
    ensures tries > 0 ==>
              var last := rounds[tries - 1];
              && IsLatest(last.state.subs, u, target)
              && Attempted(last, T.Grant(last.state, u, plan, target, id, at), repo.Snapshot(), r, RowOf(target, id))
              && (r == Err(Serialization) ==> tries == MAX_ATTEMPTS)
  {
    hide Constraints;
    tries, target, r := 0, None, Err(Serialization);
    if PlanDays(plan) == 0 {
      return Err(UnknownPlan), 0, None;
    }
    while tries < MAX_ATTEMPTS
      invariant repo.Valid() && tries <= MAX_ATTEMPTS
      invariant forall i | 0 <= i < tries :: rounds[i].fault
      invariant r == Err(Serialization)
      invariant tries > 0 ==>
                  var last := rounds[tries - 1];
                  && IsLatest(last.state.subs, u, target)
                  && Attempted(last, T.Grant(last.state, u, plan, target, id, at), repo.Snapshot(), r,
                               RowOf(target, id))
    {
      r, target := ExtendOrCreate(repo, u, plan, id, at, rounds[tries]);
      tries := tries + 1;
      if r != Err(Serialization) {
        return;
      }
    }
  }

  lemma BalancesAreNatural(db: DB)
    requires Constraints(db)
    ensures forall u | u in db.users :: db.users[u].balance >= 0
  {
  }

  /**
   handleSubscriptionActivate. `synced` says whether the VPN panel could be updated after
   the commit: if not, the handler reports an error although the extension has committed,
   and the retried job will extend again. The bonus is a transaction of its own, whose
   failure is ignored.
   */
  method HandleSubscriptionActivate(
      repo: Repo, u: nat, plan: Plan, id: nat, at: int, rounds: seq<Round>, synced: bool, bonusFault: bool)
    returns (r: Result<int>, tries: nat, target: Option<nat>)
    requires repo.Valid() && AllLegal(rounds)
    modifies repo
    ensures repo.Valid() && OnlyRetriesFaults(rounds, tries)
    ensures tries == 0 ==> r.Err? && repo.Snapshot() == old(repo.Snapshot())
    ensures tries == 0 <==> u !in old(repo.users) || plan == NinetyNineYears || plan == Expansion || plan == Expansion2
    ensures tries > 0 ==>
              var last := rounds[tries - 1];
              && IsLatest(last.state.subs, u, target)
              && match T.Grant(last.state, u, plan, target, id, at)
                 case Err(e) => r == Err(e) && repo.Snapshot() == last.state
                 case Ok(after) =>
                   if last.fault then r == Err(Serialization) && repo.Snapshot() == last.state
                   else if !synced then r == Err(Unavailable) && repo.Snapshot() == after
                   else r.Ok? && repo.Snapshot() ==
                          if bonusFault || PlanYADBonus(plan) == 0 then after
                              else Post(after, u, PlanYADBonus(plan), PlanBonus)
  {
    hide Constraints;
    tries, target := 0, None;
    if u !in repo.users {
      return Err(NotFound), 0, None;
    }
    if PlanDays(plan) == 0 || !IsPaidPlan(plan) {
      return Err(UnknownPlan), 0, None;
    }
    r, tries, target := ActivateSubscription(repo, u, plan, id, at, rounds);
    if r.Err? {
      return;
    }
    if !synced {
      return Err(Unavailable), tries, target;
    }
    var bonus: int := PlanYADBonus(plan);
    if bonus > 0 && !bonusFault {
      BalancesAreNatural(repo.Snapshot());
      var ok := repo.AdjustYADBalance(u, bonus, PlanBonus);
    }
  }

  /** A successful purchase, whatever ran in between: one debit of the price, no other balance, no other table. */
  lemma SuccessIsOnePurchase(before: DB, after: DB, u: nat, plan: Plan, target: Option<nat>, id: nat, at: int)
    requires Constraints(before) && IsLatest(before.subs, u, target)
        && T.Buy(before, u, plan, target, id, at) == Ok(after)
    ensures |after.ledger| == |before.ledger| + 1 && after.ledger[|before.ledger|].delta == 0 - PlanYADPrice(plan)
    ensures forall v | v in before.users ::
              after.users[v].balance == before.users[v].balance - if v == u then PlanYADPrice(plan) else 0
    ensures after.payments == before.payments && after.rewards == before.rewards
        && after.expansions == before.expansions
  {
    T.PurchaseDebitsAndExtends(before, u, plan, target, id, at);
  }
}
