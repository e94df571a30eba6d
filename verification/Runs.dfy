/** What holds in every state of every run of the money machine. */
module Runs {
  import opened Prelude
  import opened Domain
  import opened Tables
  import opened Sums
  import opened System
  import opened Ledger
  import opened Jobs
  import opened Lifetime
  import opened Rewards
  import opened Promos
  import opened History
  import opened Slots
  import opened Deeds

  ghost predicate RowsKnown(s: Sys) {
    && RowsUnique(s.db.subs, s.doubled) && RowsDoubled(s.db.subs, s.db.users, s.doubled)
    && s.doubled <= s.db.users.Keys + s.gone
  }

  ghost predicate Safe(s: Sys) {
    && Constraints(s.db)
    && Books(s)
    && JobsOk(s) && Carried(s)
    && LtvOk(s.db.users, s.db.payments, s.commits, s.reversals) && Tells(s)
    && RewardLaw(s)
    && PromoLaw(s.db.promos, s.db.uses, s.db.ledger)
    && HistoryLaw(s.db.subs, s.history, s.db.now) && RowsKnown(s)
    && X.SlotLaw(s.db.expansions, s.slots) && DeedsLaw(s.db.subs, s.deeds, s.gone, s.db.now)
  }

  lemma InitialTables()
    ensures Constraints(EMPTY) && Balanced(EMPTY.users, EMPTY.ledger) && Running(EMPTY.ledger)
    ensures AllAccounted(EMPTY.rewards, EMPTY.ledger) && PromoLaw(EMPTY.promos, EMPTY.uses, EMPTY.ledger)
  {
  }

  lemma NothingCountedYet(once: set<Key>)
    requires once == {}
    ensures OncePerKey(multiset{}, map[], once, {}) && OnlyKnownPayments(map[], multiset{}, multiset{})
    ensures OneGrantPerPayment(multiset{}, multiset{}, {}) && OneOfferPerPayment(multiset{}, multiset{}, {})
  {
  }

  lemma InitialCounts()
    ensures Counted(INITIAL)
  {
    hide OncePerKey, OnlyKnownPayments, OneGrantPerPayment, OneOfferPerPayment;
    NothingCountedYet(INITIAL.once.Keys);
  }

  lemma InitialQueues()
    ensures JobsOk(INITIAL) && Carried(INITIAL)
  {
    hide Counted;
    InitialCounts();
  }

  lemma InitialStatuses()
    ensures LtvOk(EMPTY.users, EMPTY.payments, INITIAL.commits, INITIAL.reversals) && Tells(INITIAL)
  {
  }

  lemma InitialDeeds()
    ensures DeedsLaw(EMPTY.subs, INITIAL.deeds, {}, 0)
  {
    forall u: nat ensures UserRows(EMPTY.subs, u) == map[] {
    }
  }

  lemma InitialIsSafe()
    ensures Safe(INITIAL)
  {
    InitialDeeds();
    hide DeedsLaw, Constraints, Balanced, Running, AllAccounted, PromoLaw, JobsOk, Carried, LtvOk, Tells;
    InitialTables();
    InitialQueues();
    InitialStatuses();
  }

  lemma StepKeepsConstraints(s: Sys, step: Step)
    requires Constraints(s.db) && Enabled(s, step)
    ensures Constraints(Next(s, step).db)
  {
  }

  lemma StepKeepsLtv(s: Sys, step: Step)
    requires s.gone !! s.db.users.Keys && FlightsNamed(s.db.payments, s.gone, s.flight)
    requires ReadsStand(s.db.payments, s.flight) && OnlyKnownPayments(s.db.payments, s.commits, s.reversals)
    requires LtvOk(s.db.users, s.db.payments, s.commits, s.reversals) && PaymentsOk(s.db.payments, s.db.users)
    requires Enabled(s, step)
    ensures var t := Next(s, step); LtvOk(t.db.users, t.db.payments, t.commits, t.reversals)
  {
    if step.Commit? {
      CommitKeepsLtv(s, step.tx, Effect(s, step.tx).value);
    }
  }

  lemma StepKeepsQueueLaws(s: Sys, step: Step)
    requires JobsOk(s) && Tells(s) && RewardLaw(s) && PaymentsOk(s.db.payments, s.db.users) && Enabled(s, step)
    requires LtvOk(s.db.users, s.db.payments, s.commits, s.reversals)
    ensures var t := Next(s, step);
            JobsOk(t) && Tells(t) && RewardLaw(t) && LtvOk(t.db.users, t.db.payments, t.commits, t.reversals)
  {
    hide Enabled, Next, Tells, RewardLaw, LtvOk;
    StepKeepsJobs(s, step);
    StepKeepsLtv(s, step);
    StepKeepsTells(s, step);
    SettledKeysAreNew(s, step);
    StepKeepsRewards(s, step);
  }

  lemma StepKeepsSafe(s: Sys, step: Step)
    requires Safe(s) && Enabled(s, step)
    ensures Safe(Next(s, step))
  {
    hide Enabled, Next, Books, JobsOk, LtvOk, Tells, RewardLaw, PromoLaw, HistoryLaw;
    hide RowsUnique, RowsDoubled, X.SlotLaw, DeedsLaw, Carried;
    StepKeepsConstraints(s, step);
    StepKeepsCarried(s, step);
    StepKeepsBooks(s, step);
    StepKeepsQueueLaws(s, step);
    StepKeepsPromos(s, step);
    StepKeepsHistory(s, step);
    StepKeepsRows(s, step);
    StepKeepsSlots(s, step);
    StepKeepsDeeds(s, step);
  }

  lemma {:induction false} EveryStateIsSafe(states: seq<Sys>, i: nat)
    requires Run(states) && i < |states|
    ensures Safe(states[i])
  {
    if i == 0 {
      InitialIsSafe();
    } else {
      EveryStateIsSafe(states, i - 1);
      assert Follows(states[i - 1], states[i]);
      var step: Step :| Enabled(states[i - 1], step) && states[i] == Next(states[i - 1], step);
      StepKeepsSafe(states[i - 1], step);
    }
  }

  // ----- The theorems, in the platform's terms ------------------------------------------------------

  /** A balance is never negative and is exactly the sum of the user's ledger rows. */
  lemma BalanceIsTheLedgerSum(states: seq<Sys>, i: nat, u: nat)
    requires Run(states) && i < |states| && u in states[i].db.users
    ensures 0 <= states[i].db.users[u].balance == Deltas(states[i].db.ledger, u)
  {
    EveryStateIsSafe(states, i);
  }

  /** Until the first merge, every ledger row stores the running balance of its user. */
  lemma RowsStoreTheRunningBalance(states: seq<Sys>, i: nat, k: nat)
    requires Run(states) && i < |states| && states[i].gone == {} && k < |states[i].db.ledger|
    ensures var row := states[i].db.ledger[k]; row.balance == Deltas(states[i].db.ledger[..k + 1], row.user)
  {
    EveryStateIsSafe(states, i);
  }

  lemma NothingToMoveMeansNoMoney(s: Sys, src: nat)
    requires Safe(s) && src in s.db.users && M.NothingToMove(s.db, src)
    ensures s.db.users[src].balance == 0 && s.db.users[src].ltv == 0
  {
    NoRowsNoBalance(s.db.ledger, src);
    NoPaymentsNoShares(s.db.payments, s.commits, s.reversals, src);
  }

  /** Every merge that commits, into an existing account or a missing one, conserves total balance and total LTV. */
  lemma MergesConserveMoney(states: seq<Sys>, i: nat, src: nat, dst: nat)
    requires Run(states) && i < |states| && Enabled(states[i], Commit(MergeAccounts(src, dst)))
    ensures var before, after := states[i].db.users, Next(states[i], Commit(MergeAccounts(src, dst))).db.users;
            && Sum(M.Balances(after)) == Sum(M.Balances(before)) && Sum(M.Ltvs(after)) == Sum(M.Ltvs(before))
  {
    hide Safe, Run, M.NothingToMove;
    EveryStateIsSafe(states, i);
    if dst in states[i].db.users {
      M.MergeConservesTotals(states[i].db, src, dst);
    } else {
      NothingToMoveMeansNoMoney(states[i], src);
      M.RemovalConservesTotals(states[i].db, src, dst);
    }
  }

  // ----- Payments ------------------------------------------------------------------------------------

  /**
   With all four sources of jobs enabled, at most one confirming transaction commits for a
   payment, and at most one activation job and one reward job are ever enqueued for it,
   unless its confirmation is handled again after the 48 hours of its once-key.
   */
  lemma AtMostOneConfirmation(states: seq<Sys>, i: nat, p: nat)
    requires Run(states) && i < |states| && !Retaken(states[i].retaken, p)
    ensures states[i].commits[(p, CONFIRMED)] <= 1
    ensures forall g | g in states[i].granted && g.payment == p ::
              states[i].granted[g] == 1 && forall h | h in states[i].granted && h.payment == p :: h == g
    ensures forall o | o in states[i].offered && o.payment == p ::
              states[i].offered[o] == 1 && forall q | q in states[i].offered && q.payment == p :: q == o
  {
    EveryStateIsSafe(states, i);
    assert OncePerKey(states[i].commits, states[i].flight, states[i].once.Keys, states[i].retaken);
  }

  lemma LtvNeverExceedsTheCharges(states: seq<Sys>, i: nat, u: nat)
    requires Run(states) && i < |states| && u in states[i].db.users
    requires forall p | p in states[i].db.payments && states[i].db.payments[p].user == u ::
               !Retaken(states[i].retaken, p)
    ensures states[i].db.users[u].ltv <= Sum(Charged(states[i].db.payments, u))
  {
    EveryStateIsSafe(states, i);
    LtvIsAtMostTheCharges(states[i], u);
  }

  /**
   A user's LTV is the sum of the user's CONFIRMED payments, unless some step has skewed one
   of them: duplicates, reorderings, charge-backs, failed transactions, merges and harmless
   status writes all keep the equality.
   */
  lemma LtvIsTheConfirmedTotal(states: seq<Sys>, i: nat, u: nat)
    requires Run(states) && i < |states| && u in states[i].db.users
    requires forall p | p in states[i].db.payments && states[i].db.payments[p].user == u :: p !in states[i].skewed
    ensures states[i].db.users[u].ltv == Sum(Confirmed(states[i].db.payments, u))
  {
    hide Run;
    var s := states[i];
    EveryStateIsSafe(states, i);
    LtvIsConfirmedPlusLeads(s.db.users, s.db.payments, s.commits, s.reversals, u);
    NoLeadsWithoutSkew(s.db.payments, s.commits, s.reversals, s.skewed, u);
  }

  /**
   And only three things skew a payment: a status write outside the queue that flips it, two
   jobs of it in flight at once, a confirmation handled again after 48 hours. One consumer
   that keeps up, and status endpoints that do not write CONFIRMED over anything else or
   anything else over CONFIRMED, never do.
   */
  lemma SkewsHaveACause(states: seq<Sys>, i: nat, p: nat)
    requires Run(states) && i < |states| && p in states[i].skewed
    ensures p in states[i].direct || p in states[i].crowd || Retaken(states[i].retaken, p)
  {
    EveryStateIsSafe(states, i);
  }

  /**
   So without these three, which is to say with one consumer that keeps up and on the
   queue's path alone, LTV is the confirmed total of every user.
   */
  lemma LtvOnTheQueuePath(states: seq<Sys>, i: nat, u: nat)
    requires Run(states) && i < |states| && u in states[i].db.users
    requires forall p | p in states[i].db.payments && states[i].db.payments[p].user == u ::
               p !in states[i].direct && p !in states[i].crowd && !Retaken(states[i].retaken, p)
    ensures states[i].db.users[u].ltv == Sum(Confirmed(states[i].db.payments, u))
  {
    forall p | p in states[i].db.payments && states[i].db.payments[p].user == u && p in states[i].skewed ensures false {
      SkewsHaveACause(states, i, p);
    }
    LtvIsTheConfirmedTotal(states, i, u);
  }

  /** In every state the LTV is off by the leads of the user's payments: confirmations less reversals less status. */
  lemma LtvIsOffByTheLeads(states: seq<Sys>, i: nat, u: nat)
    requires Run(states) && i < |states| && u in states[i].db.users
    ensures Gap(states[i].db, u) == Sum(Leads(states[i].db.payments, states[i].commits, states[i].reversals, u))
  {
    EveryStateIsSafe(states, i);
    LtvIsConfirmedPlusLeads(states[i].db.users, states[i].db.payments, states[i].commits, states[i].reversals, u);
  }

  /** The payment whose status a direct write or a settlement sets. */
  function Written(tx: Tx): nat
    requires tx.MarkStatus? || tx.SettleEvent?
  {
    if tx.MarkStatus? then tx.p else tx.key.0
  }

  lemma WhatLtvRestsOn(s: Sys)
    requires Safe(s)
    ensures s.gone !! s.db.users.Keys && FlightsNamed(s.db.payments, s.gone, s.flight)
    ensures ReadsStand(s.db.payments, s.flight) && OnlyKnownPayments(s.db.payments, s.commits, s.reversals)
    ensures LtvOk(s.db.users, s.db.payments, s.commits, s.reversals) && PaymentsOk(s.db.payments, s.db.users)
  {
  }

  lemma OwnersGapMoves(s: Sys, tx: Tx, after: DB)
    requires s.gone !! s.db.users.Keys && FlightsNamed(s.db.payments, s.gone, s.flight)
    requires ReadsStand(s.db.payments, s.flight) && OnlyKnownPayments(s.db.payments, s.commits, s.reversals)
    requires LtvOk(s.db.users, s.db.payments, s.commits, s.reversals) && PaymentsOk(s.db.payments, s.db.users)
    requires Reads(s, tx) && Effect(s, tx) == Ok(after) && (tx.MarkStatus? || tx.SettleEvent?)
    ensures var p := Written(tx);
            && p in s.db.payments && s.db.payments[p].user in s.db.users && s.db.payments[p].user in after.users
            && Gap(after, s.db.payments[p].user) - Gap(s.db, s.db.payments[p].user)
               == s.db.payments[p].amount * Shift(s, tx, p)
  {
    hide LtvOk, FlightsNamed, ReadsStand, OnlyKnownPayments, Gap, Shift, Effect;
    CommitKeepsLtv(s, tx, after);
    GapMoves(s, tx, after);
  }

  /** How a step that sets a status moves the gap of the payment's owner. */
  lemma GapMovesExactly(states: seq<Sys>, i: nat, tx: Tx)
    requires Run(states) && i < |states| && Enabled(states[i], Commit(tx)) && (tx.MarkStatus? || tx.SettleEvent?)
    ensures var s, t, p := states[i], Next(states[i], Commit(tx)), Written(tx);
            && p in s.db.payments && s.db.payments[p].user in s.db.users && s.db.payments[p].user in t.db.users
            && Gap(t.db, s.db.payments[p].user) - Gap(s.db, s.db.payments[p].user)
               == s.db.payments[p].amount * Shift(s, tx, p)
  {
    hide Safe, Constraints, Run, Gap, Shift, Effect, Reads;
    EveryStateIsSafe(states, i);
    WhatLtvRestsOn(states[i]);
    OwnersGapMoves(states[i], tx, Effect(states[i], tx).value);
  }

  /** A step moves no lead when the status is on the side of CONFIRMED that its writer believed or leaves it on. */
  lemma NothingShiftsIff(s: Sys, tx: Tx)
    requires (tx.MarkStatus? || tx.SettleEvent?) && Written(tx) in s.db.payments
    requires tx.SettleEvent? ==> tx.key in s.flight && s.flight[tx.key].Loaded?
    ensures Shift(s, tx, Written(tx)) == 0 <==>
              (s.db.payments[Written(tx)].status == CONFIRMED <==>
                 if tx.MarkStatus? then tx.status == CONFIRMED
                 else IsReversal(tx.key.1) && s.flight[tx.key].seen.status == CONFIRMED)
  {
  }

  /**
   So where the owner's equality holds, the step keeps it if and only if it does not skew: a
   direct write exactly when the payment is free or stays on the same side of CONFIRMED, a
   confirmation exactly when the payment is free or not CONFIRMED yet, a reversal exactly when
   the payment is free or what its handler read of the status is still so.
   */
  lemma StepKeepsTheEqualityIff(states: seq<Sys>, i: nat, tx: Tx)
    requires Run(states) && i < |states| && Enabled(states[i], Commit(tx)) && (tx.MarkStatus? || tx.SettleEvent?)
    ensures var s, t, p := states[i], Next(states[i], Commit(tx)), Written(tx);
            && p in s.db.payments && s.db.payments[p].user in s.db.users && s.db.payments[p].user in t.db.users
            && (Gap(s.db, s.db.payments[p].user) == 0 ==>
                  (Gap(t.db, s.db.payments[p].user) == 0 <==>
                     || s.db.payments[p].amount == 0
                     || (s.db.payments[p].status == CONFIRMED <==>
                           if tx.MarkStatus? then tx.status == CONFIRMED
                           else IsReversal(tx.key.1) && s.flight[tx.key].seen.status == CONFIRMED)))
  {
    hide Constraints, Run, Effect, Gap, Shift;
    GapMovesExactly(states, i, tx);
    NothingShiftsIff(states[i], tx);
    ZeroProduct(states[i].db.payments[Written(tx)].amount, Shift(states[i], tx, Written(tx)));
  }

  lemma ZeroProduct(a: int, b: int)
    ensures a * b == 0 <==> a == 0 || b == 0
  {
  }

  lemma TimesOne(a: int, b: int)
    requires b == 1
    ensures a * b == a
  {
  }

  lemma LateConfirmationShiftsByOne(s: Sys, tx: Tx)
    requires tx.SettleEvent? && tx.key in s.flight && s.flight[tx.key].Loaded? && tx.key.1 == CONFIRMED
    requires tx.key.0 in s.db.payments && s.db.payments[tx.key.0].status == CONFIRMED
    ensures Shift(s, tx, tx.key.0) == 1
  {
  }

  /** The worker's own confirmation closes the gap that a status endpoint opened by writing CONFIRMED first. */
  lemma ConfirmationClosesTheGap(states: seq<Sys>, i: nat, tx: Tx)
    requires Run(states) && i < |states| && Enabled(states[i], Commit(tx)) && tx.SettleEvent? && tx.key.1 == CONFIRMED
    requires tx.key.0 in states[i].db.payments && states[i].db.payments[tx.key.0].status == CONFIRMED
    ensures var s, t, u := states[i], Next(states[i], Commit(tx)), states[i].db.payments[tx.key.0].user;
            && u in s.db.users && u in t.db.users
            && (Gap(t.db, u) == 0 <==> Gap(s.db, u) == -s.db.payments[tx.key.0].amount)
  {
    hide Gap, Shift, Run, Effect, Constraints;
    GapMovesExactly(states, i, tx);
    LateConfirmationShiftsByOne(states[i], tx);
    TimesOne(states[i].db.payments[tx.key.0].amount, Shift(states[i], tx, tx.key.0));
  }

  // ----- Rewards and codes -----------------------------------------------------------------------------

  /** No committed reward is pending, so no payout transaction is ever enabled. */
  lemma NothingIsEverPaidOut(states: seq<Sys>, i: nat, w: nat)
    requires Run(states) && i < |states|
    ensures w in states[i].db.rewards ==> states[i].db.rewards[w].status != Pending
    ensures !Enabled(states[i], Commit(PayoutPending(w)))
  {
    EveryStateIsSafe(states, i);
    NothingIsPending(states[i], w);
  }

  /** One credit row equal to the reward, at most one clawback row, only once reverted, never more than the credit. */
  lemma RewardsAreCreditedOnce(states: seq<Sys>, i: nat, w: nat)
    requires Run(states) && i < |states| && w in states[i].db.rewards
    ensures var row, ledger := states[i].db.rewards[w], states[i].db.ledger;
            && Rows(ledger, RewardCredit(w)) == 1 && Booked(ledger, RewardCredit(w)) == row.immediate > 0
            && Rows(ledger, ClawbackOf(w)) <= (if row.status == Reverted then 1 else 0)
            && 0 <= -Booked(ledger, ClawbackOf(w)) <= row.immediate
  {
    EveryStateIsSafe(states, i);
  }

  /**
   A referral's total_reward is the sum of its rewards and of what was added again for
   payments that had theirs. So it adds up exactly when nothing was added again, and each
   payment for which something was is one whose confirmation was handled again after 48 hours.
   */
  lemma ReferralTotalsAreRewardSums(states: seq<Sys>, i: nat, r: nat)
    requires Run(states) && i < |states| && r in states[i].db.referrals
    ensures var s := states[i]; var again := Agains(s.repaid, r);
            && s.db.referrals[r].totalReward == Sum(Earned(s.db.rewards, r)) + PaidAgain(again)
            && (s.db.referrals[r].totalReward == Sum(Earned(s.db.rewards, r)) <==> again == [])
            && (s.db.referrals[r].totalReward > Sum(Earned(s.db.rewards, r)) <==> again != [])
            && (forall k | 0 <= k < |again| :: again[k].yad > 0 && Retaken(s.retaken, again[k].payment))
  {
    EveryStateIsSafe(states, i);
    var again := Agains(states[i].repaid, r);
    assert forall k | 0 <= k < |again| :: again[k].yad > 0 && Retaken(states[i].retaken, again[k].payment);
    PaidAgainIsPositive(again);
  }

  /** Where a referral's total adds up, a reward keeps it so if and only if the payment has no reward yet. */
  lemma RewardStepKeepsTheTotalIff(states: seq<Sys>, i: nat, tx: Tx)
    requires Run(states) && i < |states| && Enabled(states[i], Commit(tx)) && tx.RewardReferral?
    requires tx.r in states[i].db.referrals
    requires states[i].db.referrals[tx.r].totalReward == Sum(Earned(states[i].db.rewards, tx.r))
    ensures var s, t := states[i].db, Next(states[i], Commit(tx)).db;
            && tx.r in t.referrals
            && (t.referrals[tx.r].totalReward == Sum(Earned(t.rewards, tx.r)) <==>
                  !PaidFor(s.rewards, tx.rewardJob.payment))
  {
    EveryStateIsSafe(states, i);
    RewardKeepsTheTotalIff(states[i], tx, Next(states[i], Commit(tx)).db);
  }

  /**
   Promo caps hold across concurrent uses and merges: the rows of a code number at most its
   counter, no two of them are one user's, and it never mints more than its cap allows.
   */
  lemma PromosStayCapped(states: seq<Sys>, i: nat, p: nat)
    requires Run(states) && i < |states| && p in states[i].db.promos
    ensures var db := states[i].db;
            && |RowsOf(db.uses, p)| <= db.promos[p].used <= db.promos[p].maxUses
            && (forall x, y | x in RowsOf(db.uses, p) && y in RowsOf(db.uses, p) && x != y ::
                  db.uses[x].1 != db.uses[y].1)
            && 0 <= Booked(db.ledger, PromoCredit(p)) <= db.promos[p].maxUses * db.promos[p].yad
            && (!db.promos[p].isYad ==> Booked(db.ledger, PromoCredit(p)) == 0)
  {
    EveryStateIsSafe(states, i);
    MintingIsBounded(states[i].db.promos[p], states[i].db.uses, states[i].db.ledger, p);
  }

  // ----- Subscriptions and slots ------------------------------------------------------------------------

  /** Whoever ran the activations, in whatever order they committed, a row that was only extended lost none of them. */
  lemma NoActivationIsLost(states: seq<Sys>, i: nat, row: nat)
    requires Run(states) && i < |states| && row in states[i].db.subs
    ensures row in states[i].history
    ensures OnlyExtended(states[i].history[row]) ==>
              states[i].history[row] != [] &&
              states[i].db.subs[row].expires == E.LatestReach(Activations(states[i].history[row]))
  {
    EveryStateIsSafe(states, i);
    if OnlyExtended(states[i].history[row]) {
      assert Explains(states[i].history[row], states[i].db.subs[row].expires, states[i].db.now);
      EveryActivationCounts(states[i], row);
    }
  }

  lemma ChargebacksNeverPay(states: seq<Sys>, i: nat, row: nat, before: seq<E.Op>, t1: int, days: nat,
                            between: seq<E.Op>, t2: int, rest: seq<E.Op>)
    requires Run(states) && i < |states| && row in states[i].db.subs && row in states[i].history
    requires states[i].history[row] == before + ([E.Extend(t1, days)] + between + [E.Contract(t2, days)] + rest)
    ensures var without := E.Fold(states[i].history[row][0].at, before + (between + rest));
            && Max(states[i].db.subs[row].expires, states[i].db.now) <= Max(without, states[i].db.now)
            && without - days <= states[i].db.subs[row].expires
  {
    EveryStateIsSafe(states, i);
    ReversedPurchaseNeverPays(states[i], row, before, t1, days, between, t2, rest);
  }

  /**
   A user has at most one subscription row, unless a trial was begun next to a row or two
   accounts with rows were merged into the user's, and then never again only one.
   */
  lemma OneRowPerUser(states: seq<Sys>, i: nat, u: nat)
    requires Run(states) && i < |states| && u in states[i].db.users
    ensures OneRow(states[i].db.subs, u) <==> u !in states[i].doubled
  {
    EveryStateIsSafe(states, i);
  }

  /**
   The latest expiry over all rows of a user, which is what decides access, against the same
   rows with the purchase and its reversal left out of the row they hit: no better now, and
   at most the purchased days worse, however many rows there are and whatever hit them.
   */
  lemma ChargebacksNeverPayInPlace(states: seq<Sys>, i: nat, u: nat, latest: nat, row: nat, before: seq<E.Op>, t1: int,
                                   days: nat, between: seq<E.Op>, t2: int, rest: seq<E.Op>) returns (t: nat)
    requires Run(states) && i < |states| && IsLatest(states[i].db.subs, u, Some(latest))
    requires row in states[i].db.subs && states[i].db.subs[row].user == u && row in states[i].history
    requires states[i].history[row] == before + ([E.Extend(t1, days)] + between + [E.Contract(t2, days)] + rest)
    ensures var subs, now := states[i].db.subs, states[i].db.now;
            var without := E.Fold(states[i].history[row][0].at, before + (between + rest));
            && t in subs && subs[t].user == u
            && Max(subs[latest].expires, now) <= Max(if t == row then without else subs[t].expires, now)
            && forall q | q in subs && subs[q].user == u ::
                 (if q == row then without - days else subs[q].expires) <= subs[latest].expires
  {
    ChargebacksNeverPay(states, i, row, before, t1, days, between, t2, rest);
    t := latest;
  }

  lemma SafeDeedsAreLed(s: Sys)
    requires Safe(s)
    ensures DeedsLaw(s.db.subs, s.deeds, s.gone, s.db.now)
  {
  }

  /**
   With several rows, leaving the purchase out can also change which rows the later acts hit.
   As long as those are purchases, trials and merges, a charged-back purchase still never
   pays: from the rows the user had before it, whatever rows the same later acts lead to
   without the two, the latest expiry there is now at least as good, and at most the
   purchased days better.
   */
  lemma ChargebacksNeverPayTheUser(states: seq<Sys>, i: nat, u: nat, latest: nat, before: seq<L.Act>, t1: int,
                                   days: nat, between: seq<L.Act>, t2: int, rest: seq<L.Act>) returns (rows: L.Rows)
    requires Run(states) && i < |states| && u !in states[i].gone && IsLatest(states[i].db.subs, u, Some(latest))
    requires DeedsOf(states[i].deeds, u)
          == before + ([L.Buy(t1, days)] + (between + ([L.Refund(t2, days)] + rest)))
    requires L.Plain(between) && L.Plain(rest)
    ensures L.Leads(map[], before, rows)
    ensures forall w: L.Rows | L.Leads(rows, between + rest, w) ::
              exists row | L.IsTop(w, row) ::
                && Max(states[i].db.subs[latest].expires, states[i].db.now) <= Max(w[row], states[i].db.now)
                && w[row] - days <= states[i].db.subs[latest].expires
  {
    hide Safe, Run, L.Leads, L.Plain, L.Timeline;
    var s := states[i];
    var later := [L.Buy(t1, days)] + (between + ([L.Refund(t2, days)] + rest));
    EveryStateIsSafe(states, i);
    SafeDeedsAreLed(s);
    rows := RowsBefore(s, u, before, later);
    DeedsTimeline(s, u, before, t1, days, between, t2, rest);
    forall w: L.Rows | L.Leads(rows, between + rest, w)
      ensures exists row | L.IsTop(w, row) ::
                && Max(s.db.subs[latest].expires, s.db.now) <= Max(w[row], s.db.now)
                && w[row] - days <= s.db.subs[latest].expires
    {
      var top, row := L.ChargebackNeverPays(rows, t1, days, between, t2, rest, s.db.now, UserRows(s.db.subs, u), w);
      TopIsLatest(s.db.subs, u, latest);
    }
  }

  /**
   An expansion row holds exactly the largest count and the latest expiry of all the slots
   bought or paid for since it was created, in whatever order they committed, across merges.
   */
  lemma SlotRowsAreMaxima(states: seq<Sys>, i: nat, e: nat)
    returns (j: nat, k: nat)
    requires Run(states) && i < |states| && e in states[i].db.expansions
    ensures e in states[i].slots
    ensures var row, grants := states[i].db.expansions[e], states[i].slots[e];
            && (forall g | g in grants :: g.extra <= row.extra && g.expires <= row.expires)
            && j < |grants| && grants[j].extra == row.extra
            && k < |grants| && grants[k].expires == row.expires
  {
    EveryStateIsSafe(states, i);
    j, k := X.JoinIsTheMaximum(states[i].slots[e]);
  }

  /** Two rows granted the same, however ordered or repeated, in this run or another, are alike. */
  lemma SlotRowsIgnoreOrder(states: seq<Sys>, i: nat, e: nat, others: seq<Sys>, j: nat, f: nat)
    requires Run(states) && i < |states| && e in states[i].db.expansions
    requires Run(others) && j < |others| && f in others[j].db.expansions
    requires e in states[i].slots && f in others[j].slots
    requires forall g :: g in states[i].slots[e] <==> g in others[j].slots[f]
    ensures states[i].db.expansions[e].extra == others[j].db.expansions[f].extra
    ensures states[i].db.expansions[e].expires == others[j].db.expansions[f].expires
  {
    EveryStateIsSafe(states, i);
    EveryStateIsSafe(others, j);
    X.JoinIgnoresOrder(states[i].slots[e], others[j].slots[f]);
  }

  // ----- Accounts -----------------------------------------------------------------------------------------

  /** An account merged away never comes back, and nothing refers to it. */
  lemma MergedAccountsStayGone(states: seq<Sys>, i: nat, u: nat)
    requires Run(states) && i < |states| && u in states[i].gone
    ensures M.Unmentioned(states[i].db, u)
  {
    EveryStateIsSafe(states, i);
  }

  lemma SafeExpansionsAreLegal(s: Sys)
    requires Safe(s)
    ensures ExpansionsOk(s.db.expansions, s.db.users)
  {
  }

  /** The effective device limit stays between four and six. */
  lemma DeviceLimitIsFourToSix(states: seq<Sys>, i: nat, u: nat, found: Option<nat>)
    requires Run(states) && i < |states| && IsExpansionOf(states[i].db.expansions, u, found)
    ensures var limit := DEVICE_MAX_PER_USER + Owned(states[i].db.expansions, found, states[i].db.now);
            && 4 <= limit <= 6
            && (limit > 4 <==> found.Some? && states[i].db.expansions[found.value].expires > states[i].db.now)
  {
    hide Safe, Run;
    EveryStateIsSafe(states, i);
    SafeExpansionsAreLegal(states[i]);
  }
}
