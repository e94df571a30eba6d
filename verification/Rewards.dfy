/** Referral rewards over every run: credited once, clawed back at most once, never left pending. */
module Rewards {
  import opened Prelude
  import opened Domain
  import opened Tables
  import opened Transactions
  import opened Merge
  import opened Sums
  import opened System
  import opened Ledger
  import opened Jobs

  // ----- The invariant ----------------------------------------------------------------------

  /** One reward row against its ledger rows. */
  ghost predicate Accounted(row: Reward, ledger: seq<Row>, w: nat) {
    && row.immediate == row.amount > 0
    && (row.status == Immediate || row.status == Reverted)
    && Rows(ledger, RewardCredit(w)) == 1 && Booked(ledger, RewardCredit(w)) == row.immediate
    && Rows(ledger, ClawbackOf(w)) <= (if row.status == Reverted then 1 else 0)
    && -row.immediate <= Booked(ledger, ClawbackOf(w)) <= 0
    && (Rows(ledger, ClawbackOf(w)) == 0 ==> Booked(ledger, ClawbackOf(w)) == 0)
  }

  ghost predicate AllAccounted(rewards: map<nat, Reward>, ledger: seq<Row>) {
    forall w | w in rewards :: Accounted(rewards[w], ledger, w)
  }

  /** A reward belongs to a confirmed payment, whose one reward job is used up unless its confirmation was retaken. */
  ghost predicate JobsUsedUp(rewards: map<nat, Reward>, commits: multiset<Key>, rewardJobs: multiset<RewardJob>,
          retaken: set<Key>) {
    && (forall w | w in rewards :: commits[(rewards[w].payment, CONFIRMED)] >= 1)
    && (forall w, o | w in rewards && o in rewardJobs && rewards[w].payment == o.payment :: Retaken(retaken, o.payment))
  }

  /** A payment's reward is paid again, if ever, with a positive amount and after its confirmation was handled again. */
  ghost predicate RepaymentsCaused(repaid: map<nat, seq<Again>>, retaken: set<Key>) {
    forall r, i | r in repaid && 0 <= i < |repaid[r]| :: repaid[r][i].yad > 0 && Retaken(retaken, repaid[r][i].payment)
  }

  /** What each reward adds to the totals of referral r. */
  ghost function Earned(rewards: map<nat, Reward>, r: nat): map<nat, int> {
    map w | w in rewards :: if rewards[w].referral == r then rewards[w].amount else 0
  }

  function PaidAgain(again: seq<Again>): int {
    if again == [] then 0 else PaidAgain(again[..|again| - 1]) + again[|again| - 1].yad
  }

  lemma PaidAgainSnoc(again: seq<Again>, a: Again)
    ensures PaidAgain(again + [a]) == PaidAgain(again) + a.yad
  {
    assert (again + [a])[..|again|] == again;
  }

  lemma {:induction false} PaidAgainIsPositive(again: seq<Again>)
    requires forall i | 0 <= i < |again| :: again[i].yad > 0
    ensures PaidAgain(again) >= 0 && (PaidAgain(again) == 0 <==> again == [])
  {
    if again != [] {
      PaidAgainIsPositive(again[..|again| - 1]);
    }
  }

  /** A referral's total is the sum of its rewards and of what was added again for payments that had theirs. */
  ghost predicate TotalsOk(referrals: map<nat, Referral>, rewards: map<nat, Reward>, repaid: map<nat, seq<Again>>) {
    forall r | r in referrals :: referrals[r].totalReward == Sum(Earned(rewards, r)) + PaidAgain(Agains(repaid, r))
  }

  // ----- The ledger under other reasons --------------------------------------------------------

  predicate IsRewardReason(reason: Reason) {
    reason.RewardCredit? || reason.ClawbackOf?
  }

  lemma OtherReasonsStand(db: DB, after: DB, reason: Reason, other: Reason)
    requires BooksUnder(db, after, reason) && other != reason
    ensures Booked(after.ledger, other) == Booked(db.ledger, other)
        && Rows(after.ledger, other) == Rows(db.ledger, other)
  {
    if !Quiet(db, after) {
      Snoc(db.ledger, after.ledger[|db.ledger|], 0, other);
    }
  }

  lemma ForeignBookingKeepsAccounts(db: DB, after: DB, reason: Reason)
    requires BooksUnder(db, after, reason) && !IsRewardReason(reason) && after.rewards == db.rewards
    requires AllAccounted(db.rewards, db.ledger)
    ensures AllAccounted(after.rewards, after.ledger)
  {
    forall w | w in db.rewards ensures Accounted(after.rewards[w], after.ledger, w) {
      OtherReasonsStand(db, after, reason, RewardCredit(w));
      OtherReasonsStand(db, after, reason, ClawbackOf(w));
    }
  }

  // ----- The three transactions that touch rewards ------------------------------------------------

  lemma NewRewardAddsARow(db: DB, w: nat, r: nat, referrer: nat, payment: nat, paid: int, yad: nat)
    requires PayReward(db, w, r, referrer, payment, paid, yad).Ok? && !PaidFor(db.rewards, payment)
    ensures var after := PayReward(db, w, r, referrer, payment, paid, yad).value;
            && w !in db.rewards
            && after.rewards == db.rewards[w := Reward(r, payment, referrer, yad, yad, Immediate)]
            && after.ledger == db.ledger + [Row(referrer, yad, db.users[referrer].balance + yad, RewardCredit(w))]
  {
  }

  lemma NewRewardIsAccounted(db: DB, w: nat, r: nat, referrer: nat, payment: nat, paid: int, yad: nat)
    requires PayReward(db, w, r, referrer, payment, paid, yad).Ok? && !PaidFor(db.rewards, payment) && yad > 0
    requires Unbooked(db.ledger, RewardCredit(w)) && Unbooked(db.ledger, ClawbackOf(w))
    requires AllAccounted(db.rewards, db.ledger)
    ensures var after := PayReward(db, w, r, referrer, payment, paid, yad).value;
            && AllAccounted(after.rewards, after.ledger)
            && after.rewards == db.rewards[w := Reward(r, payment, referrer, yad, yad, Immediate)] && w !in db.rewards
  {
    NewRewardAddsARow(db, w, r, referrer, payment, paid, yad);
    var row := Row(referrer, yad, db.users[referrer].balance + yad, RewardCredit(w));
    CreditedRowIsAccounted(db.rewards, db.ledger, w, Reward(r, payment, referrer, yad, yad, Immediate), row);
  }

  lemma CreditedRowIsAccounted(rewards: map<nat, Reward>, ledger: seq<Row>, w: nat, reward: Reward, row: Row)
    requires AllAccounted(rewards, ledger) && w !in rewards && row.reason == RewardCredit(w)
        && row.delta == reward.immediate
    requires reward.status == Immediate && reward.immediate == reward.amount > 0
    requires Unbooked(ledger, RewardCredit(w)) && Unbooked(ledger, ClawbackOf(w))
    ensures AllAccounted(rewards[w := reward], ledger + [row])
  {
    FreshReasonsAreUnbooked(ledger, RewardCredit(w));
    FreshReasonsAreUnbooked(ledger, ClawbackOf(w));
    var after := rewards[w := reward];
    forall x | x in after ensures Accounted(after[x], ledger + [row], x) {
      Snoc(ledger, row, 0, RewardCredit(x));
      Snoc(ledger, row, 0, ClawbackOf(x));
    }
  }

  lemma NewRewardIsTotalled(db: DB, w: nat, r: nat, referrer: nat, payment: nat, paid: int, yad: nat,
          repaid: map<nat, seq<Again>>)
    requires PayReward(db, w, r, referrer, payment, paid, yad).Ok? && !PaidFor(db.rewards, payment) && w !in db.rewards
    requires TotalsOk(db.referrals, db.rewards, repaid)
    ensures var after := PayReward(db, w, r, referrer, payment, paid, yad).value;
            TotalsOk(after.referrals, after.rewards, repaid)
  {
    var after := PayReward(db, w, r, referrer, payment, paid, yad).value;
    forall q | q in after.referrals
      ensures after.referrals[q].totalReward == Sum(Earned(after.rewards, q)) + PaidAgain(Agains(repaid, q))
    {
      var before: map<nat, int> := Earned(db.rewards, q);
      SumPut(before, w, if q == r then yad else 0);
      SumIgnoresZeros(before[w := if q == r then yad else 0], Earned(after.rewards, q));
    }
  }

  /** A second credit for a payment that has its reward: no reward row changes, the books gain a row of no reward. */
  lemma RepaymentKeepsAccounts(db: DB, w: nat, r: nat, referrer: nat, payment: nat, paid: int, yad: nat)
    requires PayReward(db, w, r, referrer, payment, paid, yad).Ok? && PaidFor(db.rewards, payment)
    requires Unbooked(db.ledger, RewardCredit(w)) && AllAccounted(db.rewards, db.ledger)
    ensures var after := PayReward(db, w, r, referrer, payment, paid, yad).value;
            && after.rewards == db.rewards && AllAccounted(after.rewards, after.ledger)
            && after.referrals == BumpReferral(db.referrals, r, paid, yad)
  {
    FreshReasonsAreUnbooked(db.ledger, RewardCredit(w));
    assert w in db.rewards ==> Rows(db.ledger, RewardCredit(w)) == 1;
    OtherAccountsStand(db.rewards, db.ledger, Row(referrer, yad, db.users[referrer].balance + yad, RewardCredit(w)), w);
  }

  /** A credit under a reward that is not there touches no account. */
  lemma OtherAccountsStand(rewards: map<nat, Reward>, ledger: seq<Row>, row: Row, w: nat)
    requires row.reason == RewardCredit(w) && w !in rewards && AllAccounted(rewards, ledger)
    ensures AllAccounted(rewards, ledger + [row])
  {
    forall x | x in rewards ensures Accounted(rewards[x], ledger + [row], x) {
      Snoc(ledger, row, 0, RewardCredit(x));
      Snoc(ledger, row, 0, ClawbackOf(x));
    }
  }

  lemma ReversalKeepsRows(db: DB, reward: Option<nat>)
    requires reward.Some? ==> reward.value in db.rewards && db.rewards[reward.value].referrer in db.users
    ensures var after := UndoReward(db, reward).rewards;
            && after.Keys == db.rewards.Keys
            && forall w | w in db.rewards ::
                 var turned := reward == Some(w) && Revertible(db.rewards[w].status);
                 after[w] == db.rewards[w].(status := if turned then Reverted else db.rewards[w].status)
  {
  }

  /** The ledger rows a reversal adds: one for the amount taken, or none. */
  lemma ReversalBooksTheTake(db: DB, reward: Option<nat>, reason: Reason)
    requires reward.Some? ==> reward.value in db.rewards && db.rewards[reward.value].referrer in db.users
    ensures var after, w := UndoReward(db, reward), if reward.Some? then reward.value else 0;
            var take := if reward.Some? && Revertible(db.rewards[w].status) && db.rewards[w].immediate > 0
                        then Min(db.users[db.rewards[w].referrer].balance, db.rewards[w].immediate) else 0;
            var more := reason == ClawbackOf(w) && take != 0;
            && Rows(after.ledger, reason) == Rows(db.ledger, reason) + (if more then 1 else 0)
            && Booked(after.ledger, reason) == Booked(db.ledger, reason) - (if more then take else 0)
  {
    if reward.Some? {
      var row := db.rewards[reward.value];
      var take := Min(db.users[row.referrer].balance, row.immediate);
      var booked := Row(row.referrer, -take, db.users[row.referrer].balance - take, ClawbackOf(reward.value));
      assert UndoReward(db, reward).ledger
          == if Revertible(row.status) && row.immediate > 0 && take != 0 then db.ledger + [booked] else db.ledger;
      Snoc(db.ledger, booked, 0, reason);
    }
  }

  /** A reversal turns the row over once; the amount taken is at most the amount credited. */
  lemma ReversedRewardIsAccounted(db: DB, reward: Option<nat>)
    requires reward.Some? ==> reward.value in db.rewards && db.rewards[reward.value].referrer in db.users
    requires AllAccounted(db.rewards, db.ledger) && forall u | u in db.users :: db.users[u].balance >= 0
    ensures var after := UndoReward(db, reward); AllAccounted(after.rewards, after.ledger)
  {
    hide UndoReward, Clawback, Booked, Rows;
    var after := UndoReward(db, reward);
    ReversalKeepsRows(db, reward);
    forall x | x in after.rewards ensures Accounted(after.rewards[x], after.ledger, x) {
      assert Accounted(db.rewards[x], db.ledger, x);
      ReversalBooksTheTake(db, reward, RewardCredit(x));
      ReversalBooksTheTake(db, reward, ClawbackOf(x));
    }
  }

  lemma SameTotals(referrals: map<nat, Referral>, rewards: map<nat, Reward>, after: map<nat, Reward>,
          repaid: map<nat, seq<Again>>)
    requires TotalsOk(referrals, rewards, repaid) && after.Keys == rewards.Keys
    requires forall w | w in rewards :: after[w].referral == rewards[w].referral && after[w].amount == rewards[w].amount
    ensures TotalsOk(referrals, after, repaid)
  {
    forall r | r in referrals
      ensures referrals[r].totalReward == Sum(Earned(after, r)) + PaidAgain(Agains(repaid, r))
    {
      SumIgnoresZeros(Earned(rewards, r), Earned(after, r));
    }
  }

  lemma MergeKeepsAccounts(db: DB, src: nat, dst: nat)
    requires src in db.users && src != dst && AllAccounted(db.rewards, db.ledger)
    ensures AllAccounted(Merged(db, src, dst).rewards, Merged(db, src, dst).ledger)
  {
    forall w | w in Merged(db, src, dst).rewards
      ensures Accounted(Merged(db, src, dst).rewards[w], MoveLedger(db.ledger, src, dst), w)
    {
      MoveLedgerMovesDeltas(db.ledger, src, dst, 0, RewardCredit(w));
      MoveLedgerMovesDeltas(db.ledger, src, dst, 0, ClawbackOf(w));
    }
  }

  /** A merge drops a reward only together with its referral. */
  lemma MergeKeepsTotals(referrals: map<nat, Referral>, rewards: map<nat, Reward>, src: nat, dst: nat,
          repaid: map<nat, seq<Again>>)
    requires TotalsOk(referrals, rewards, repaid)
    ensures TotalsOk(MergedReferrals(referrals, src, dst), MergedRewards(rewards, referrals, src, dst), repaid)
  {
    var kept := MergedReferrals(referrals, src, dst);
    forall r | r in kept
      ensures kept[r].totalReward
           == Sum(Earned(MergedRewards(rewards, referrals, src, dst), r)) + PaidAgain(Agains(repaid, r))
    {
      SumIgnoresZeros(Earned(MergedRewards(rewards, referrals, src, dst), r), Earned(rewards, r));
    }
  }

  lemma NewReferralHasNoRewards(db: DB, r: nat, referrer: nat, referee: nat, repaid: map<nat, seq<Again>>)
    requires r !in db.referrals && TotalsOk(db.referrals, db.rewards, repaid)
    requires RewardsOk(db.rewards, db.referrals, db.payments, db.users)
    ensures TotalsOk(db.referrals[r := Referral(referrer, referee, 0, 0)], db.rewards, repaid - {r})
  {
    var nothing: map<nat, int> := map[];
    SumIgnoresZeros(nothing, Earned(db.rewards, r));
  }

  // ----- Every step keeps the law --------------------------------------------------------------------

  ghost predicate RewardLaw(s: Sys) {
    && AllAccounted(s.db.rewards, s.db.ledger)
    && JobsUsedUp(s.db.rewards, s.commits, s.rewardJobs, s.retaken)
    && TotalsOk(s.db.referrals, s.db.rewards, s.repaid) && RepaymentsCaused(s.repaid, s.retaken)
  }

  /** A reward that is accounted for is never read as pending. */
  lemma NothingIsPending(s: Sys, w: nat)
    requires AllAccounted(s.db.rewards, s.db.ledger)
    ensures w in s.db.rewards ==> s.db.rewards[w].status != Pending
    ensures !Reads(s, PayoutPending(w))
  {
    if w in s.db.rewards {
      assert Accounted(s.db.rewards[w], s.db.ledger, w);
    }
  }

  predicate WritesRewards(tx: Tx) {
    tx.RewardReferral? || tx.PayoutPending? || tx.SettleEvent? || tx.MergeAccounts?
  }

  lemma OthersLeaveRewards(s: Sys, tx: Tx, after: DB)
    requires Reads(s, tx) && Effect(s, tx) == Ok(after) && !WritesRewards(tx)
    ensures after.rewards == s.db.rewards
    ensures if tx.Refer? then after.referrals == s.db.referrals[tx.r := Referral(tx.referrerId, tx.referee, 0, 0)]
        && tx.r !in s.db.referrals
            else after.referrals == s.db.referrals
  {
    hide Settle, Grant, Buy, StartTrial, Credit, UsePromo, PayReward, Payout, BuySlots, GrantSlots;
    if tx.Activate? || tx.Assign? || tx.BuyPlan? || tx.BeginTrial? {
    } else if tx.Adjust? || tx.ApplyPromo? || tx.BuyExpansion? || tx.ActivateSlots? {
    }
  }

  /** The reward part of a settled event. */
  lemma SettledRewards(db: DB, p: nat, u: nat, event: PaymentStatus, seen: Payment, target: Option<nat>,
          reward: Option<nat>)
    requires target.Some? ==> target.value in db.subs
    requires reward.Some? ==> reward.value in db.rewards && db.rewards[reward.value].referrer in db.users
    requires Settle(db, p, u, event, seen, target, reward).Ok?
    requires AllAccounted(db.rewards, db.ledger) && forall v | v in db.users :: db.users[v].balance >= 0
    ensures var after := Settle(db, p, u, event, seen, target, reward).value;
            && AllAccounted(after.rewards, after.ledger) && after.rewards.Keys == db.rewards.Keys
                && after.referrals == db.referrals
            && forall w | w in db.rewards :: after.rewards[w] == db.rewards[w].(status := after.rewards[w].status)
  {
    hide Undo, UndoReward, AllAccounted, BooksUnder, SetStatus, AddLtv;
    if IsReversal(event) && seen.status == CONFIRMED {
      UndoIsQuiet(db, p, u, seen, event, target);
      ReversedRewardIsAccounted(Undo(db, p, u, seen, event, target), reward);
      ReversalKeepsRows(Undo(db, p, u, seen, event, target), reward);
    } else {
      SettleBooks(db, p, u, event, seen, target, reward);
    }
  }

  lemma OthersKeepAccounts(s: Sys, tx: Tx, after: DB)
    requires Reads(s, tx) && Effect(s, tx) == Ok(after) && !WritesRewards(tx) && !tx.Register?
    requires AllAccounted(s.db.rewards, s.db.ledger)
    ensures AllAccounted(after.rewards, after.ledger)
  {
    TransactionsBookOneRow(s, tx, after);
    OthersLeaveRewards(s, tx, after);
    ForeignBookingKeepsAccounts(s.db, after, if Heading(s, tx).Some? then Heading(s, tx).value else Spent);
  }

  lemma CommitKeepsAccounts(s: Sys, tx: Tx, after: DB)
    requires Reads(s, tx) && Effect(s, tx) == Ok(after) && UsersOk(s.db.users)
    requires AllAccounted(s.db.rewards, s.db.ledger)
    ensures AllAccounted(after.rewards, after.ledger)
  {
    NothingIsPending(s, if tx.PayoutPending? then tx.w else 0);
    if tx.RewardReferral? {
      var job, yad := tx.rewardJob, RewardYAD(tx.rewardJob.paid, tx.risk);
      if PaidFor(s.db.rewards, job.payment) {
        RepaymentKeepsAccounts(s.db, tx.w, tx.r, tx.referrerId, job.payment, job.paid, yad);
      } else {
        NewRewardIsAccounted(s.db, tx.w, tx.r, tx.referrerId, job.payment, job.paid, yad);
      }
    } else if tx.SettleEvent? {
      SettledRewards(s.db, tx.key.0, s.flight[tx.key].user, tx.key.1, s.flight[tx.key].seen, tx.target, tx.reward);
    } else if tx.MergeAccounts? {
      MergeKeepsAccounts(s.db, tx.src, tx.dst);
    } else if !tx.Register? {
      OthersKeepAccounts(s, tx, after);
    }
  }

  lemma RepaymentIsTotalled(referrals: map<nat, Referral>, rewards: map<nat, Reward>, repaid: map<nat, seq<Again>>,
          r: nat, paid: int, a: Again)
    requires TotalsOk(referrals, rewards, repaid)
    ensures TotalsOk(BumpReferral(referrals, r, paid, a.yad), rewards, repaid[r := Agains(repaid, r) + [a]])
  {
    PaidAgainSnoc(Agains(repaid, r), a);
  }

  /** A first reward adds to the totals what it adds to the rewards; one paid again is remembered with its referral. */
  lemma RewardKeepsTotals(s: Sys, tx: Tx, after: DB)
    requires tx.RewardReferral? && Reads(s, tx) && Effect(s, tx) == Ok(after)
    requires AllAccounted(s.db.rewards, s.db.ledger) && TotalsOk(s.db.referrals, s.db.rewards, s.repaid)
    ensures TotalsOk(after.referrals, after.rewards, RepaidAfter(s, tx))
  {
    hide AllAccounted, TotalsOk;
    var job, yad := tx.rewardJob, RewardYAD(tx.rewardJob.paid, tx.risk);
    if PaidFor(s.db.rewards, job.payment) {
      RepaymentKeepsAccounts(s.db, tx.w, tx.r, tx.referrerId, job.payment, job.paid, yad);
      RepaymentIsTotalled(s.db.referrals, s.db.rewards, s.repaid, tx.r, job.paid, Again(job.payment, yad));
    } else {
      NewRewardIsAccounted(s.db, tx.w, tx.r, tx.referrerId, job.payment, job.paid, yad);
      NewRewardIsTotalled(s.db, tx.w, tx.r, tx.referrerId, job.payment, job.paid, yad, s.repaid);
    }
  }

  lemma CommitKeepsTotals(s: Sys, tx: Tx, after: DB)
    requires Reads(s, tx) && Effect(s, tx) == Ok(after) && RewardLaw(s) && UsersOk(s.db.users)
    requires RewardsOk(s.db.rewards, s.db.referrals, s.db.payments, s.db.users)
    ensures TotalsOk(after.referrals, after.rewards, RepaidAfter(s, tx))
  {
    hide AllAccounted, RewardsOk, Settle, PayReward, Payout, TotalsOk;
    NothingIsPending(s, if tx.PayoutPending? then tx.w else 0);
    if tx.RewardReferral? {
      RewardKeepsTotals(s, tx, after);
    } else if tx.SettleEvent? {
      SettledRewards(s.db, tx.key.0, s.flight[tx.key].user, tx.key.1, s.flight[tx.key].seen, tx.target, tx.reward);
      SameTotals(s.db.referrals, s.db.rewards, after.rewards, s.repaid);
    } else if tx.MergeAccounts? {
      MergeKeepsTotals(s.db.referrals, s.db.rewards, tx.src, tx.dst, s.repaid);
    } else {
      OthersLeaveRewards(s, tx, after);
      if tx.Refer? {
        NewReferralHasNoRewards(s.db, tx.r, tx.referrerId, tx.referee, s.repaid);
      }
    }
  }

  lemma PaidJobIsUsedUp(rewards: map<nat, Reward>, commits: multiset<Key>, offered: multiset<RewardJob>,
                        rewardJobs: multiset<RewardJob>, retaken: set<Key>, job: RewardJob, w: nat, row: Reward)
    requires JobsUsedUp(rewards, commits, rewardJobs, retaken) && OneOfferPerPayment(offered, commits, retaken)
    requires rewardJobs <= offered && job in rewardJobs && row.payment == job.payment
    ensures JobsUsedUp(rewards[w := row], commits, rewardJobs - multiset{job}, retaken)
  {
    assert Retaken(retaken, job.payment) || rewardJobs[job] <= offered[job] == 1;
  }

  lemma NewOfferIsOpen(rewards: map<nat, Reward>, after: map<nat, Reward>, commits: multiset<Key>, key: Key,
                       rewardJobs: multiset<RewardJob>, more: multiset<RewardJob>, retaken: set<Key>)
    requires JobsUsedUp(rewards, commits, rewardJobs, retaken) && (key in retaken || commits[key] == 0)
    requires after.Keys == rewards.Keys && forall w | w in rewards :: after[w].payment == rewards[w].payment
    requires forall o | o in more :: key == (o.payment, CONFIRMED)
    ensures JobsUsedUp(after, commits + multiset{key}, rewardJobs + more, retaken)
  {
  }

  lemma SettleUsesUpJobs(s: Sys, tx: Tx, after: DB)
    requires tx.SettleEvent? && Reads(s, tx) && Effect(s, tx) == Ok(after) && UsersOk(s.db.users)
    requires AllAccounted(s.db.rewards, s.db.ledger) && JobsUsedUp(s.db.rewards, s.commits, s.rewardJobs, s.retaken)
    requires tx.key in s.retaken || s.commits[tx.key] == 0
    ensures JobsUsedUp(after.rewards, CommitsAfter(s, tx), RewardJobsAfter(s, tx), s.retaken)
  {
    SettledRewards(s.db, tx.key.0, s.flight[tx.key].user, tx.key.1, s.flight[tx.key].seen, tx.target, tx.reward);
    NewOfferIsOpen(s.db.rewards, after.rewards, s.commits, tx.key, s.rewardJobs, Offered(s, tx), s.retaken);
  }

  lemma RewardUsesUpJob(s: Sys, tx: Tx, after: DB)
    requires tx.RewardReferral? && Reads(s, tx) && Effect(s, tx) == Ok(after) && AllAccounted(s.db.rewards, s.db.ledger)
    requires JobsUsedUp(s.db.rewards, s.commits, s.rewardJobs, s.retaken)
    requires OneOfferPerPayment(s.offered, s.commits, s.retaken) && s.rewardJobs <= s.offered
    ensures JobsUsedUp(after.rewards, CommitsAfter(s, tx), RewardJobsAfter(s, tx), s.retaken)
  {
    var job, w, yad := tx.rewardJob, tx.w, RewardYAD(tx.rewardJob.paid, tx.risk);
    if PaidFor(s.db.rewards, job.payment) {
      RepaymentKeepsAccounts(s.db, w, tx.r, tx.referrerId, job.payment, job.paid, yad);
    } else {
      NewRewardIsAccounted(s.db, w, tx.r, tx.referrerId, job.payment, job.paid, yad);
      PaidJobIsUsedUp(s.db.rewards, s.commits, s.offered, s.rewardJobs, s.retaken, job, w, after.rewards[w]);
    }
  }

  lemma MergeUsesUpJobs(db: DB, src: nat, dst: nat, commits: multiset<Key>, rewardJobs: multiset<RewardJob>,
          retaken: set<Key>)
    requires src in db.users && JobsUsedUp(db.rewards, commits, rewardJobs, retaken)
    ensures JobsUsedUp(Merged(db, src, dst).rewards, commits, rewardJobs, retaken)
  {
  }

  lemma CommitUsesUpJobs(s: Sys, tx: Tx, after: DB)
    requires Reads(s, tx) && Effect(s, tx) == Ok(after) && UsersOk(s.db.users)
    requires AllAccounted(s.db.rewards, s.db.ledger) && JobsUsedUp(s.db.rewards, s.commits, s.rewardJobs, s.retaken)
    requires tx.SettleEvent? ==> tx.key in s.retaken || s.commits[tx.key] == 0
    requires tx.RewardReferral? ==> OneOfferPerPayment(s.offered, s.commits, s.retaken) && s.rewardJobs <= s.offered
    ensures JobsUsedUp(after.rewards, CommitsAfter(s, tx), RewardJobsAfter(s, tx), s.retaken)
  {
    hide AllAccounted, JobsUsedUp, OneOfferPerPayment, UsersOk, Settle, PayReward, Payout;
    NothingIsPending(s, if tx.PayoutPending? then tx.w else 0);
    if tx.RewardReferral? {
      RewardUsesUpJob(s, tx, after);
    } else if tx.SettleEvent? {
      SettleUsesUpJobs(s, tx, after);
    } else {
      assert RewardJobsAfter(s, tx) == s.rewardJobs && CommitsAfter(s, tx) == s.commits;
      if tx.MergeAccounts? {
        MergeUsesUpJobs(s.db, tx.src, tx.dst, s.commits, s.rewardJobs, s.retaken);
      } else {
        OthersLeaveRewards(s, tx, after);
      }
    }
  }

  lemma CommitKeepsRepayments(s: Sys, tx: Tx)
    requires Reads(s, tx) && Effect(s, tx).Ok? && RepaymentsCaused(s.repaid, s.retaken)
    requires JobsUsedUp(s.db.rewards, s.commits, s.rewardJobs, s.retaken)
    ensures RepaymentsCaused(RepaidAfter(s, tx), s.retaken)
  {
    if tx.RewardReferral? && PaidFor(s.db.rewards, tx.rewardJob.payment) {
      assert Retaken(s.retaken, tx.rewardJob.payment);
    }
  }

  lemma CommitKeepsRewards(s: Sys, tx: Tx)
    requires RewardLaw(s) && Enabled(s, Commit(tx)) && FirstCommit(s, Commit(tx))
    requires OneOfferPerPayment(s.offered, s.commits, s.retaken) && s.rewardJobs <= s.offered
    ensures RewardLaw(Next(s, Commit(tx)))
  {
    hide AllAccounted, JobsUsedUp, TotalsOk, RepaymentsCaused, OneOfferPerPayment;
    var after := Effect(s, tx).value;
    CommitKeepsAccounts(s, tx, after);
    CommitKeepsTotals(s, tx, after);
    CommitUsesUpJobs(s, tx, after);
    CommitKeepsRepayments(s, tx);
  }

  lemma LooseningKeepsRewards(s: Sys, rewardJobs: multiset<RewardJob>, retaken: set<Key>)
    requires RewardLaw(s) && rewardJobs <= s.rewardJobs && s.retaken <= retaken
    ensures JobsUsedUp(s.db.rewards, s.commits, rewardJobs, retaken) && RepaymentsCaused(s.repaid, retaken)
  {
    hide AllAccounted, TotalsOk;
  }

  /** A referral whose total adds up still adds up after a reward if and only if the payment had no reward yet. */
  lemma RewardKeepsTheTotalIff(s: Sys, tx: Tx, after: DB)
    requires tx.RewardReferral? && Reads(s, tx) && Effect(s, tx) == Ok(after) && tx.r in s.db.referrals
    requires AllAccounted(s.db.rewards, s.db.ledger)
    requires s.db.referrals[tx.r].totalReward == Sum(Earned(s.db.rewards, tx.r))
    ensures tx.r in after.referrals
    ensures after.referrals[tx.r].totalReward == Sum(Earned(after.rewards, tx.r))
            <==> !PaidFor(s.db.rewards, tx.rewardJob.payment)
  {
    hide AllAccounted;
    var job, yad := tx.rewardJob, RewardYAD(tx.rewardJob.paid, tx.risk);
    if PaidFor(s.db.rewards, job.payment) {
      RepaymentKeepsAccounts(s.db, tx.w, tx.r, tx.referrerId, job.payment, job.paid, yad);
    } else {
      NewRewardIsAccounted(s.db, tx.w, tx.r, tx.referrerId, job.payment, job.paid, yad);
      var before: map<nat, int> := Earned(s.db.rewards, tx.r);
      SumPut(before, tx.w, yad);
      SumIgnoresZeros(before[tx.w := yad], Earned(after.rewards, tx.r));
    }
  }

  lemma StepKeepsRewards(s: Sys, step: Step)
    requires RewardLaw(s) && Enabled(s, step) && FirstCommit(s, step)
    requires OneOfferPerPayment(s.offered, s.commits, s.retaken) && s.rewardJobs <= s.offered
    ensures RewardLaw(Next(s, step))
  {
    hide Enabled, Committed, AllAccounted, TotalsOk, JobsUsedUp, RepaymentsCaused, OneOfferPerPayment;
    if step.Commit? {
      CommitKeepsRewards(s, step.tx);
    } else {
      LooseningKeepsRewards(s, Next(s, step).rewardJobs, Next(s, step).retaken);
    }
  }
}
