/** Subscription rows against the recorded history of their expiry. */
module History {
  import opened Prelude
  import opened Domain
  import opened Tables
  import opened Transactions
  import opened Merge
  import opened System
  import opened Expiry
  import opened Jobs

  /**
   A row's expiry is the fold of its history, which begins with the creation: an
   extension of a row that expired at the creation stamp.
   */
  ghost predicate Explains(history: seq<Op>, expires: int, now: int) {
    && history != [] && history[0].Extend?
    && Timeline(history[0].at, history, now)
    && expires == Fold(history[0].at, history)
  }

  ghost predicate HistoryLaw(subs: map<nat, Sub>, history: map<nat, seq<Op>>, now: int) {
    && subs.Keys == history.Keys
    && forall s | s in subs :: Explains(history[s], subs[s].expires, now)
  }

  lemma OneMoreOp(history: seq<Op>, expires: int, now: int, op: Op)
    requires Explains(history, expires, now) && op.at == now
    ensures Explains(history + [op], Apply(expires, op), now)
  {
    assert (history + [op])[..|history|] == history;
  }

  lemma CreationExplains(at: int, days: nat, now: int)
    requires at <= now
    ensures Explains([Extend(at, days)], at + days, now)
  {
    assert [Extend(at, days)][..0] == [];
  }

  lemma TimePasses(history: seq<Op>, expires: int, now: int, later: int)
    requires Explains(history, expires, now) && now <= later
    ensures Explains(history, expires, later)
  {
  }

  /** The transaction moves exactly one row's expiry, as the recorded operation says. */
  ghost predicate Performs(subs: map<nat, Sub>, after: map<nat, Sub>, op: Option<(nat, Op)>, now: int) {
    match op
    case None => after.Keys == subs.Keys && forall s | s in subs :: after[s].expires == subs[s].expires
    case Some((row, o)) =>
      && after.Keys == subs.Keys + {row}
      && (forall s | s in subs && s != row :: after[s].expires == subs[s].expires)
      && if row in subs then o.at == now && after[row].expires == Apply(subs[row].expires, o)
         else o.Extend? && o.at <= now && after[row].expires == o.at + o.days
  }

  /** No row comes, goes or changes hands. */
  ghost predicate SameOwners(subs: map<nat, Sub>, after: map<nat, Sub>) {
    after.Keys == subs.Keys && forall row | row in subs :: after[row].user == subs[row].user
  }

  function ReversalOp(now: int, seen: Payment, target: Option<nat>): Option<(nat, Op)> {
    if target.Some? && !IsExpansionPlan(seen.plan) && PlanDays(seen.plan) > 0
    then Some((target.value, Contract(now, PlanDays(seen.plan) * DAY))) else None
  }

  lemma ContractionPerforms(subs: map<nat, Sub>, row: nat, now: int, days: nat)
    requires row in subs
    ensures var after := subs[row := ContractRow(subs[row], now, days)];
            Performs(subs, after, Some((row, Contract(now, days * DAY))), now) && SameOwners(subs, after)
  {
  }

  lemma NothingPerformed(subs: map<nat, Sub>, now: int)
    ensures Performs(subs, subs, None, now) && SameOwners(subs, subs)
  {
  }

  lemma UndoPerforms(db: DB, p: nat, u: nat, seen: Payment, status: PaymentStatus, target: Option<nat>)
    requires u in db.users && (target.Some? ==> target.value in db.subs)
    ensures var after := Undo(db, p, u, seen, status, target).subs;
            Performs(db.subs, after, ReversalOp(db.now, seen, target), db.now) && SameOwners(db.subs, after)
  {
    hide Performs, SameOwners, ContractRow, DropExpansions, SetStatus, AddLtv;
    if ReversalOp(db.now, seen, target).Some? {
      ContractionPerforms(db.subs, target.value, db.now, PlanDays(seen.plan));
    } else {
      NothingPerformed(db.subs, db.now);
    }
  }

  lemma RevertPerforms(db: DB, p: nat, u: nat, seen: Payment, status: PaymentStatus, target: Option<nat>,
          reward: Option<nat>)
    requires target.Some? ==> target.value in db.subs
    requires reward.Some? ==> reward.value in db.rewards && db.rewards[reward.value].referrer in db.users
    requires Revert(db, p, u, seen, status, target, reward).Ok?
    ensures var after := Revert(db, p, u, seen, status, target, reward).value.subs;
            && Performs(db.subs, after,
                        if seen.status == CONFIRMED then ReversalOp(db.now, seen, target) else None, db.now)
            && SameOwners(db.subs, after)
  {
    hide Undo, UndoReward;
    if seen.status == CONFIRMED {
      UndoPerforms(db, p, u, seen, status, target);
    }
  }

  lemma SettledRowPerforms(db: DB, p: nat, u: nat, event: PaymentStatus, seen: Payment, target: Option<nat>,
          reward: Option<nat>)
    requires target.Some? ==> target.value in db.subs
    requires reward.Some? ==> reward.value in db.rewards && db.rewards[reward.value].referrer in db.users
    requires Settle(db, p, u, event, seen, target, reward).Ok?
    ensures var after := Settle(db, p, u, event, seen, target, reward).value.subs;
            var undone := IsReversal(event) && seen.status == CONFIRMED;
            && Performs(db.subs, after, if undone then ReversalOp(db.now, seen, target) else None, db.now)
            && SameOwners(db.subs, after)
  {
    hide Revert, Performs, SameOwners;
    if IsReversal(event) {
      RevertPerforms(db, p, u, seen, event, target, reward);
    } else {
      NothingPerformed(db.subs, db.now);
    }
  }

  lemma SettlePerforms(s: Sys, tx: Tx, after: DB)
    requires tx.SettleEvent? && Reads(s, tx) && Effect(s, tx) == Ok(after)
    ensures Performs(s.db.subs, after.subs, ExpiryOp(s, tx), s.db.now) && SameOwners(s.db.subs, after.subs)
  {
    hide Settle, Performs, SameOwners;
    var flight := s.flight[tx.key];
    SettledRowPerforms(s.db, tx.key.0, flight.user, tx.key.1, flight.seen, tx.target, tx.reward);
  }

  lemma GrantPerforms(db: DB, u: nat, plan: Plan, target: Option<nat>, id: nat, at: int)
    requires target.Some? ==> target.value in db.subs
    requires at <= db.now && Grant(db, u, plan, target, id, at).Ok?
    ensures Performs(db.subs, Grant(db, u, plan, target, id, at).value.subs,
        Some(GrantOp(db.now, plan, target, id, at)), db.now)
  {
  }

  predicate WritesSubs(tx: Tx) {
    || tx.SettleEvent? || tx.Activate? || tx.Assign? || tx.BuyPlan? || tx.BeginTrial?
    || tx.ExtendDays? || tx.SetSubStatus? || tx.LapseSubs? || tx.MergeAccounts?
  }

  lemma OthersLeaveSubs(s: Sys, tx: Tx, after: DB)
    requires Reads(s, tx) && Effect(s, tx) == Ok(after) && !WritesSubs(tx)
    ensures after.subs == s.db.subs && ExpiryOp(s, tx) == None
  {
    hide Credit, UsePromo, PayReward, Payout, BuySlots, GrantSlots, IsExpansionOf, Unbooked;
    if tx.RewardReferral? || tx.PayoutPending? || tx.BuyExpansion? || tx.ActivateSlots? {
    } else if tx.Adjust? || tx.CreatePromo? || tx.ApplyPromo? {
    }
  }

  /** A trial creates a row, an admin's days extend one. */
  lemma TrialsAndDaysPerform(s: Sys, tx: Tx, after: DB)
    requires Reads(s, tx) && Effect(s, tx) == Ok(after) && (tx.BeginTrial? || tx.ExtendDays?)
    ensures Performs(s.db.subs, after.subs, ExpiryOp(s, tx), s.db.now)
  {
  }

  /** A status change or a merge moves no expiry. */
  lemma StatusesAndMergesPerformNothing(s: Sys, tx: Tx, after: DB)
    requires Reads(s, tx) && Effect(s, tx) == Ok(after) && (tx.SetSubStatus? || tx.LapseSubs? || tx.MergeAccounts?)
    ensures Performs(s.db.subs, after.subs, ExpiryOp(s, tx), s.db.now)
  {
  }

  lemma CommitPerforms(s: Sys, tx: Tx, after: DB)
    requires Reads(s, tx) && Effect(s, tx) == Ok(after)
    ensures Performs(s.db.subs, after.subs, ExpiryOp(s, tx), s.db.now)
  {
    hide Performs, Grant;
    if tx.SettleEvent? {
      SettlePerforms(s, tx, after);
    } else if tx.Activate? {
      GrantPerforms(s.db, tx.job.user, tx.job.plan, tx.target, tx.id, tx.at);
    } else if tx.Assign? {
      GrantPerforms(s.db, tx.u, tx.plan, tx.target, tx.id, tx.at);
    } else if tx.BuyPlan? {
      GrantPerforms(Post(s.db, tx.u, 0 - PlanYADPrice(tx.plan), Spent), tx.u, tx.plan, tx.target, tx.id, tx.at);
    } else if tx.BeginTrial? || tx.ExtendDays? {
      TrialsAndDaysPerform(s, tx, after);
    } else if WritesSubs(tx) {
      StatusesAndMergesPerformNothing(s, tx, after);
    } else {
      OthersLeaveSubs(s, tx, after);
      NothingPerformed(s.db.subs, s.db.now);
    }
  }

  lemma PerformedIsExplained(subs: map<nat, Sub>, after: map<nat, Sub>, history: map<nat, seq<Op>>,
          op: Option<(nat, Op)>, now: int)
    requires HistoryLaw(subs, history, now) && Performs(subs, after, op, now)
    ensures HistoryLaw(after, Recorded(history, op), now)
  {
    if op.Some? {
      var (row, o) := op.value;
      if row in subs {
        OneMoreOp(history[row], subs[row].expires, now, o);
      } else {
        assert [] + [o] == [o];
        CreationExplains(o.at, o.days, now);
      }
    }
  }

  lemma CommitKeepsHistory(s: Sys, tx: Tx, after: DB)
    requires HistoryLaw(s.db.subs, s.history, s.db.now) && Reads(s, tx) && Effect(s, tx) == Ok(after)
    ensures HistoryLaw(after.subs, Recorded(s.history, ExpiryOp(s, tx)), s.db.now)
  {
    CommitPerforms(s, tx, after);
    PerformedIsExplained(s.db.subs, after.subs, s.history, ExpiryOp(s, tx), s.db.now);
  }

  lemma LawOutlivesTime(subs: map<nat, Sub>, history: map<nat, seq<Op>>, now: int, later: int)
    requires HistoryLaw(subs, history, now) && now <= later
    ensures HistoryLaw(subs, history, later)
  {
    forall row | row in subs ensures Explains(history[row], subs[row].expires, later) {
      TimePasses(history[row], subs[row].expires, now, later);
    }
  }

  lemma OnlyTicksMoveTheClock(s: Sys, tx: Tx, after: DB)
    requires Reads(s, tx) && Effect(s, tx) == Ok(after)
    ensures s.db.now <= after.now
  {
    hide Settle, Grant, Buy, StartTrial, Credit, UsePromo, PayReward, Payout, BuySlots, GrantSlots;
    hide IsLatest, IsRewardOf, IsExpansionOf, CanMerge, Unbooked;
    if tx.SettleEvent? || tx.MergeAccounts? {
    } else if tx.Activate? || tx.Assign? || tx.BuyPlan? || tx.BeginTrial? {
    } else if tx.RewardReferral? || tx.PayoutPending? || tx.BuyExpansion? || tx.ActivateSlots? {
    }
  }

  lemma StepKeepsHistory(s: Sys, step: Step)
    requires HistoryLaw(s.db.subs, s.history, s.db.now) && Enabled(s, step)
    ensures var t := Next(s, step); HistoryLaw(t.db.subs, t.history, t.db.now)
  {
    if step.Commit? {
      var t := Next(s, step);
      CommitKeepsHistory(s, step.tx, t.db);
      OnlyTicksMoveTheClock(s, step.tx, t.db);
      LawOutlivesTime(t.db.subs, t.history, s.db.now, t.db.now);
    }
  }

  // ----- One row per user -------------------------------------------------------------------------

  ghost predicate OneRow(subs: map<nat, Sub>, u: nat) {
    forall a, b | a in subs && b in subs && subs[a].user == u && subs[b].user == u :: a == b
  }

  ghost predicate RowsUnique(subs: map<nat, Sub>, doubled: set<nat>) {
    forall u: nat | u !in doubled :: OneRow(subs, u)
  }

  /** Rows are never deleted, so a user who was given a second one has two for good, or is merged away. */
  ghost predicate RowsDoubled(subs: map<nat, Sub>, users: map<nat, User>, doubled: set<nat>) {
    forall u | u in doubled && u in users :: !OneRow(subs, u)
  }

  lemma SameOwnersKeepRows(subs: map<nat, Sub>, after: map<nat, Sub>, doubled: set<nat>)
    requires RowsUnique(subs, doubled) && SameOwners(subs, after)
    ensures RowsUnique(after, doubled)
  {
    forall u: nat | u !in doubled ensures OneRow(after, u) {
      assert OneRow(subs, u);
    }
  }

  /** An activation keeps to the user's row, or creates the first one. */
  lemma GrantsKeepRows(db: DB, u: nat, plan: Plan, target: Option<nat>, id: nat, at: int, doubled: set<nat>)
    requires IsLatest(db.subs, u, target) && Grant(db, u, plan, target, id, at).Ok? && RowsUnique(db.subs, doubled)
    ensures RowsUnique(Grant(db, u, plan, target, id, at).value.subs, doubled)
  {
    var after := Grant(db, u, plan, target, id, at).value.subs;
    forall v: nat | v !in doubled ensures OneRow(after, v) {
      assert OneRow(db.subs, v);
    }
  }

  lemma TrialKeepsRows(db: DB, u: nat, id: nat, at: int, doubled: set<nat>, more: set<nat>)
    requires StartTrial(db, u, id, at).Ok? && RowsUnique(db.subs, doubled)
    requires more == if HasRow(db.subs, u) then doubled + {u} else doubled
    ensures RowsUnique(StartTrial(db, u, id, at).value.subs, more)
  {
    var after := StartTrial(db, u, id, at).value.subs;
    forall v: nat | v !in more ensures OneRow(after, v) {
      assert OneRow(db.subs, v);
    }
  }

  lemma MergeKeepsRows(subs: map<nat, Sub>, src: nat, dst: nat, doubled: set<nat>, more: set<nat>)
    requires RowsUnique(subs, doubled) && src != dst
    requires more == if src in doubled || (HasRow(subs, src) && HasRow(subs, dst)) then doubled + {dst} else doubled
    ensures RowsUnique(MoveSubs(subs, src, dst), more)
  {
    forall v: nat | v !in more ensures OneRow(MoveSubs(subs, src, dst), v) {
      assert OneRow(subs, v);
      if v == dst {
        assert OneRow(subs, src);
      }
    }
  }

  predicate CreatesRows(tx: Tx) {
    tx.Activate? || tx.Assign? || tx.BuyPlan? || tx.BeginTrial? || tx.MergeAccounts?
  }

  lemma OthersKeepOwners(s: Sys, tx: Tx, after: DB)
    requires Reads(s, tx) && Effect(s, tx) == Ok(after) && !CreatesRows(tx)
    ensures SameOwners(s.db.subs, after.subs)
  {
    hide Settle;
    if tx.SettleEvent? {
      SettlePerforms(s, tx, after);
    } else if !WritesSubs(tx) {
      OthersLeaveSubs(s, tx, after);
    }
  }

  lemma CommitKeepsRows(s: Sys, tx: Tx, after: DB)
    requires Reads(s, tx) && Effect(s, tx) == Ok(after) && RowsUnique(s.db.subs, s.doubled)
    ensures RowsUnique(after.subs, DoubledAfter(s, tx))
  {
    hide RowsUnique, SameOwners, Grant, StartTrial, IsLatest;
    if tx.Activate? {
      GrantsKeepRows(s.db, tx.job.user, tx.job.plan, tx.target, tx.id, tx.at, s.doubled);
    } else if tx.Assign? {
      GrantsKeepRows(s.db, tx.u, tx.plan, tx.target, tx.id, tx.at, s.doubled);
    } else if tx.BuyPlan? {
      GrantsKeepRows(Post(s.db, tx.u, 0 - PlanYADPrice(tx.plan), Spent), tx.u, tx.plan, tx.target, tx.id, tx.at,
          s.doubled);
    } else if tx.BeginTrial? {
      TrialKeepsRows(s.db, tx.u, tx.id, tx.at, s.doubled, DoubledAfter(s, tx));
    } else if tx.MergeAccounts? {
      MergeKeepsRows(s.db.subs, tx.src, tx.dst, s.doubled, DoubledAfter(s, tx));
    } else {
      OthersKeepOwners(s, tx, after);
      SameOwnersKeepRows(s.db.subs, after.subs, s.doubled);
    }
  }

  /** Rows stay, and keep their owners. */
  ghost predicate RowsStay(subs: map<nat, Sub>, after: map<nat, Sub>) {
    forall row | row in subs :: row in after && after[row].user == subs[row].user
  }

  /** So two rows of one user stay two rows of one user. */
  lemma DoublesStay(subs: map<nat, Sub>, after: map<nat, Sub>, u: nat)
    requires !OneRow(subs, u) && RowsStay(subs, after)
    ensures !OneRow(after, u)
  {
    var a, b :| a in subs && b in subs && subs[a].user == u && subs[b].user == u && a != b;
    assert a in after && b in after;
  }

  lemma SameOwnersStay(subs: map<nat, Sub>, after: map<nat, Sub>)
    requires SameOwners(subs, after)
    ensures RowsStay(subs, after)
  {
  }

  lemma GrantsStay(db: DB, u: nat, plan: Plan, target: Option<nat>, id: nat, at: int)
    requires target.Some? ==> target.value in db.subs
    requires Grant(db, u, plan, target, id, at).Ok?
    ensures RowsStay(db.subs, Grant(db, u, plan, target, id, at).value.subs)
  {
  }

  lemma TrialsStay(db: DB, u: nat, id: nat, at: int)
    requires StartTrial(db, u, id, at).Ok?
    ensures RowsStay(db.subs, StartTrial(db, u, id, at).value.subs)
  {
  }

  lemma RowsStayPut(s: Sys, tx: Tx, after: DB)
    requires Reads(s, tx) && Effect(s, tx) == Ok(after) && !tx.MergeAccounts?
    ensures RowsStay(s.db.subs, after.subs)
  {
    hide RowsStay, SameOwners, Grant, StartTrial;
    if tx.Activate? {
      GrantsStay(s.db, tx.job.user, tx.job.plan, tx.target, tx.id, tx.at);
    } else if tx.Assign? {
      GrantsStay(s.db, tx.u, tx.plan, tx.target, tx.id, tx.at);
    } else if tx.BuyPlan? {
      GrantsStay(Post(s.db, tx.u, 0 - PlanYADPrice(tx.plan), Spent), tx.u, tx.plan, tx.target, tx.id, tx.at);
    } else if tx.BeginTrial? {
      TrialsStay(s.db, tx.u, tx.id, tx.at);
    } else {
      OthersKeepOwners(s, tx, after);
      SameOwnersStay(s.db.subs, after.subs);
    }
  }

  lemma TrialDoubles(db: DB, u: nat, id: nat, at: int)
    requires StartTrial(db, u, id, at).Ok? && HasRow(db.subs, u)
    ensures !OneRow(StartTrial(db, u, id, at).value.subs, u)
  {
    var after := StartTrial(db, u, id, at).value.subs;
    var row :| row in db.subs && db.subs[row].user == u;
    assert row in after && id in after && row != id && after[row].user == u && after[id].user == u;
  }

  lemma MergeDoubles(subs: map<nat, Sub>, src: nat, dst: nat, u: nat)
    requires src != dst && u != src
    requires !OneRow(subs, u) || (u == dst && (!OneRow(subs, src) || (HasRow(subs, src) && HasRow(subs, dst))))
    ensures !OneRow(MoveSubs(subs, src, dst), u)
  {
    var after := MoveSubs(subs, src, dst);
    if u == dst && HasRow(subs, src) && HasRow(subs, dst) {
      var a :| a in subs && subs[a].user == src;
      var b :| b in subs && subs[b].user == dst;
      assert a in after && b in after && a != b;
    } else {
      var v := if !OneRow(subs, u) then u else src;
      var a, b :| a in subs && b in subs && subs[a].user == v && subs[b].user == v && a != b;
      assert a in after && b in after;
    }
  }

  lemma MergeKeepsDoubles(db: DB, src: nat, dst: nat, doubled: set<nat>, more: set<nat>)
    requires src in db.users && src != dst && RowsDoubled(db.subs, db.users, doubled)
    requires more
          == if src in doubled || (HasRow(db.subs, src) && HasRow(db.subs, dst)) then doubled + {dst} else doubled
    ensures RowsDoubled(MoveSubs(db.subs, src, dst), MergedUsers(db.users, src, dst), more)
  {
    MergedUsersForgetSource(db.users, src, dst);
    forall u | u in more && u in MergedUsers(db.users, src, dst) ensures !OneRow(MoveSubs(db.subs, src, dst), u) {
      MergeDoubles(db.subs, src, dst, u);
    }
  }

  lemma StayingKeepsDoubles(subs: map<nat, Sub>, after: map<nat, Sub>, users: map<nat, User>, users': map<nat, User>,
          doubled: set<nat>)
    requires RowsStay(subs, after) && RowsDoubled(subs, users, doubled)
    requires forall u | u in doubled && u in users' :: u in users
    ensures RowsDoubled(after, users', doubled)
  {
    forall u | u in doubled && u in users' ensures !OneRow(after, u) {
      DoublesStay(subs, after, u);
    }
  }

  lemma CommitKeepsDoubles(s: Sys, tx: Tx, after: DB)
    requires Reads(s, tx) && Effect(s, tx) == Ok(after) && RowsDoubled(s.db.subs, s.db.users, s.doubled)
    requires s.doubled <= s.db.users.Keys + s.gone
    ensures RowsDoubled(after.subs, after.users, DoubledAfter(s, tx))
  {
    hide RowsStay, OneRow, Grant, StartTrial;
    if tx.MergeAccounts? {
      MergeKeepsDoubles(s.db, tx.src, tx.dst, s.doubled, DoubledAfter(s, tx));
    } else {
      RowsStayPut(s, tx, after);
      TransactionsKeepUsers(s, tx, after);
      StayingKeepsDoubles(s.db.subs, after.subs, s.db.users, after.users, s.doubled);
      if tx.BeginTrial? && HasRow(s.db.subs, tx.u) {
        TrialDoubles(s.db, tx.u, tx.id, tx.at);
      }
    }
  }

  /** An account with rows is not merged into a missing one. */
  lemma MovelessHaveNoRows(db: DB, src: nat, doubled: set<nat>)
    requires src in db.users && NothingToMove(db, src) && RowsDoubled(db.subs, db.users, doubled)
    ensures !HasRow(db.subs, src) && src !in doubled
  {
    assert OneRow(db.subs, src);
  }

  lemma MergedDoublesAreUsers(db: DB, src: nat, dst: nat, doubled: set<nat>, gone: set<nat>)
    requires src != dst && CanMerge(db, src, dst) && RowsDoubled(db.subs, db.users, doubled)
    requires doubled <= db.users.Keys + gone
    ensures src in doubled || (HasRow(db.subs, src) && HasRow(db.subs, dst)) ==> dst in db.users
    ensures doubled <= db.users.Keys - {src} + (gone + {src})
  {
    hide RowsDoubled, OneRow, HasRow, NothingToMove;
    if dst !in db.users {
      MovelessHaveNoRows(db, src, doubled);
    }
  }

  lemma TrialsAreForUsers(s: Sys, tx: Tx, after: DB)
    requires tx.BeginTrial? && Reads(s, tx) && Effect(s, tx) == Ok(after)
    ensures tx.u in s.db.users
  {
  }

  /** Only users get doubled. */
  lemma DoubledAreUsers(s: Sys, tx: Tx, after: DB)
    requires Reads(s, tx) && Effect(s, tx) == Ok(after) && RowsDoubled(s.db.subs, s.db.users, s.doubled)
    requires s.doubled <= s.db.users.Keys + s.gone
    ensures DoubledAfter(s, tx) <= after.users.Keys + GoneAfter(s, tx)
  {
    hide Effect, RowsDoubled, HasRow, CanMerge, IsLatest, IsRewardOf, IsExpansionOf, Unbooked;
    TransactionsKeepUsers(s, tx, after);
    if tx.MergeAccounts? {
      MergedDoublesAreUsers(s.db, tx.src, tx.dst, s.doubled, s.gone);
    } else if tx.BeginTrial? {
      TrialsAreForUsers(s, tx, after);
    }
  }

  lemma StepKeepsRows(s: Sys, step: Step)
    requires RowsUnique(s.db.subs, s.doubled) && RowsDoubled(s.db.subs, s.db.users, s.doubled) && Enabled(s, step)
    requires s.doubled <= s.db.users.Keys + s.gone
    ensures var t := Next(s, step);
            && RowsUnique(t.db.subs, t.doubled) && RowsDoubled(t.db.subs, t.db.users, t.doubled)
            && t.doubled <= t.db.users.Keys + t.gone
  {
    hide RowsUnique, RowsDoubled;
    if step.Commit? {
      CommitKeepsRows(s, step.tx, Effect(s, step.tx).value);
      CommitKeepsDoubles(s, step.tx, Effect(s, step.tx).value);
      DoubledAreUsers(s, step.tx, Effect(s, step.tx).value);
    }
  }

  // ----- What the history says ------------------------------------------------------------------

  ghost predicate OnlyExtended(history: seq<Op>) {
    forall i | 0 <= i < |history| :: history[i].Extend?
  }

  function Activations(history: seq<Op>): (acts: seq<Activation>)
    requires OnlyExtended(history)
    ensures |acts| == |history| && AsOps(acts) == history
  {
    seq(|history|, i requires 0 <= i < |history| => Activation(history[i].at, history[i].days))
  }

  /** A row that was only ever extended expires exactly at the latest reach of its activations: none was lost. */
  lemma EveryActivationCounts(s: Sys, row: nat)
    requires HistoryLaw(s.db.subs, s.history, s.db.now) && row in s.db.subs && OnlyExtended(s.history[row])
    ensures s.db.subs[row].expires == LatestReach(Activations(s.history[row]))
  {
    var acts := Activations(s.history[row]);
    NoExtensionLost(s.history[row][0].at, acts);
    var latest := LatestReachIsMaximum(acts, 0);
    assert acts[0..] == acts;
  }

  /**
   Wherever in a row's history a purchase of `days` at t1 was followed by its reversal at
   t2, the row is never better off, at the present time, than the same history without
   the two, and never more than `days` worse.
   */
  lemma ReversedPurchaseNeverPays(s: Sys, row: nat, before: seq<Op>, t1: int, days: nat, between: seq<Op>, t2: int,
          rest: seq<Op>)
    requires HistoryLaw(s.db.subs, s.history, s.db.now) && row in s.db.subs
    requires s.history[row] == before + ([Extend(t1, days)] + between + [Contract(t2, days)] + rest)
    ensures var e := s.history[row][0].at;
            var without := Fold(e, before + (between + rest));
            && Max(s.db.subs[row].expires, s.db.now) <= Max(without, s.db.now)
            && without - days <= s.db.subs[row].expires
  {
    var history, e := s.history[row], s.history[row][0].at;
    var later := [Extend(t1, days)] + between + [Contract(t2, days)] + rest;
    FoldConcat(e, before, later);
    FoldConcat(e, before, between + rest);
    TimelineParts(history, s.db.now, before, t1, days, between, t2, rest);
    ChargebackNeverBeatsNotBuying(Fold(e, before), t1, days, between, t2, rest, s.db.now);
  }

  lemma TimelineParts(history: seq<Op>, now: int, before: seq<Op>, t1: int, days: nat, between: seq<Op>, t2: int,
          rest: seq<Op>)
    requires history == before + ([Extend(t1, days)] + between + [Contract(t2, days)] + rest)
    requires Timeline(history[0].at, history, now)
    ensures Timeline(t1, between, t2) && Timeline(t2, rest, now)
  {
    var i := |before|;
    var j := i + 1 + |between|;
    assert history[i] == Extend(t1, days) && history[j] == Contract(t2, days);
    assert forall k | 0 <= k < |between| :: history[i + 1 + k] == between[k];
    assert forall k | 0 <= k < |rest| :: history[j + 1 + k] == rest[k];
  }
}
