/** The YAD ledger: a user's balance is the sum of that user's rows, in every reachable state. */
module Ledger {
  import opened Prelude
  import opened Domain
  import opened Tables
  import opened Transactions
  import opened Merge
  import opened System

  // ----- Sums over the ledger -------------------------------------------------------------

  function Deltas(ledger: seq<Row>, u: nat): int {
    if ledger == [] then 0
    else
      var last := ledger[|ledger| - 1];
      Deltas(ledger[..|ledger| - 1], u) + if last.user == u then last.delta else 0
  }

  /** The YAD booked under one reason, and the number of rows. */
  function Booked(ledger: seq<Row>, reason: Reason): int {
    if ledger == [] then 0
    else
      var last := ledger[|ledger| - 1];
      Booked(ledger[..|ledger| - 1], reason) + if last.reason == reason then last.delta else 0
  }

  function Rows(ledger: seq<Row>, reason: Reason): nat {
    if ledger == [] then 0
    else
      var last := ledger[|ledger| - 1];
      Rows(ledger[..|ledger| - 1], reason) + if last.reason == reason then 1 else 0
  }

  lemma Snoc(ledger: seq<Row>, row: Row, u: nat, reason: Reason)
    ensures Deltas(ledger + [row], u) == Deltas(ledger, u) + if row.user == u then row.delta else 0
    ensures Booked(ledger + [row], reason) == Booked(ledger, reason) + if row.reason == reason then row.delta else 0
    ensures Rows(ledger + [row], reason) == Rows(ledger, reason) + if row.reason == reason then 1 else 0
  {
    assert (ledger + [row])[..|ledger|] == ledger;
  }

  lemma {:induction false} NoRowsNoBalance(ledger: seq<Row>, u: nat)
    requires forall i | 0 <= i < |ledger| :: ledger[i].user != u
    ensures Deltas(ledger, u) == 0
  {
    if ledger != [] {
      NoRowsNoBalance(ledger[..|ledger| - 1], u);
    }
  }

  lemma {:induction false} FreshReasonsAreUnbooked(ledger: seq<Row>, reason: Reason)
    requires Unbooked(ledger, reason)
    ensures Booked(ledger, reason) == 0 && Rows(ledger, reason) == 0
  {
    if ledger != [] {
      FreshReasonsAreUnbooked(ledger[..|ledger| - 1], reason);
    }
  }

  /** A merge re-addresses rows and touches nothing else in them. */
  lemma {:induction false} MoveLedgerMovesDeltas(ledger: seq<Row>, src: nat, dst: nat, u: nat, reason: Reason)
    requires src != dst
    ensures var moved := MoveLedger(ledger, src, dst);
            && Deltas(moved, u)
               == (if u == src then 0 else Deltas(ledger, u) + if u == dst then Deltas(ledger, src) else 0)
            && Booked(moved, reason) == Booked(ledger, reason) && Rows(moved, reason) == Rows(ledger, reason)
  {
    if ledger != [] {
      var n := |ledger| - 1;
      assert MoveLedger(ledger, src, dst)[..n] == MoveLedger(ledger[..n], src, dst);
      MoveLedgerMovesDeltas(ledger[..n], src, dst, u, reason);
    }
  }

  // ----- The invariant ----------------------------------------------------------------------

  ghost predicate Balanced(users: map<nat, User>, ledger: seq<Row>) {
    forall u | u in users :: users[u].balance == Deltas(ledger, u)
  }

  /** Each row's stored balance is the running sum of its user's rows up to it. */
  ghost predicate Running(ledger: seq<Row>) {
    forall i | 0 <= i < |ledger| :: ledger[i].balance == Deltas(ledger[..i + 1], ledger[i].user)
  }

  /** The transaction leaves every balance and the ledger alone. */
  ghost predicate Quiet(db: DB, after: DB) {
    && after.ledger == db.ledger && after.users.Keys == db.users.Keys
    && forall u | u in db.users :: after.users[u].balance == db.users[u].balance
  }

  /** The transaction appends one row, moving the balance of that row's user by its delta. */
  ghost predicate Posts(db: DB, after: DB, row: Row) {
    && row.user in db.users && after.ledger == db.ledger + [row] && after.users.Keys == db.users.Keys
    && row.balance == after.users[row.user].balance
    && forall u | u in db.users ::
         after.users[u].balance == db.users[u].balance + if u == row.user then row.delta else 0
  }

  lemma PostingKeepsBalanced(db: DB, after: DB, row: Row)
    requires Balanced(db.users, db.ledger) && Posts(db, after, row)
    ensures Balanced(after.users, after.ledger)
    ensures Running(db.ledger) ==> Running(after.ledger)
  {
    forall u | u in after.users ensures after.users[u].balance == Deltas(after.ledger, u) {
      Snoc(db.ledger, row, u, row.reason);
    }
    if Running(db.ledger) {
      forall i | 0 <= i < |after.ledger|
        ensures after.ledger[i].balance == Deltas(after.ledger[..i + 1], after.ledger[i].user)
      {
        assert after.ledger[..i + 1] == if i < |db.ledger| then db.ledger[..i + 1] else after.ledger;
      }
    }
  }

  lemma MergeKeepsBalanced(db: DB, src: nat, dst: nat)
    requires src in db.users && src != dst && Balanced(db.users, db.ledger)
    ensures Balanced(Merged(db, src, dst).users, Merged(db, src, dst).ledger)
  {
    forall u | u in Merged(db, src, dst).users
      ensures Merged(db, src, dst).users[u].balance == Deltas(MoveLedger(db.ledger, src, dst), u)
    {
      MoveLedgerMovesDeltas(db.ledger, src, dst, u, Spent);
    }
  }

  // ----- What each transaction does to the books ---------------------------------------------

  /** At most one row, and only under the given reason. */
  ghost predicate BooksUnder(db: DB, after: DB, reason: Reason) {
    || Quiet(db, after)
    || (|after.ledger| == |db.ledger| + 1 && Posts(db, after, after.ledger[|db.ledger|])
        && after.ledger[|db.ledger|].reason == reason)
  }

  lemma UndoRewardBooks(db: DB, reward: Option<nat>)
    requires reward.Some? ==> reward.value in db.rewards && db.rewards[reward.value].referrer in db.users
    ensures if reward.Some? then BooksUnder(db, UndoReward(db, reward), ClawbackOf(reward.value))
        else UndoReward(db, reward) == db
  {
  }

  lemma QuietThenBooks(a: DB, b: DB, c: DB, reason: Reason)
    requires Quiet(a, b) && BooksUnder(b, c, reason)
    ensures BooksUnder(a, c, reason)
  {
  }

  /** The status, the LTV and the grant move before the reward; none of them touches the books. */
  lemma UndoIsQuiet(db: DB, p: nat, u: nat, seen: Payment, status: PaymentStatus, target: Option<nat>)
    requires u in db.users && (target.Some? ==> target.value in db.subs)
    ensures Quiet(db, Undo(db, p, u, seen, status, target))
  {
  }

  lemma RevertBooks(db: DB, p: nat, u: nat, seen: Payment, status: PaymentStatus, target: Option<nat>,
          reward: Option<nat>)
    requires target.Some? ==> target.value in db.subs
    requires reward.Some? ==> reward.value in db.rewards && db.rewards[reward.value].referrer in db.users
    requires seen.status == CONFIRMED && Revert(db, p, u, seen, status, target, reward).Ok?
    ensures var after := Revert(db, p, u, seen, status, target, reward).value;
            if reward.Some? then BooksUnder(db, after, ClawbackOf(reward.value)) else Quiet(db, after)
  {
    UndoIsQuiet(db, p, u, seen, status, target);
    var undone := Undo(db, p, u, seen, status, target);
    UndoRewardBooks(undone, reward);
    if reward.Some? {
      QuietThenBooks(db, undone, UndoReward(undone, reward), ClawbackOf(reward.value));
    }
  }

  lemma NothingToTakeBack(db: DB, p: nat, u: nat, seen: Payment, status: PaymentStatus, target: Option<nat>,
          reward: Option<nat>)
    requires target.Some? ==> target.value in db.subs
    requires reward.Some? ==> reward.value in db.rewards && db.rewards[reward.value].referrer in db.users
    requires seen.status != CONFIRMED && Revert(db, p, u, seen, status, target, reward).Ok?
    ensures Quiet(db, Revert(db, p, u, seen, status, target, reward).value)
  {
    hide Undo, UndoReward;
  }

  lemma ConfirmIsQuiet(db: DB, p: nat, u: nat, kopecks: int)
    requires Confirm(db, p, u, kopecks).Ok?
    ensures Quiet(db, Confirm(db, p, u, kopecks).value)
  {
  }

  lemma StatusIsQuiet(db: DB, p: nat, status: PaymentStatus)
    ensures Quiet(db, db.(payments := SetStatus(db.payments, p, status)))
  {
  }

  lemma SettleBooks(db: DB, p: nat, u: nat, event: PaymentStatus, seen: Payment, target: Option<nat>,
          reward: Option<nat>)
    requires target.Some? ==> target.value in db.subs
    requires reward.Some? ==> reward.value in db.rewards && db.rewards[reward.value].referrer in db.users
    requires Settle(db, p, u, event, seen, target, reward).Ok?
    ensures var after := Settle(db, p, u, event, seen, target, reward).value;
            if (event == CANCELED || event == CHARGEBACKED) && seen.status == CONFIRMED && reward.Some?
            then BooksUnder(db, after, ClawbackOf(reward.value))
            else Quiet(db, after)
  {
    hide Undo, UndoReward, Revert, Confirm, BooksUnder, Quiet;
    if event == CANCELED || event == CHARGEBACKED {
      if seen.status == CONFIRMED {
        RevertBooks(db, p, u, seen, event, target, reward);
      } else {
        NothingToTakeBack(db, p, u, seen, event, target, reward);
      }
    } else if event == CONFIRMED && IsPaidPlan(seen.plan) {
      ConfirmIsQuiet(db, p, u, seen.amount);
    } else {
      StatusIsQuiet(db, p, event);
    }
  }

  lemma GrantsAreQuiet(db: DB, u: nat, plan: Plan, target: Option<nat>, id: nat, at: int)
    requires target.Some? ==> target.value in db.subs
    ensures Grant(db, u, plan, target, id, at).Ok? ==> Quiet(db, Grant(db, u, plan, target, id, at).value)
    ensures StartTrial(db, u, id, at).Ok? ==> Quiet(db, StartTrial(db, u, id, at).value)
  {
  }

  lemma PurchasesBook(db: DB, u: nat, plan: Plan, target: Option<nat>, id: nat, at: int)
    requires target.Some? ==> target.value in db.subs
    ensures Buy(db, u, plan, target, id, at).Ok? ==> BooksUnder(db, Buy(db, u, plan, target, id, at).value, Spent)
  {
  }

  lemma CreditsBook(db: DB, u: nat, delta: int, reason: Reason)
    ensures Credit(db, u, delta, reason).Ok? ==> BooksUnder(db, Credit(db, u, delta, reason).value, reason)
  {
  }

  lemma PromosBook(db: DB, p: nat, u: nat, id: nat)
    ensures UsePromo(db, p, u, id).Ok? ==> BooksUnder(db, UsePromo(db, p, u, id).value, PromoCredit(p))
  {
  }

  lemma RewardsBook(db: DB, w: nat, refl: nat, referrer: nat, payment: nat, paid: int, yad: nat)
    ensures PayReward(db, w, refl, referrer, payment, paid, yad).Ok? ==>
              BooksUnder(db, PayReward(db, w, refl, referrer, payment, paid, yad).value, RewardCredit(w))
    ensures Payout(db, w).Ok? ==> BooksUnder(db, Payout(db, w).value, RewardCredit(w))
  {
  }

  lemma SlotsBook(db: DB, u: nat, qty: int, days: int, expires: int, found: Option<nat>, id: nat)
    requires found.Some? ==> found.value in db.expansions
    ensures BuySlots(db, u, qty, days, expires, found, id).Ok? ==>
        BooksUnder(db, BuySlots(db, u, qty, days, expires, found, id).value, Spent)
    ensures GrantSlots(db, u, qty, expires, found, id).Ok? ==>
        Quiet(db, GrantSlots(db, u, qty, expires, found, id).value)
  {
  }

  /** The one reason a transaction of this kind books under; None if it never touches the books. */
  function Heading(s: Sys, tx: Tx): Option<Reason> {
    match tx
    case SettleEvent(_, _, reward, _, _) =>
      if Reverses(s, tx) && reward.Some? then Some(ClawbackOf(reward.value)) else None
    case BuyPlan(_, _, _, _, _) => Some(Spent)
    case Adjust(_, _, reason) => Some(reason)
    case ApplyPromo(p, _, _) => Some(PromoCredit(p))
    case RewardReferral(_, w, _, _, _) => Some(RewardCredit(w))
    case PayoutPending(w) => Some(RewardCredit(w))
    case BuyExpansion(_, _, _, _, _, _) => Some(Spent)
    case _ => None
  }

  /** Apart from registrations and merges, a committed transaction books at most one row, under its own reason. */
  lemma TransactionsBookOneRow(s: Sys, tx: Tx, after: DB)
    requires Reads(s, tx) && Effect(s, tx) == Ok(after) && !tx.Register? && !tx.MergeAccounts?
    ensures match Heading(s, tx)
            case None => Quiet(s.db, after)
            case Some(reason) => BooksUnder(s.db, after, reason)
  {
    var db := s.db;
    match tx {
      case SettleEvent(key, target, reward, _, _) =>
        SettleBooks(db, key.0, s.flight[key].user, key.1, s.flight[key].seen, target, reward);
      case Activate(job, target, id, at) => GrantsAreQuiet(db, job.user, job.plan, target, id, at);
      case Assign(u, plan, target, id, at) => GrantsAreQuiet(db, u, plan, target, id, at);
      case BuyPlan(u, plan, target, id, at) => PurchasesBook(db, u, plan, target, id, at);
      case BeginTrial(u, id, at) => GrantsAreQuiet(db, u, Week, None, id, at);
      case Adjust(u, delta, reason) => CreditsBook(db, u, delta, reason);
      case ApplyPromo(p, u, id) => PromosBook(db, p, u, id);
      case RewardReferral(job, w, r, referrer, risk) =>
        RewardsBook(db, w, r, referrer, job.payment, job.paid, RewardYAD(job.paid, risk));
      case PayoutPending(w) => RewardsBook(db, w, 0, 0, 0, 0, 0);
      case BuyExpansion(u, qty, days, expires, found, id) => SlotsBook(db, u, qty, days, expires, found, id);
      case ActivateSlots(job, _, expires, found, id) => SlotsBook(db, job.user, SlotQty(job), 0, expires, found, id);
      case _ =>
    }
  }

  // ----- Every step keeps the books -------------------------------------------------------------

  ghost predicate Books(s: Sys) {
    Balanced(s.db.users, s.db.ledger) && (s.gone == {} ==> Running(s.db.ledger))
  }

  lemma QuietKeepsBalanced(db: DB, after: DB)
    requires Balanced(db.users, db.ledger) && Quiet(db, after)
    ensures Balanced(after.users, after.ledger)
  {
  }

  lemma BookingKeepsBalanced(db: DB, after: DB, reason: Reason)
    requires Balanced(db.users, db.ledger) && BooksUnder(db, after, reason)
    ensures Balanced(after.users, after.ledger)
    ensures Running(db.ledger) ==> Running(after.ledger)
  {
    if Quiet(db, after) {
      QuietKeepsBalanced(db, after);
    } else {
      PostingKeepsBalanced(db, after, after.ledger[|db.ledger|]);
    }
  }

  lemma RegistrationKeepsBalanced(db: DB, u: nat, referrer: Option<nat>)
    requires Constraints(db) && Balanced(db.users, db.ledger) && u !in db.users
    ensures Balanced(db.users[u := FreshUser(referrer)], db.ledger)
  {
    NoRowsNoBalance(db.ledger, u);
  }

  lemma CommitKeepsBooks(s: Sys, tx: Tx, after: DB)
    requires Constraints(s.db) && Reads(s, tx) && Effect(s, tx) == Ok(after)
    requires Balanced(s.db.users, s.db.ledger)
    ensures Balanced(after.users, after.ledger)
    ensures !tx.MergeAccounts? && Running(s.db.ledger) ==> Running(after.ledger)
  {
    if tx.Register? {
      RegistrationKeepsBalanced(s.db, tx.u, tx.referrer);
    } else if tx.MergeAccounts? {
      MergeKeepsBalanced(s.db, tx.src, tx.dst);
    } else {
      TransactionsBookOneRow(s, tx, after);
      BookingKeepsBalanced(s.db, after, if Heading(s, tx).Some? then Heading(s, tx).value else Spent);
    }
  }

  lemma StepKeepsBooks(s: Sys, step: Step)
    requires Books(s) && Enabled(s, step)
    ensures Books(Next(s, step))
  {
    if step.Commit? {
      CommitKeepsBooks(s, step.tx, Effect(s, step.tx).value);
    }
  }
}
