/** Promo codes over every run: caps hold, nobody uses a code twice, and a code mints what its counter says. */
module Promos {
  import opened Prelude
  import opened Tables
  import opened Transactions
  import opened Merge
  import opened System
  import opened Ledger
  import opened Rewards

  /** The rows of promocode_uses for a code. */
  function RowsOf(uses: map<nat, (nat, nat)>, p: nat): set<nat> {
    set x | x in uses && uses[x].0 == p
  }

  ghost predicate Capped(promo: Promo, uses: map<nat, (nat, nat)>, p: nat) {
    |RowsOf(uses, p)| <= promo.used <= promo.maxUses
  }

  /** The YAD a code has minted is its counter times its amount; a discount code mints nothing. */
  ghost predicate Minted(promo: Promo, ledger: seq<Row>, p: nat) {
    Booked(ledger, PromoCredit(p)) == if promo.isYad then promo.used * promo.yad else 0
  }

  ghost predicate PromoLaw(promos: map<nat, Promo>, uses: map<nat, (nat, nat)>, ledger: seq<Row>) {
    forall p | p in promos :: Capped(promos[p], uses, p) && Minted(promos[p], ledger, p)
  }

  lemma SubsetSize(a: set<nat>, b: set<nat>)
    requires a <= b
    ensures |a| <= |b|
  {
    assert b == a + (b - a);
  }

  lemma OneMoreRow(uses: map<nat, (nat, nat)>, id: nat, p: nat, u: nat, q: nat)
    requires id !in uses
    ensures |RowsOf(uses[id := (p, u)], q)| == |RowsOf(uses, q)| + if q == p then 1 else 0
  {
    assert RowsOf(uses[id := (p, u)], q) == RowsOf(uses, q) + if q == p then {id} else {};
  }

  /** A merge re-addresses or deletes the rows of a code and adds none. */
  lemma MergeKeepsRowCount(db: DB, src: nat, dst: nat, p: nat)
    requires src in db.users && src != dst
    ensures RowsOf(Merged(db, src, dst).uses, p) <= RowsOf(db.uses, p)
    ensures |RowsOf(Merged(db, src, dst).uses, p)| <= |RowsOf(db.uses, p)|
  {
    SubsetSize(RowsOf(Merged(db, src, dst).uses, p), RowsOf(db.uses, p));
  }

  lemma OneMoreUse(used: int, yad: int)
    ensures (used + 1) * yad == used * yad + yad
  {
  }

  lemma OneMoreMint(promo: Promo, ledger: seq<Row>, after: seq<Row>, p: nat)
    requires Minted(promo, ledger, p)
    requires Booked(after, PromoCredit(p)) == Booked(ledger, PromoCredit(p)) + if promo.isYad then promo.yad else 0
    ensures Minted(promo.(used := promo.used + 1), after, p)
  {
    OneMoreUse(promo.used, promo.yad);
  }

  /** What an application books under each promo: the code's YAD under its own, nothing under another. */
  lemma ApplicationBooks(db: DB, p: nat, u: nat, id: nat, q: nat)
    requires UsePromo(db, p, u, id).Ok?
    ensures Booked(UsePromo(db, p, u, id).value.ledger, PromoCredit(q))
         == Booked(db.ledger, PromoCredit(q)) + if q == p && db.promos[p].isYad then db.promos[p].yad else 0
  {
    var after := UsePromo(db, p, u, id).value;
    if db.promos[p].isYad {
      Snoc(db.ledger, after.ledger[|db.ledger|], 0, PromoCredit(q));
    }
  }

  /** The other codes gain no row and mint nothing. */
  lemma ApplicationLeavesOthers(db: DB, p: nat, u: nat, id: nat, q: nat)
    requires UsePromo(db, p, u, id).Ok? && q in db.promos && q != p
    requires Capped(db.promos[q], db.uses, q) && Minted(db.promos[q], db.ledger, q)
    ensures var after := UsePromo(db, p, u, id).value;
            q in after.promos && Capped(after.promos[q], after.uses, q) && Minted(after.promos[q], after.ledger, q)
  {
    OneMoreRow(db.uses, id, p, u, q);
    ApplicationBooks(db, p, u, id, q);
  }

  lemma ApplicationCounts(db: DB, p: nat, u: nat, id: nat)
    requires UsePromo(db, p, u, id).Ok? && p in db.promos
    requires Capped(db.promos[p], db.uses, p) && Minted(db.promos[p], db.ledger, p)
    ensures var after := UsePromo(db, p, u, id).value;
            p in after.promos && Capped(after.promos[p], after.uses, p) && Minted(after.promos[p], after.ledger, p)
  {
    OneMoreRow(db.uses, id, p, u, p);
    ApplicationBooks(db, p, u, id, p);
    OneMoreMint(db.promos[p], db.ledger, UsePromo(db, p, u, id).value.ledger, p);
  }

  lemma ApplicationKeepsLaw(db: DB, p: nat, u: nat, id: nat)
    requires UsePromo(db, p, u, id).Ok? && PromoLaw(db.promos, db.uses, db.ledger)
    ensures var after := UsePromo(db, p, u, id).value; PromoLaw(after.promos, after.uses, after.ledger)
  {
    hide Capped, Minted;
    var after := UsePromo(db, p, u, id).value;
    ApplicationCounts(db, p, u, id);
    forall q | q in after.promos && q != p
      ensures Capped(after.promos[q], after.uses, q) && Minted(after.promos[q], after.ledger, q)
    {
      ApplicationLeavesOthers(db, p, u, id, q);
    }
  }

  lemma CreationKeepsLaw(db: DB, p: nat, promo: Promo)
    requires UsesOk(db.uses, db.promos, db.users) && p !in db.promos && PromoLaw(db.promos, db.uses, db.ledger)
    requires promo.used == 0 <= promo.maxUses && Unbooked(db.ledger, PromoCredit(p))
    ensures PromoLaw(db.promos[p := promo], db.uses, db.ledger)
  {
    FreshReasonsAreUnbooked(db.ledger, PromoCredit(p));
    assert RowsOf(db.uses, p) == {};
  }

  lemma MergeKeepsLaw(db: DB, src: nat, dst: nat)
    requires src in db.users && src != dst && PromoLaw(db.promos, db.uses, db.ledger)
    ensures var after := Merged(db, src, dst); PromoLaw(after.promos, after.uses, after.ledger)
  {
    var after := Merged(db, src, dst);
    forall p | p in after.promos
      ensures Capped(after.promos[p], after.uses, p) && Minted(after.promos[p], after.ledger, p)
    {
      MergeKeepsRowCount(db, src, dst, p);
      MoveLedgerMovesDeltas(db.ledger, src, dst, 0, PromoCredit(p));
    }
  }

  lemma ForeignBookingKeepsLaw(db: DB, after: DB, reason: Reason)
    requires BooksUnder(db, after, reason) && !reason.PromoCredit? && after.promos == db.promos && after.uses == db.uses
    requires PromoLaw(db.promos, db.uses, db.ledger)
    ensures PromoLaw(after.promos, after.uses, after.ledger)
  {
    forall p | p in db.promos
      ensures Capped(after.promos[p], after.uses, p) && Minted(after.promos[p], after.ledger, p)
    {
      OtherReasonsStand(db, after, reason, PromoCredit(p));
    }
  }

  lemma OthersLeavePromos(s: Sys, tx: Tx, after: DB)
    requires Reads(s, tx) && Effect(s, tx) == Ok(after) && !tx.CreatePromo? && !tx.ApplyPromo? && !tx.MergeAccounts?
    ensures after.promos == s.db.promos && after.uses == s.db.uses
  {
    hide Settle, Grant, Buy, StartTrial, Credit, PayReward, Payout, BuySlots, GrantSlots;
    hide IsLatest, IsRewardOf, IsExpansionOf, CanMerge, Unbooked;
    if tx.SettleEvent? {
    } else if tx.Activate? || tx.Assign? || tx.BuyPlan? || tx.BeginTrial? {
    } else if tx.RewardReferral? || tx.PayoutPending? || tx.BuyExpansion? || tx.ActivateSlots? {
    }
  }

  lemma CommitKeepsPromos(s: Sys, tx: Tx, after: DB)
    requires Reads(s, tx) && Effect(s, tx) == Ok(after) && UsesOk(s.db.uses, s.db.promos, s.db.users)
    requires PromoLaw(s.db.promos, s.db.uses, s.db.ledger)
    ensures PromoLaw(after.promos, after.uses, after.ledger)
  {
    if tx.ApplyPromo? {
      ApplicationKeepsLaw(s.db, tx.p, tx.u, tx.id);
    } else if tx.CreatePromo? {
      CreationKeepsLaw(s.db, tx.p, tx.promo);
    } else if tx.MergeAccounts? {
      MergeKeepsLaw(s.db, tx.src, tx.dst);
    } else if !tx.Register? {
      TransactionsBookOneRow(s, tx, after);
      OthersLeavePromos(s, tx, after);
      ForeignBookingKeepsLaw(s.db, after, if Heading(s, tx).Some? then Heading(s, tx).value else Spent);
    }
  }

  lemma StepKeepsPromos(s: Sys, step: Step)
    requires PromoLaw(s.db.promos, s.db.uses, s.db.ledger) && Enabled(s, step)
    ensures var t := Next(s, step); PromoLaw(t.db.promos, t.db.uses, t.db.ledger)
  {
    if step.Commit? {
      CommitKeepsPromos(s, step.tx, Effect(s, step.tx).value);
    }
  }

  lemma MintingIsBounded(promo: Promo, uses: map<nat, (nat, nat)>, ledger: seq<Row>, p: nat)
    requires Capped(promo, uses, p) && Minted(promo, ledger, p) && promo.yad >= 0
    ensures 0 <= Booked(ledger, PromoCredit(p)) <= promo.maxUses * promo.yad
    ensures !promo.isYad ==> Booked(ledger, PromoCredit(p)) == 0
  {
    assert 0 <= promo.used * promo.yad <= promo.maxUses * promo.yad;
  }
}
