/** Device slots over every run: each expansion row holds the maximum of what was granted to it. */
module Slots {
  import opened Prelude
  import opened Domain
  import opened Tables
  import opened Transactions
  import opened System
  import opened Expansions

  /** Rows survive or go, each keeping its columns; their owner may change. */
  ghost predicate OnlyDropped(rows: map<nat, DeviceExpansion>, after: map<nat, DeviceExpansion>) {
    forall e | e in after :: e in rows && after[e].extra == rows[e].extra && after[e].expires == rows[e].expires
  }

  lemma DroppingKeepsSlots(rows: map<nat, DeviceExpansion>, after: map<nat, DeviceExpansion>,
          slots: map<nat, seq<Expansions.Grant>>)
    requires SlotLaw(rows, slots) && OnlyDropped(rows, after)
    ensures SlotLaw(after, SlotsAfter(slots, None, after))
  {
  }

  lemma RevertOnlyDrops(db: DB, p: nat, u: nat, seen: Payment, status: PaymentStatus, target: Option<nat>,
          reward: Option<nat>)
    requires target.Some? ==> target.value in db.subs
    requires reward.Some? ==> reward.value in db.rewards && db.rewards[reward.value].referrer in db.users
    requires Revert(db, p, u, seen, status, target, reward).Ok?
    ensures OnlyDropped(db.expansions, Revert(db, p, u, seen, status, target, reward).value.expansions)
  {
    hide Undo, UndoReward;
    if seen.status == CONFIRMED {
      UndoIsExact(db, p, u, seen, status, target);
    }
  }

  lemma SettlingOnlyDrops(s: Sys, tx: Tx, after: DB)
    requires tx.SettleEvent? && Reads(s, tx) && Effect(s, tx) == Ok(after)
    ensures OnlyDropped(s.db.expansions, after.expansions)
  {
    hide Revert;
    if IsReversal(tx.key.1) {
      var flight := s.flight[tx.key];
      RevertOnlyDrops(s.db, tx.key.0, flight.user, flight.seen, tx.key.1, tx.target, tx.reward);
    }
  }

  lemma OthersOnlyDrop(s: Sys, tx: Tx, after: DB)
    requires Reads(s, tx) && Effect(s, tx) == Ok(after)
    requires !tx.SettleEvent? && !tx.BuyExpansion? && !tx.ActivateSlots?
    ensures OnlyDropped(s.db.expansions, after.expansions)
  {
    hide Transactions.Grant, Buy, StartTrial, Credit, UsePromo, PayReward, Payout;
    hide IsLatest, IsRewardOf, Unbooked;
  }

  /** A purchase or a paid job is one upsert of the user's row. */
  lemma GrantsUpsert(s: Sys, tx: Tx, after: DB)
    requires (tx.BuyExpansion? || tx.ActivateSlots?) && Reads(s, tx) && Effect(s, tx) == Ok(after)
    ensures tx.found.Some? || tx.id !in s.db.expansions
    ensures var u, g := if tx.BuyExpansion? then tx.u else tx.job.user, SlotGrant(tx).value.1;
            after.expansions == Upsert(s.db.expansions, tx.found, tx.id, u, g.extra, g.expires)
  {
  }

  lemma CommitKeepsSlots(s: Sys, tx: Tx, after: DB)
    requires Reads(s, tx) && Effect(s, tx) == Ok(after) && SlotLaw(s.db.expansions, s.slots)
    ensures SlotLaw(after.expansions, SlotsAfter(s.slots, SlotGrant(tx), after.expansions))
  {
    hide OnlyDropped, Settle, BuySlots, GrantSlots;
    if tx.BuyExpansion? || tx.ActivateSlots? {
      var u, g := if tx.BuyExpansion? then tx.u else tx.job.user, SlotGrant(tx).value.1;
      GrantsUpsert(s, tx, after);
      UpsertJoins(s.db.expansions, s.slots, tx.found, tx.id, u, g);
      GrantIsOneMore(s.slots, SlotGrant(tx).value, after.expansions);
    } else {
      if tx.SettleEvent? {
        SettlingOnlyDrops(s, tx, after);
      } else {
        OthersOnlyDrop(s, tx, after);
      }
      DroppingKeepsSlots(s.db.expansions, after.expansions, s.slots);
    }
  }

  lemma GrantIsOneMore(slots: map<nat, seq<Expansions.Grant>>, grant: (nat, Expansions.Grant),
          rows: map<nat, DeviceExpansion>)
    requires rows.Keys == slots.Keys + {grant.0}
    ensures SlotsAfter(slots, Some(grant), rows)
         == slots[grant.0 := (if grant.0 in slots then slots[grant.0] else []) + [grant.1]]
  {
  }

  lemma StepKeepsSlots(s: Sys, step: Step)
    requires SlotLaw(s.db.expansions, s.slots) && Enabled(s, step)
    ensures var t := Next(s, step); SlotLaw(t.db.expansions, t.slots)
  {
    hide SlotLaw;
    if step.Commit? {
      CommitKeepsSlots(s, step.tx, Effect(s, step.tx).value);
    }
  }
}
