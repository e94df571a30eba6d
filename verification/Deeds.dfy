/** The subscription rows of each user against what was done to them: one row or several, whichever ends last. */
module Deeds {
  import opened Prelude
  import opened Domain
  import opened Tables
  import opened Transactions
  import opened Merge
  import opened System
  import opened History

  /** A user's rows are what the user's deeds lead to, from none, in the order of the clock. */
  ghost predicate DeedsLaw(subs: map<nat, Sub>, deeds: map<nat, seq<L.Act>>, gone: set<nat>, now: int) {
    && 0 <= now
    && forall u: nat | u !in gone ::
         L.Leads(map[], DeedsOf(deeds, u), UserRows(subs, u)) && L.Timeline(0, DeedsOf(deeds, u), now)
  }

  /** The transaction changes the rows of one user by one act; `top` is the row it picked. */
  ghost predicate Enacts(subs: map<nat, Sub>, after: map<nat, Sub>, deed: Option<(nat, L.Act)>, src: Option<nat>,
          now: int, top: nat) {
    && (forall u: nat | (deed.Some? ==> u != deed.value.0) && Some(u) != src :: UserRows(after, u) == UserRows(subs, u))
    && (deed.Some? ==>
          && L.Does(UserRows(subs, deed.value.0), deed.value.1, top, UserRows(after, deed.value.0))
          && (deed.value.1.Adopt? || deed.value.1.at == now))
  }

  lemma TopIsLatest(subs: map<nat, Sub>, u: nat, row: nat)
    requires IsLatest(subs, u, Some(row))
    ensures L.IsTop(UserRows(subs, u), row)
  {
  }

  /** One row of u gets a new expiry; everything else stays. */
  lemma OneRowMoves(subs: map<nat, Sub>, row: nat, sub: Sub, u: nat)
    requires row in subs && subs[row].user == sub.user
    ensures UserRows(subs[row := sub], u)
         == if u == sub.user then UserRows(subs, u)[row := sub.expires] else UserRows(subs, u)
  {
  }

  lemma OneRowComes(subs: map<nat, Sub>, row: nat, sub: Sub, u: nat)
    requires row !in subs
    ensures UserRows(subs[row := sub], u)
         == if u == sub.user then UserRows(subs, u) + map[row := sub.expires] else UserRows(subs, u)
  {
  }

  /** The latest row gets longer. */
  lemma ExtensionEnacts(subs: map<nat, Sub>, u: nat, row: nat, now: int, days: nat, plan: Plan)
    requires IsLatest(subs, u, Some(row))
    ensures Enacts(subs, subs[row := ExtendRow(subs[row], now, days, plan)], Some((u, L.Buy(now, days * DAY))), None,
                   now, row)
  {
    TopIsLatest(subs, u, row);
    forall v: nat { OneRowMoves(subs, row, ExtendRow(subs[row], now, days, plan), v); }
  }

  /** A new row comes. */
  lemma CreationEnacts(subs: map<nat, Sub>, row: nat, sub: Sub, now: int, any: nat)
    requires row !in subs
    ensures Enacts(subs, subs[row := sub], Some((sub.user, L.Adopt(map[row := sub.expires]))), None, now, any)
  {
    forall v: nat { OneRowComes(subs, row, sub, v); }
  }

  lemma GrantEnacts(db: DB, u: nat, plan: Plan, target: Option<nat>, id: nat, at: int) returns (top: nat)
    requires IsLatest(db.subs, u, target) && Grant(db, u, plan, target, id, at).Ok?
    ensures Enacts(db.subs, Grant(db, u, plan, target, id, at).value.subs,
                   Some((u, GrantDeed(db.now, plan, target, id, at))), None, db.now, top)
  {
    hide Enacts;
    top := if target.Some? then target.value else id;
    if target.Some? {
      ExtensionEnacts(db.subs, u, top, db.now, PlanDays(plan), plan);
    } else {
      CreationEnacts(db.subs, id, Sub(u, plan, Active, at + PlanDays(plan) * DAY), db.now, id);
    }
  }

  lemma TrialEnacts(db: DB, u: nat, id: nat, at: int)
    requires StartTrial(db, u, id, at).Ok?
    ensures Enacts(db.subs, StartTrial(db, u, id, at).value.subs, Some((u, L.Adopt(map[id := at + 3 * DAY]))), None,
                   db.now, 0)
  {
    hide Enacts;
    CreationEnacts(db.subs, id, Sub(u, Week, Trial, at + 3 * DAY), db.now, 0);
  }

  lemma DaysEnact(subs: map<nat, Sub>, row: nat, now: int, more: nat)
    requires row in subs
    ensures Enacts(subs, subs[row := ExtendRowByDays(subs[row], now, more)],
                   Some((subs[row].user, L.Days(row, now, more * DAY))), None, now, 0)
  {
    forall v: nat { OneRowMoves(subs, row, ExtendRowByDays(subs[row], now, more), v); }
  }

  lemma MergeEnacts(subs: map<nat, Sub>, src: nat, dst: nat, now: int)
    requires src != dst
    ensures Enacts(subs, MoveSubs(subs, src, dst), Some((dst, L.Adopt(UserRows(subs, src)))), Some(src), now, 0)
  {
    var after := MoveSubs(subs, src, dst);
    assert UserRows(after, dst) == UserRows(subs, dst) + UserRows(subs, src);
    forall u: nat | u != src && u != dst ensures UserRows(after, u) == UserRows(subs, u) {
    }
  }

  lemma ContractionEnacts(subs: map<nat, Sub>, u: nat, row: nat, now: int, days: nat)
    requires IsLatest(subs, u, Some(row))
    ensures Enacts(subs, subs[row := ContractRow(subs[row], now, days)], Some((u, L.Refund(now, days * DAY))), None,
                   now, row)
  {
    TopIsLatest(subs, u, row);
    forall v: nat { OneRowMoves(subs, row, ContractRow(subs[row], now, days), v); }
  }

  lemma SameRowsEnactNothing(subs: map<nat, Sub>, after: map<nat, Sub>, now: int)
    requires SameOwners(subs, after) && forall row | row in subs :: after[row].expires == subs[row].expires
    ensures Enacts(subs, after, None, None, now, 0)
  {
    forall u: nat ensures UserRows(after, u) == UserRows(subs, u) {
    }
  }

  lemma RevertEnacts(db: DB, p: nat, u: nat, seen: Payment, status: PaymentStatus, target: Option<nat>,
          reward: Option<nat>) returns (top: nat)
    requires target.Some? ==> target.value in db.subs
    requires reward.Some? ==> reward.value in db.rewards && db.rewards[reward.value].referrer in db.users
    requires Revert(db, p, u, seen, status, target, reward).Ok?
    requires seen.status == CONFIRMED && ReversalOp(db.now, seen, target).Some? ==> IsLatest(db.subs, u, target)
    ensures var undone := seen.status == CONFIRMED && ReversalOp(db.now, seen, target).Some?;
            Enacts(db.subs, Revert(db, p, u, seen, status, target, reward).value.subs,
                   if undone then Some((u, L.Refund(db.now, PlanDays(seen.plan) * DAY))) else None, None, db.now, top)
  {
    hide Undo, UndoReward, Enacts, ContractRow;
    top := 0;
    if seen.status == CONFIRMED && ReversalOp(db.now, seen, target).Some? {
      top := target.value;
      UndoneRow(db, p, u, seen, status, target);
      ContractionEnacts(db.subs, u, top, db.now, PlanDays(seen.plan));
    } else {
      RevertPerforms(db, p, u, seen, status, target, reward);
      SameRowsEnactNothing(db.subs, Revert(db, p, u, seen, status, target, reward).value.subs, db.now);
    }
  }

  lemma UndoneRow(db: DB, p: nat, u: nat, seen: Payment, status: PaymentStatus, target: Option<nat>)
    requires u in db.users && (target.Some? ==> target.value in db.subs) && ReversalOp(db.now, seen, target).Some?
    ensures Undo(db, p, u, seen, status, target).subs
         == db.subs[target.value := ContractRow(db.subs[target.value], db.now, PlanDays(seen.plan))]
  {
  }

  lemma SettledEnacts(db: DB, p: nat, u: nat, event: PaymentStatus, seen: Payment, target: Option<nat>,
          reward: Option<nat>) returns (top: nat)
    requires target.Some? ==> target.value in db.subs
    requires reward.Some? ==> reward.value in db.rewards && db.rewards[reward.value].referrer in db.users
    requires Settle(db, p, u, event, seen, target, reward).Ok?
    requires IsReversal(event) && seen.status == CONFIRMED && ReversalOp(db.now, seen, target).Some? ==>
               IsLatest(db.subs, u, target)
    ensures var undone := IsReversal(event) && seen.status == CONFIRMED && ReversalOp(db.now, seen, target).Some?;
            Enacts(db.subs, Settle(db, p, u, event, seen, target, reward).value.subs,
                   if undone then Some((u, L.Refund(db.now, PlanDays(seen.plan) * DAY))) else None, None, db.now, top)
  {
    hide Revert, Enacts, Confirm;
    top := 0;
    if IsReversal(event) {
      top := RevertEnacts(db, p, u, seen, event, target, reward);
    } else {
      SameRowsEnactNothing(db.subs, Settle(db, p, u, event, seen, target, reward).value.subs, db.now);
    }
  }

  lemma SettleEnacts(s: Sys, tx: Tx, after: DB) returns (top: nat)
    requires tx.SettleEvent? && Reads(s, tx) && Effect(s, tx) == Ok(after)
    ensures Enacts(s.db.subs, after.subs, Deed(s, tx), None, s.db.now, top)
  {
    hide Settle, Enacts;
    var flight := s.flight[tx.key];
    top := SettledEnacts(s.db, tx.key.0, flight.user, tx.key.1, flight.seen, tx.target, tx.reward);
  }

  lemma OthersEnactNothing(s: Sys, tx: Tx, after: DB)
    requires Reads(s, tx) && Effect(s, tx) == Ok(after) && (!WritesSubs(tx) || tx.SetSubStatus? || tx.LapseSubs?)
    ensures Enacts(s.db.subs, after.subs, Deed(s, tx), None, s.db.now, 0)
  {
    hide Enacts;
    OthersKeepOwners(s, tx, after);
    if WritesSubs(tx) {
      StatusesAndMergesPerformNothing(s, tx, after);
    } else {
      OthersLeaveSubs(s, tx, after);
    }
    SameRowsEnactNothing(s.db.subs, after.subs, s.db.now);
  }

  lemma CommitEnacts(s: Sys, tx: Tx, after: DB) returns (top: nat)
    requires Reads(s, tx) && Effect(s, tx) == Ok(after)
    ensures Enacts(s.db.subs, after.subs, Deed(s, tx), if tx.MergeAccounts? then Some(tx.src) else None, s.db.now, top)
  {
    hide Enacts, Settle, Grant, StartTrial, IsLatest;
    top := 0;
    if tx.SettleEvent? {
      top := SettleEnacts(s, tx, after);
    } else if tx.Activate? {
      top := GrantEnacts(s.db, tx.job.user, tx.job.plan, tx.target, tx.id, tx.at);
    } else if tx.Assign? {
      top := GrantEnacts(s.db, tx.u, tx.plan, tx.target, tx.id, tx.at);
    } else if tx.BuyPlan? {
      var paid := Post(s.db, tx.u, 0 - PlanYADPrice(tx.plan), Spent);
      top := GrantEnacts(paid, tx.u, tx.plan, tx.target, tx.id, tx.at);
    } else if tx.BeginTrial? {
      TrialEnacts(s.db, tx.u, tx.id, tx.at);
    } else if tx.ExtendDays? {
      DaysEnact(s.db.subs, tx.s, s.db.now, tx.more);
    } else if tx.MergeAccounts? {
      MergeEnacts(s.db.subs, tx.src, tx.dst, s.db.now);
    } else {
      OthersEnactNothing(s, tx, after);
    }
  }

  lemma EnactedIsLed(subs: map<nat, Sub>, after: map<nat, Sub>, deeds: map<nat, seq<L.Act>>,
          deed: Option<(nat, L.Act)>, src: Option<nat>, gone: set<nat>, now: int, top: nat)
    requires DeedsLaw(subs, deeds, gone, now) && Enacts(subs, after, deed, src, now, top)
    ensures DeedsLaw(after, Done(deeds, deed), if src.Some? then gone + {src.value} else gone, now)
  {
    var gone' := if src.Some? then gone + {src.value} else gone;
    forall u: nat | u !in gone'
      ensures L.Leads(map[], DeedsOf(Done(deeds, deed), u), UserRows(after, u))
      ensures L.Timeline(0, DeedsOf(Done(deeds, deed), u), now)
    {
      if deed.Some? && u == deed.value.0 {
        L.LeadsSnoc(map[], DeedsOf(deeds, u), UserRows(subs, u), deed.value.1, top, UserRows(after, u));
        L.TimelineSnoc(0, DeedsOf(deeds, u), deed.value.1, now);
      }
    }
  }

  lemma DeedsOutliveTime(subs: map<nat, Sub>, deeds: map<nat, seq<L.Act>>, gone: set<nat>, now: int, later: int)
    requires DeedsLaw(subs, deeds, gone, now) && now <= later
    ensures DeedsLaw(subs, deeds, gone, later)
  {
    forall u: nat | u !in gone ensures L.Timeline(0, DeedsOf(deeds, u), later) {
      L.TimelineLater(0, DeedsOf(deeds, u), now, later);
    }
  }

  lemma StepKeepsDeeds(s: Sys, step: Step)
    requires DeedsLaw(s.db.subs, s.deeds, s.gone, s.db.now) && Enabled(s, step)
    ensures var t := Next(s, step); DeedsLaw(t.db.subs, t.deeds, t.gone, t.db.now)
  {
    hide DeedsLaw, Enacts, Deed;
    if step.Commit? {
      var tx, after := step.tx, Effect(s, step.tx).value;
      var top := CommitEnacts(s, tx, after);
      EnactedIsLed(s.db.subs, after.subs, s.deeds, Deed(s, tx), if tx.MergeAccounts? then Some(tx.src) else None,
                   s.gone, s.db.now, top);
      OnlyTicksMoveTheClock(s, tx, after);
      DeedsOutliveTime(after.subs, Done(s.deeds, Deed(s, tx)), GoneAfter(s, tx), s.db.now, after.now);
    }
  }

  // ----- What the deeds say --------------------------------------------------------------------------

  /** The rows the user had before the last of the deeds. */
  lemma RowsBefore(s: Sys, u: nat, before: seq<L.Act>, later: seq<L.Act>) returns (rows: L.Rows)
    requires DeedsLaw(s.db.subs, s.deeds, s.gone, s.db.now) && u !in s.gone && DeedsOf(s.deeds, u) == before + later
    ensures L.Leads(map[], before, rows) && L.Leads(rows, later, UserRows(s.db.subs, u))
  {
    rows := L.LeadsSplit(map[], before, later, UserRows(s.db.subs, u));
  }

  lemma DeedsTimeline(s: Sys, u: nat, before: seq<L.Act>, t1: int, days: nat, between: seq<L.Act>, t2: int,
          rest: seq<L.Act>)
    requires DeedsLaw(s.db.subs, s.deeds, s.gone, s.db.now) && u !in s.gone
    requires DeedsOf(s.deeds, u) == before + ([L.Buy(t1, days)] + (between + ([L.Refund(t2, days)] + rest)))
    ensures L.Timeline(t1, between, t2) && L.Timeline(t2, rest, s.db.now)
  {
    L.TimelineSplit(0, before, L.Buy(t1, days), between + ([L.Refund(t2, days)] + rest), s.db.now);
    L.TimelineSplit(t1, between, L.Refund(t2, days), rest, s.db.now);
  }
}
