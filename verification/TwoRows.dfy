/**
 A user with two subscription rows, as a trial next to a row leaves, whom a charged-back
 purchase leaves better off: because other charge-backs, or an admin's days, then hit other
 rows than they would have hit without it.
 */
module TwoRows {
  import opened Prelude
  import opened Domain
  import opened Tables
  import opened Transactions
  import opened System
  import opened Witnesses

  // ----- One user, that user's payments and rows ----------------------------------------------------

  datatype Home = Home(ltv: int, trialUsed: bool, payments: map<nat, Payment>, subs: map<nat, Sub>)

  function Bill(plan: Plan, status: PaymentStatus): Payment {
    Payment(ALICE, PlanPriceKopecks(plan), status, plan, 0, Some(HOUR / 2))
  }

  function House(h: Home): DB {
    EMPTY.(users := map[ALICE := User(0, h.ltv, None, h.trialUsed, 0)], payments := h.payments, subs := h.subs)
  }

  /** Payments of one user for paid plans, at most one of them pending, and that user's rows. */
  ghost predicate Proper(h: Home) {
    && (forall p | p in h.payments ::
          h.payments[p].user == ALICE && IsPaidPlan(h.payments[p].plan) && h.payments[p].qty == 0)
    && (forall p, q | p in h.payments && q in h.payments && p != q ::
          h.payments[p].status != PENDING || h.payments[q].status != PENDING)
    && (forall row | row in h.subs :: h.subs[row].user == ALICE && !IsExpansionPlan(h.subs[row].plan))
  }

  lemma HousesAreLegal(h: Home)
    requires Proper(h)
    ensures Constraints(House(h))
  {
  }

  /** The run stands at this house, with nothing in flight. */
  ghost predicate At(states: seq<Sys>, s: Sys, h: Home) {
    Ends(states, s) && s.db == House(h) && Proper(h) && s.flight == map[]
  }

  ghost predicate Untouched(s: Sys, key: Key) {
    key !in s.events && key !in s.once
  }

  /** Only these keys have been used since, and these deeds done. */
  ghost predicate Since(s: Sys, t: Sys, keys: set<Key>, acts: seq<L.Act>) {
    && t.events <= s.events + keys && t.once.Keys <= s.once.Keys + keys
    && DeedsOf(t.deeds, ALICE) == DeedsOf(s.deeds, ALICE) + acts
  }

  function Deeds(s: Sys, tx: Tx): seq<L.Act> {
    if Deed(s, tx).None? then [] else [Deed(s, tx).value.1]
  }

  lemma Moves(states: seq<Sys>, s: Sys, tx: Tx, home: Home) returns (longer: seq<Sys>, t: Sys)
    requires Ends(states, s) && Constraints(s.db) && Reads(s, tx) && Effect(s, tx) == Ok(House(home)) && Proper(home)
    requires if tx.SettleEvent? then s.flight - {tx.key} == map[] else s.flight == map[]
    requires Deed(s, tx).Some? ==> Deed(s, tx).value.0 == ALICE
    ensures At(longer, t, home) && t.granted == s.granted + Granted(s, tx)
    ensures Since(s, t, {}, Deeds(s, tx))
  {
    HousesAreLegal(home);
    hide Constraints, Run, Reads, Effect, House, Proper, Deed, Granted, Offered, JobsSent;
    hide Skews, RepaidAfter, DoubledAfter, SlotsAfter, RewardJobsAfter, Relayed;
    longer := Commits(states, s, tx, House(home));
    t := Next(s, Commit(tx));
  }

  // ----- Paying ---------------------------------------------------------------------------------------

  function Ordered(h: Home, p: nat, plan: Plan): Home {
    h.(payments := h.payments[p := Bill(plan, PENDING)])
  }

  lemma OrderFits(s: Sys, h: Home, p: nat, plan: Plan)
    requires s.db == House(h) && Proper(h) && p !in h.payments && (plan.Week? || plan.Month? || plan.ThreeMonths?)
    requires forall q | q in h.payments :: h.payments[q].status != PENDING
    ensures var tx := Checkout(p, ALICE, plan, 0, false);
            && Reads(s, tx) && Effect(s, tx) == Ok(House(Ordered(h, p, plan))) && Proper(Ordered(h, p, plan))
            && Deed(s, tx).None? && Granted(s, tx) == multiset{}
  {
  }

  lemma Orders(states: seq<Sys>, s: Sys, h: Home, p: nat, plan: Plan) returns (longer: seq<Sys>, t: Sys, home: Home)
    requires At(states, s, h) && p !in h.payments && (plan.Week? || plan.Month? || plan.ThreeMonths?)
    requires forall q | q in h.payments :: h.payments[q].status != PENDING
    ensures home == Ordered(h, p, plan) && At(longer, t, home)
    ensures Since(s, t, {}, []) && t.granted == s.granted
  {
    home := Ordered(h, p, plan);
    HousesAreLegal(h);
    OrderFits(s, h, p, plan);
    hide Constraints, Run, Reads, Effect, House, Proper, Deed, Granted;
    longer, t := Moves(states, s, Checkout(p, ALICE, plan, 0, false), home);
  }

  function Paid(h: Home, p: nat, plan: Plan): Home {
    h.(ltv := h.ltv + PlanPriceKopecks(plan), payments := h.payments[p := Bill(plan, CONFIRMED)])
  }

  lemma HouseConfirms(h: Home, p: nat, plan: Plan)
    requires p in h.payments && h.payments[p] == Bill(plan, PENDING)
    ensures Confirm(House(h), p, ALICE, PlanPriceKopecks(plan)) == Ok(House(Paid(h, p, plan)))
  {
    assert AddLtv(House(h).users, ALICE, PlanPriceKopecks(plan))
        == map[ALICE := User(0, h.ltv + PlanPriceKopecks(plan), None, h.trialUsed, 0)];
  }

  lemma ConfirmationFits(s: Sys, h: Home, p: nat, plan: Plan)
    requires s.db == House(h) && Proper(h)
    requires p in h.payments && h.payments[p] == Bill(plan, PENDING) && IsPaidPlan(plan)
    requires s.flight == map[(p, CONFIRMED) := Loaded(ALICE, Bill(plan, PENDING))]
    ensures var tx := SettleEvent((p, CONFIRMED), None, None, true, true);
            && Reads(s, tx) && Effect(s, tx) == Ok(House(Paid(h, p, plan))) && Proper(Paid(h, p, plan))
            && Deed(s, tx).None? && Granted(s, tx) == multiset{GrantJob(p, ALICE, plan, 1)}
  {
    hide Confirm, Revert;
    HouseConfirms(h, p, plan);
  }

  lemma Confirms(states: seq<Sys>, s: Sys, h: Home, p: nat, plan: Plan) returns (longer: seq<Sys>, t: Sys, home: Home)
    requires At(states, s, h) && p in h.payments && h.payments[p] == Bill(plan, PENDING) && IsPaidPlan(plan)
    requires Untouched(s, (p, CONFIRMED))
    ensures home == Paid(h, p, plan) && At(longer, t, home)
    ensures Since(s, t, {(p, CONFIRMED)}, []) && GrantJob(p, ALICE, plan, 1) in t.granted
  {
    home := Paid(h, p, plan);
    HousesAreLegal(h);
    var m, tx := s, SettleEvent((p, CONFIRMED), None, None, true, true);
    longer, m := Arrives(states, s, p, CONFIRMED);
    ConfirmationFits(m, h, p, plan);
    hide Constraints, Run, Reads, Effect, House, Proper, Deed, Granted;
    longer, t := Moves(longer, m, tx, home);
  }

  function GrantedSubs(subs: map<nat, Sub>, plan: Plan, target: Option<nat>, id: nat): map<nat, Sub>
    requires target.Some? ==> target.value in subs
  {
    match target
    case Some(row) => subs[row := ExtendRow(subs[row], 0, PlanDays(plan), plan)]
    case None => subs[id := Sub(ALICE, plan, Active, PlanDays(plan) * DAY)]
  }

  lemma ActivationFits(s: Sys, h: Home, p: nat, plan: Plan, target: Option<nat>, id: nat)
    requires s.db == House(h) && Proper(h) && GrantJob(p, ALICE, plan, 1) in s.granted
    requires !IsExpansionPlan(plan) && PlanDays(plan) > 0
    requires IsLatest(h.subs, ALICE, target) && (target.None? ==> id !in h.subs)
    ensures var tx, home := System.Activate(GrantJob(p, ALICE, plan, 1), target, id, 0),
                            h.(subs := GrantedSubs(h.subs, plan, target, id));
            && Reads(s, tx) && Effect(s, tx) == Ok(House(home)) && Proper(home)
            && Deed(s, tx) == Some((ALICE, GrantDeed(0, plan, target, id, 0))) && Granted(s, tx) == multiset{}
  {
  }

  lemma Activates(states: seq<Sys>, s: Sys, h: Home, p: nat, plan: Plan, target: Option<nat>, id: nat)
    returns (longer: seq<Sys>, t: Sys, home: Home)
    requires At(states, s, h) && GrantJob(p, ALICE, plan, 1) in s.granted
    requires !IsExpansionPlan(plan) && PlanDays(plan) > 0
    requires IsLatest(h.subs, ALICE, target) && (target.None? ==> id !in h.subs)
    ensures home == h.(subs := GrantedSubs(h.subs, plan, target, id)) && At(longer, t, home)
    ensures Since(s, t, {}, [GrantDeed(0, plan, target, id, 0)])
  {
    home := h.(subs := GrantedSubs(h.subs, plan, target, id));
    HousesAreLegal(h);
    ActivationFits(s, h, p, plan, target, id);
    hide Constraints, Run, Reads, Effect, House, Proper, Deed, Granted;
    longer, t := Moves(states, s, System.Activate(GrantJob(p, ALICE, plan, 1), target, id, 0), home);
  }

  /** A purchase from the order to the activation, which goes to the row that ends last or makes the first one. */
  lemma Pays(states: seq<Sys>, s: Sys, h: Home, p: nat, plan: Plan, target: Option<nat>, id: nat)
    returns (longer: seq<Sys>, t: Sys, home: Home)
    requires At(states, s, h) && p !in h.payments && (plan.Week? || plan.Month? || plan.ThreeMonths?)
    requires forall q | q in h.payments :: h.payments[q].status != PENDING
    requires Untouched(s, (p, CONFIRMED)) && IsLatest(h.subs, ALICE, target) && (target.None? ==> id !in h.subs)
    ensures At(longer, t, home) && Since(s, t, {(p, CONFIRMED)}, [GrantDeed(0, plan, target, id, 0)])
    ensures home == Paid(h, p, plan).(subs := GrantedSubs(h.subs, plan, target, id))
  {
    hide At, GrantedSubs, GrantDeed, Bill, IsLatest;
    var m;
    longer, m, home := Orders(states, s, h, p, plan);
    longer, t, home := Confirms(longer, m, home, p, plan);
    assert home.payments == h.payments[p := Bill(plan, CONFIRMED)];
    longer, t, home := Activates(longer, t, home, p, plan, target, id);
  }

  // ----- The other things that happen to rows -----------------------------------------------------------

  function ChargedBack(h: Home, p: nat, plan: Plan, row: nat): Home
    requires row in h.subs
  {
    h.(ltv := h.ltv - PlanPriceKopecks(plan), payments := h.payments[p := Bill(plan, CHARGEBACKED)],
       subs := h.subs[row := ContractRow(h.subs[row], 0, PlanDays(plan))])
  }

  lemma HouseReverts(h: Home, p: nat, plan: Plan, row: nat)
    requires p in h.payments && h.payments[p] == Bill(plan, CONFIRMED) && row in h.subs
    requires !IsExpansionPlan(plan) && PlanDays(plan) > 0
    ensures Revert(House(h), p, ALICE, Bill(plan, CONFIRMED), CHARGEBACKED, Some(row), None)
         == Ok(House(ChargedBack(h, p, plan, row)))
  {
    hide ContractRow;
    assert AddLtv(House(h).users, ALICE, 0 - PlanPriceKopecks(plan))
        == map[ALICE := User(0, h.ltv - PlanPriceKopecks(plan), None, h.trialUsed, 0)];
  }

  lemma ChargedBackIsProper(h: Home, p: nat, plan: Plan, row: nat)
    requires Proper(h) && p in h.payments && h.payments[p] == Bill(plan, CONFIRMED) && row in h.subs
    ensures Proper(ChargedBack(h, p, plan, row))
  {
  }

  lemma ChargebackFits(s: Sys, h: Home, p: nat, plan: Plan, row: nat)
    requires s.db == House(h) && Proper(h) && p in h.payments && h.payments[p] == Bill(plan, CONFIRMED)
    requires s.flight == map[(p, CHARGEBACKED) := Loaded(ALICE, Bill(plan, CONFIRMED))]
    requires !IsExpansionPlan(plan) && PlanDays(plan) > 0 && IsLatest(h.subs, ALICE, Some(row))
    ensures var tx := SettleEvent((p, CHARGEBACKED), Some(row), None, false, false);
            && Reads(s, tx) && Effect(s, tx) == Ok(House(ChargedBack(h, p, plan, row)))
            && Proper(ChargedBack(h, p, plan, row)) && Deed(s, tx) == Some((ALICE, L.Refund(0, PlanDays(plan) * DAY)))
  {
    hide Proper, Revert, ContractRow;
    HouseReverts(h, p, plan, row);
    ChargedBackIsProper(h, p, plan, row);
  }

  lemma ChargesBack(states: seq<Sys>, s: Sys, h: Home, p: nat, plan: Plan, row: nat)
    returns (longer: seq<Sys>, t: Sys, home: Home)
    requires At(states, s, h) && p in h.payments && h.payments[p] == Bill(plan, CONFIRMED)
    requires Untouched(s, (p, CHARGEBACKED))
    requires !IsExpansionPlan(plan) && PlanDays(plan) > 0 && IsLatest(h.subs, ALICE, Some(row))
    ensures home == ChargedBack(h, p, plan, row) && At(longer, t, home)
    ensures Since(s, t, {(p, CHARGEBACKED)}, [L.Refund(0, PlanDays(plan) * DAY)])
  {
    home := ChargedBack(h, p, plan, row);
    HousesAreLegal(h);
    var m, tx := s, SettleEvent((p, CHARGEBACKED), Some(row), None, false, false);
    longer, m := Arrives(states, s, p, CHARGEBACKED);
    ChargebackFits(m, h, p, plan, row);
    hide Constraints, Run, Reads, Effect, House, Proper, Deed;
    longer, t := Moves(longer, m, tx, home);
  }

  function Trying(h: Home, row: nat): Home {
    h.(trialUsed := true, subs := h.subs[row := Sub(ALICE, Week, Trial, 3 * DAY)])
  }

  lemma TrialFits(s: Sys, h: Home, row: nat)
    requires s.db == House(h) && Proper(h) && !h.trialUsed && row !in h.subs
    ensures var tx := BeginTrial(ALICE, row, 0);
            && Reads(s, tx) && Effect(s, tx) == Ok(House(Trying(h, row))) && Proper(Trying(h, row))
            && Deed(s, tx) == Some((ALICE, L.Adopt(map[row := 3 * DAY])))
  {
    assert House(h).users[ALICE := User(0, h.ltv, None, true, 0)] == House(Trying(h, row)).users;
  }

  lemma Tries(states: seq<Sys>, s: Sys, h: Home, row: nat) returns (longer: seq<Sys>, t: Sys, home: Home)
    requires At(states, s, h) && !h.trialUsed && row !in h.subs
    ensures home == Trying(h, row) && At(longer, t, home) && Since(s, t, {}, [L.Adopt(map[row := 3 * DAY])])
  {
    home := Trying(h, row);
    HousesAreLegal(h);
    TrialFits(s, h, row);
    hide Constraints, Run, Reads, Effect, House, Proper, Deed;
    longer, t := Moves(states, s, BeginTrial(ALICE, row, 0), home);
  }

  function Lengthened(h: Home, row: nat, more: nat): Home
    requires row in h.subs
  {
    h.(subs := h.subs[row := ExtendRowByDays(h.subs[row], 0, more)])
  }

  lemma DaysFit(s: Sys, h: Home, row: nat, more: nat)
    requires s.db == House(h) && Proper(h) && row in h.subs
    ensures var tx := ExtendDays(row, more);
            && Reads(s, tx) && Effect(s, tx) == Ok(House(Lengthened(h, row, more))) && Proper(Lengthened(h, row, more))
            && Deed(s, tx) == Some((ALICE, L.Days(row, 0, more * DAY)))
  {
  }

  lemma Adds(states: seq<Sys>, s: Sys, h: Home, row: nat, more: nat) returns (longer: seq<Sys>, t: Sys, home: Home)
    requires At(states, s, h) && row in h.subs
    ensures home == Lengthened(h, row, more) && At(longer, t, home) && Since(s, t, {}, [L.Days(row, 0, more * DAY)])
  {
    home := Lengthened(h, row, more);
    HousesAreLegal(h);
    DaysFit(s, h, row, more);
    hide Constraints, Run, Reads, Effect, House, Proper, Deed;
    longer, t := Moves(states, s, ExtendDays(row, more), home);
  }

  // ----- Two runs that differ in one purchase -----------------------------------------------------------

  /** The deeds and the keys of a run so far. */
  ghost predicate Did(s: Sys, keys: set<Key>, acts: seq<L.Act>) {
    s.events <= keys && s.once.Keys <= keys && DeedsOf(s.deeds, ALICE) == acts
  }

  lemma MovesIn() returns (states: seq<Sys>, s: Sys, h: Home)
    ensures At(states, s, h) && Did(s, {}, []) && h == Home(0, false, map[], map[])
  {
    hide Run;
    states := Registered();
    s, h := Bare(Door(false, false)), Home(0, false, map[], map[]);
    assert House(h) == Door(false, false);
  }

  const WEEK: int := 7 * DAY
  const MONTH: int := 30 * DAY
  const QUARTER: int := 90 * DAY

  /** Two purchases in one row, a trial beside it, and days given to the trial. */
  const SETTLED: seq<L.Act> :=
    [L.Adopt(map[0 := WEEK]), L.Buy(0, MONTH), L.Adopt(map[1 := 3 * DAY]), L.Days(1, 0, 33 * DAY)]

  const PAID: set<Key> := {(0, CONFIRMED), (1, CONFIRMED)}

  function Row0(plan: Plan, days: int): Sub {
    Sub(ALICE, plan, Active, days * DAY)
  }

  function Row1(days: int): Sub {
    Sub(ALICE, Week, Trial, days * DAY)
  }

  lemma Settling() returns (states: seq<Sys>, s: Sys, h: Home)
    ensures At(states, s, h) && Did(s, PAID, SETTLED)
    ensures h.payments == map[0 := Bill(Week, CONFIRMED), 1 := Bill(Month, CONFIRMED)]
    ensures h.subs == map[0 := Row0(Month, 37), 1 := Row1(36)]
  {
    hide At;
    states, s, h := MovesIn();
    states, s, h := Pays(states, s, h, 0, Week, None, 0);
    assert h.subs == map[0 := Row0(Week, 7)] && h.payments == map[0 := Bill(Week, CONFIRMED)];
    states, s, h := Pays(states, s, h, 1, Month, Some(0), 0);
    assert h.subs == map[0 := Row0(Month, 37)];
    states, s, h := Tries(states, s, h, 1);
    assert h.subs == map[0 := Row0(Month, 37), 1 := Row1(3)];
    states, s, h := Adds(states, s, h, 1, 33);
  }

  /** The two earlier payments are charged back. */
  const BETWEEN: seq<L.Act> := [L.Refund(0, WEEK), L.Refund(0, MONTH)]

  lemma WeekChargedBackAlone() returns (states: seq<Sys>, s: Sys, h: Home)
    ensures At(states, s, h) && DeedsOf(s.deeds, ALICE) == SETTLED + [L.Refund(0, WEEK)]
    ensures Untouched(s, (1, CHARGEBACKED)) && 1 in h.payments && h.payments[1] == Bill(Month, CONFIRMED)
    ensures h.subs == map[0 := Row0(Month, 30), 1 := Row1(36)]
  {
    hide At, Bill;
    states, s, h := Settling();
    states, s, h := ChargesBack(states, s, h, 0, Week, 0);
  }

  lemma WithoutThePurchase() returns (states: seq<Sys>, s: Sys, h: Home)
    ensures At(states, s, h) && DeedsOf(s.deeds, ALICE) == SETTLED + BETWEEN
    ensures 0 in h.subs && IsLatest(h.subs, ALICE, Some(0)) && h.subs[0].expires == 30 * DAY
  {
    hide At, Bill;
    states, s, h := WeekChargedBackAlone();
    states, s, h := ChargesBack(states, s, h, 1, Month, 1);
    assert h.subs == map[0 := Row0(Month, 30), 1 := Row1(6)];
  }

  lemma Upgrading() returns (states: seq<Sys>, s: Sys, h: Home)
    ensures At(states, s, h) && Did(s, PAID + {(2, CONFIRMED)}, SETTLED + [L.Buy(0, QUARTER)])
    ensures h.payments
         == map[0 := Bill(Week, CONFIRMED), 1 := Bill(Month, CONFIRMED), 2 := Bill(ThreeMonths, CONFIRMED)]
    ensures h.subs == map[0 := Row0(ThreeMonths, 127), 1 := Row1(36)]
  {
    hide At;
    states, s, h := Settling();
    states, s, h := Pays(states, s, h, 2, ThreeMonths, Some(0), 0);
  }

  lemma WeekChargedBack() returns (states: seq<Sys>, s: Sys, h: Home)
    ensures At(states, s, h) && DeedsOf(s.deeds, ALICE) == SETTLED + [L.Buy(0, QUARTER)] + [L.Refund(0, WEEK)]
    ensures Untouched(s, (1, CHARGEBACKED)) && Untouched(s, (2, CHARGEBACKED)) && 1 in h.payments && 2 in h.payments
    ensures h.payments[1] == Bill(Month, CONFIRMED) && h.payments[2] == Bill(ThreeMonths, CONFIRMED)
    ensures h.subs == map[0 := Row0(ThreeMonths, 120), 1 := Row1(36)]
  {
    hide At, Bill;
    states, s, h := Upgrading();
    states, s, h := ChargesBack(states, s, h, 0, Week, 0);
  }

  lemma MonthChargedBack() returns (states: seq<Sys>, s: Sys, h: Home)
    ensures At(states, s, h) && DeedsOf(s.deeds, ALICE) == SETTLED + [L.Buy(0, QUARTER)] + BETWEEN
    ensures Untouched(s, (2, CHARGEBACKED)) && 2 in h.payments && h.payments[2] == Bill(ThreeMonths, CONFIRMED)
    ensures h.subs == map[0 := Row0(ThreeMonths, 90), 1 := Row1(36)]
  {
    hide At, Bill, PlanPriceKopecks;
    states, s, h := WeekChargedBack();
    states, s, h := ChargesBack(states, s, h, 1, Month, 0);
  }

  lemma WithThePurchase() returns (states: seq<Sys>, s: Sys, h: Home)
    ensures At(states, s, h)
    ensures DeedsOf(s.deeds, ALICE) == SETTLED + ([L.Buy(0, QUARTER)] + (BETWEEN + [L.Refund(0, QUARTER)]))
    ensures 1 in h.subs && IsLatest(h.subs, ALICE, Some(1)) && h.subs[1].expires == 36 * DAY
  {
    hide At;
    states, s, h := MonthChargedBack();
    states, s, h := ChargesBack(states, s, h, 2, ThreeMonths, 0);
  }

  /**
   Two runs in which the same things happen to the user, but for one purchase that is charged
   back: the user it is taken from ends six days later than the user who never paid, because
   with it the other charge-backs fall on a row that does not count afterwards.
   */
  lemma TwoRowsCanPay() returns (paid: seq<Sys>, s: Sys, never: seq<Sys>, t: Sys)
    ensures Ends(paid, s) && Ends(never, t) && s.db.now == t.db.now
    ensures DeedsOf(s.deeds, ALICE) == SETTLED + ([L.Buy(0, QUARTER)] + (BETWEEN + [L.Refund(0, QUARTER)]))
    ensures DeedsOf(t.deeds, ALICE) == SETTLED + BETWEEN
    ensures IsLatest(s.db.subs, ALICE, Some(1)) && s.db.subs[1].expires == 36 * DAY
    ensures IsLatest(t.db.subs, ALICE, Some(0)) && t.db.subs[0].expires == 30 * DAY
  {
    var g, h;
    paid, s, g := WithThePurchase();
    never, t, h := WithoutThePurchase();
  }

  // ----- Days from an admin do it too --------------------------------------------------------------------

  const HELD: seq<L.Act> := [L.Adopt(map[0 := MONTH]), L.Adopt(map[1 := 3 * DAY])]

  lemma Holding() returns (states: seq<Sys>, s: Sys, h: Home)
    ensures At(states, s, h) && Did(s, {(0, CONFIRMED)}, HELD)
    ensures h.payments == map[0 := Bill(Month, CONFIRMED)] && h.subs == map[0 := Row0(Month, 30), 1 := Row1(3)]
  {
    hide At;
    states, s, h := MovesIn();
    states, s, h := Pays(states, s, h, 0, Month, None, 0);
    assert h.subs == map[0 := Row0(Month, 30)] && h.payments == map[0 := Bill(Month, CONFIRMED)];
    states, s, h := Tries(states, s, h, 1);
  }

  lemma DaysAlone() returns (states: seq<Sys>, s: Sys, h: Home)
    ensures At(states, s, h)
    ensures DeedsOf(s.deeds, ALICE) == HELD + ([L.Days(1, 0, 200 * DAY)] + [L.Days(0, 0, 100 * DAY)])
    ensures 1 in h.subs && IsLatest(h.subs, ALICE, Some(1)) && h.subs[1].expires == 203 * DAY
  {
    hide At;
    states, s, h := Holding();
    states, s, h := Adds(states, s, h, 1, 200);
    assert h.subs == map[0 := Row0(Month, 30), 1 := Row1(203)];
    states, s, h := Adds(states, s, h, 0, 100);
  }

  lemma Lengthening() returns (states: seq<Sys>, s: Sys, h: Home)
    ensures At(states, s, h)
        && Did(s, {(0, CONFIRMED), (1, CONFIRMED)}, HELD + ([L.Buy(0, QUARTER)] + [L.Days(1, 0, 200 * DAY)]))
    ensures 1 in h.payments && h.payments[1] == Bill(ThreeMonths, CONFIRMED)
    ensures h.subs == map[0 := Row0(ThreeMonths, 120), 1 := Row1(203)]
  {
    hide At;
    states, s, h := Holding();
    states, s, h := Pays(states, s, h, 1, ThreeMonths, Some(0), 0);
    assert h.subs == map[0 := Row0(ThreeMonths, 120), 1 := Row1(3)];
    states, s, h := Adds(states, s, h, 1, 200);
  }

  lemma DaysAroundAPurchase() returns (states: seq<Sys>, s: Sys, h: Home)
    ensures At(states, s, h)
    ensures DeedsOf(s.deeds, ALICE) == HELD + ([L.Buy(0, QUARTER)]
        + ([L.Days(1, 0, 200 * DAY)] + ([L.Refund(0, QUARTER)] + [L.Days(0, 0, 100 * DAY)])))
    ensures 0 in h.subs && IsLatest(h.subs, ALICE, Some(0)) && h.subs[0].expires == 220 * DAY
  {
    hide At;
    hide Bill;
    states, s, h := Lengthening();
    states, s, h := ChargesBack(states, s, h, 1, ThreeMonths, 1);
    assert h.subs == map[0 := Row0(ThreeMonths, 120), 1 := Row1(113)];
    states, s, h := Adds(states, s, h, 0, 100);
  }

  /**
   The same with days that an admin adds to rows of their choice, and no other charge-back:
   17 days better than the user who never paid.
   */
  lemma DaysCanPay() returns (paid: seq<Sys>, s: Sys, never: seq<Sys>, t: Sys)
    ensures Ends(paid, s) && Ends(never, t) && s.db.now == t.db.now
    ensures DeedsOf(s.deeds, ALICE) == HELD + ([L.Buy(0, QUARTER)]
        + ([L.Days(1, 0, 200 * DAY)] + ([L.Refund(0, QUARTER)] + [L.Days(0, 0, 100 * DAY)])))
    ensures DeedsOf(t.deeds, ALICE) == HELD + ([L.Days(1, 0, 200 * DAY)] + [L.Days(0, 0, 100 * DAY)])
    ensures IsLatest(s.db.subs, ALICE, Some(0)) && s.db.subs[0].expires == 220 * DAY
    ensures IsLatest(t.db.subs, ALICE, Some(1)) && t.db.subs[1].expires == 203 * DAY
  {
    var g, h;
    paid, s, g := DaysAroundAPurchase();
    never, t, h := DaysAlone();
  }
}
