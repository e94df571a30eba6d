/** Runs that reach the cases the laws exclude, step by step from the empty system. */
module Witnesses {
  import opened Prelude
  import opened Domain
  import opened Tables
  import opened Transactions
  import opened Sums
  import opened System
  import opened Jobs
  import opened Lifetime
  import R = Rewards

  // ----- Runs, step by step ----------------------------------------------------------------------

  ghost predicate Ends(states: seq<Sys>, s: Sys) {
    Run(states) && states[|states| - 1] == s
  }

  lemma OneMoreStep(states: seq<Sys>, s: Sys, step: Step) returns (longer: seq<Sys>)
    requires Ends(states, s) && Enabled(s, step)
    ensures Ends(longer, Next(s, step))
  {
    hide Enabled, Next;
    longer := states + [Next(s, step)];
    assert Follows(s, Next(s, step));
    forall i | 0 < i < |longer| ensures Follows(longer[i - 1], longer[i]) {
      if i < |states| {
        assert Follows(states[i - 1], states[i]);
      }
    }
  }

  /** The state with nothing but this database in it. */
  function Bare(db: DB): Sys {
    INITIAL.(db := db)
  }

  lemma Commits(states: seq<Sys>, s: Sys, tx: Tx, after: DB) returns (longer: seq<Sys>)
    requires Ends(states, s) && Constraints(s.db) && Reads(s, tx) && Effect(s, tx) == Ok(after) && Constraints(after)
    ensures Enabled(s, Commit(tx)) && Ends(longer, Next(s, Commit(tx)))
  {
    hide Constraints, Reads, Effect, Run;
    longer := OneMoreStep(states, s, Commit(tx));
  }

  lemma NoSlots()
    ensures forall grant :: SlotsAfter(map[], grant, map[]) == map[]
  {
  }

  // ----- One delivery of a webhook -----------------------------------------------------------------

  const ALICE: nat := 1

  ghost predicate Awaits(s: Sys, p: nat, event: PaymentStatus) {
    && p in s.db.payments && s.db.payments[p].user == ALICE && IsPaymentEvent(event)
    && (p, event) !in s.events && (p, event) !in s.once && (p, event) !in s.flight
  }

  function Posted(s: Sys, p: nat, event: PaymentStatus): Sys {
    s.(events := s.events + {(p, event)}, jobs := s.jobs + multiset{Job(p, ALICE, event)})
  }

  lemma Posts(s: Sys, p: nat, event: PaymentStatus)
    requires Awaits(s, p, event)
    ensures var step := Webhook((p, event), s.db.payments[p].amount, true);
            Enabled(s, step) && Next(s, step) == Posted(s, p, event)
  {
  }

  function TakenUp(s: Sys, p: nat, event: PaymentStatus, flight: Flight): Sys {
    s.(events := s.events + {(p, event)},
       once := s.once[(p, event) := s.db.now + ONCE_TTL],
       flight := s.flight[(p, event) := flight],
       crowd := if exists k | k in s.flight :: k.0 == p then s.crowd + {p} else s.crowd)
  }

  lemma Takes(s: Sys, p: nat, event: PaymentStatus)
    requires Awaits(s, p, event)
    ensures var posted, step := Posted(s, p, event), Take(Job(p, ALICE, event));
            Enabled(posted, step) && Next(posted, step) == TakenUp(s, p, event, Taken(ALICE))
  {
    hide Constraints, Reads, Effect, Accepted, Committed;
    assert Posted(s, p, event).jobs - multiset{Job(p, ALICE, event)} == s.jobs;
  }

  lemma Loads(s: Sys, p: nat, event: PaymentStatus)
    requires Awaits(s, p, event)
    ensures var taken, step := TakenUp(s, p, event, Taken(ALICE)), Load((p, event));
            Enabled(taken, step) && Next(taken, step) == TakenUp(s, p, event, Loaded(ALICE, s.db.payments[p]))
  {
    assert s.flight[(p, event) := Taken(ALICE)][(p, event) := Loaded(ALICE, s.db.payments[p])]
        == s.flight[(p, event) := Loaded(ALICE, s.db.payments[p])];
  }

  /** A webhook for the payment arrives, its job is taken off the queue, and the payment row is read. */
  lemma Arrives(states: seq<Sys>, s: Sys, p: nat, event: PaymentStatus) returns (longer: seq<Sys>, t: Sys)
    requires Ends(states, s) && Awaits(s, p, event)
    ensures Ends(longer, t) && t.db == s.db && t.events == s.events + {(p, event)} && t.jobs == s.jobs
    ensures t.once == s.once[(p, event) := s.db.now + ONCE_TTL]
    ensures t.flight == s.flight[(p, event) := Loaded(ALICE, s.db.payments[p])]
    ensures t == s.(events := t.events, once := t.once, flight := t.flight, crowd := t.crowd)
    ensures s.flight == map[] ==> t.crowd == s.crowd
  {
    hide Run, Enabled, Next, Awaits;
    Posts(s, p, event);
    Takes(s, p, event);
    Loads(s, p, event);
    longer := OneMoreStep(states, s, Webhook((p, event), s.db.payments[p].amount, true));
    longer := OneMoreStep(longer, Posted(s, p, event), Take(Job(p, ALICE, event)));
    longer := OneMoreStep(longer, TakenUp(s, p, event, Taken(ALICE)), Load((p, event)));
    t := TakenUp(s, p, event, Loaded(ALICE, s.db.payments[p]));
  }

  // ----- One user, one payment, one referrer ----------------------------------------------------------

  const BOB: nat := 2
  const BILL: nat := 0
  const REFERRAL: nat := 0
  const PRICE: int := 4000
  const YAD: nat := 2

  /** What the referrer's account shows after the reward of the one payment was credited `paid` times. */
  function Credits(paid: nat): seq<Row> {
    if paid == 0 then [] else Credits(paid - 1) + [Row(BOB, YAD, YAD * paid, RewardCredit(paid))]
  }

  /** A database with a user, that user's payment for a week, and the referrer, credited `paid` times for it. */
  function Shop(now: int, ltv: int, status: PaymentStatus, paid: nat := 0): DB {
    EMPTY.(now := now,
           users := map[ALICE := User(0, ltv, None, false, 0), BOB := User(YAD * paid, 0, None, false, 0)],
           payments := map[BILL := Payment(ALICE, PRICE, status, Week, 0, Some(HOUR / 2))],
           ledger := Credits(paid),
           referrals := map[REFERRAL := Referral(BOB, ALICE, PRICE * paid, YAD * paid)],
           rewards := if paid == 0 then map[] else map[1 := Reward(REFERRAL, BILL, BOB, YAD, YAD, Immediate)])
  }

  lemma {:induction false} CreditsAreBobs(paid: nat)
    ensures |Credits(paid)| == paid
    ensures forall i | 0 <= i < paid :: Credits(paid)[i] == Row(BOB, YAD, YAD * (i + 1), RewardCredit(i + 1))
  {
    if paid > 0 {
      CreditsAreBobs(paid - 1);
    }
  }

  lemma ShopsAreLegal(now: int, ltv: int, status: PaymentStatus, paid: nat := 0)
    ensures Constraints(Shop(now, ltv, status, paid))
  {
    CreditsAreBobs(paid);
  }

  /** Both users register; one refers the other. */
  function Door(bob: bool, referred: bool): DB {
    EMPTY.(users := if bob then map[ALICE := User(0, 0, None, false, 0), BOB := User(0, 0, None, false, 0)]
                    else map[ALICE := User(0, 0, None, false, 0)],
           referrals := if referred then map[REFERRAL := Referral(BOB, ALICE, 0, 0)] else map[])
  }

  lemma DoorsAreLegal(bob: bool, referred: bool)
    requires referred ==> bob
    ensures Constraints(EMPTY) && Constraints(Door(bob, referred))
  {
  }

  lemma Registered() returns (states: seq<Sys>)
    ensures Ends(states, Bare(Door(false, false)))
  {
    hide Constraints;
    DoorsAreLegal(false, false);
    states := Commits([INITIAL], INITIAL, Register(ALICE, None), Door(false, false));
    NoSlots();
    assert Next(INITIAL, Commit(Register(ALICE, None))) == Bare(Door(false, false));
  }

  lemma BothRegistered() returns (states: seq<Sys>)
    ensures Ends(states, Bare(Door(true, false)))
  {
    hide Constraints;
    var before := Registered();
    DoorsAreLegal(false, false);
    DoorsAreLegal(true, false);
    assert Door(false, false).users[BOB := FreshUser(None)] == Door(true, false).users;
    states := Commits(before, Bare(Door(false, false)), Register(BOB, None), Door(true, false));
    NoSlots();
    assert Next(Bare(Door(false, false)), Commit(Register(BOB, None))) == Bare(Door(true, false));
  }

  lemma Referred() returns (states: seq<Sys>)
    ensures Ends(states, Bare(Door(true, true)))
  {
    hide Constraints;
    var before := BothRegistered();
    var s, tx := Bare(Door(true, false)), Refer(REFERRAL, BOB, ALICE);
    DoorsAreLegal(true, false);
    DoorsAreLegal(true, true);
    assert Door(true, false).referrals[REFERRAL := Referral(BOB, ALICE, 0, 0)] == Door(true, true).referrals;
    states := Commits(before, s, tx, Door(true, true));
    NoSlots();
    assert s.repaid - {REFERRAL} == s.repaid;
    assert Next(s, Commit(tx)) == Bare(Door(true, true));
  }

  /** The user orders; the payment is pending. */
  lemma Ordered() returns (states: seq<Sys>)
    ensures Ends(states, Bare(Shop(0, 0, PENDING)))
  {
    hide Constraints;
    var before := Referred();
    var s, tx := Bare(Door(true, true)), Checkout(BILL, ALICE, Week, 0, false);
    DoorsAreLegal(true, true);
    ShopsAreLegal(0, 0, PENDING);
    assert Door(true, true).(payments := Shop(0, 0, PENDING).payments) == Shop(0, 0, PENDING);
    states := Commits(before, s, tx, Shop(0, 0, PENDING));
    NoSlots();
    assert Next(s, Commit(tx)) == Bare(Shop(0, 0, PENDING));
  }

  lemma ShopConfirms(now: int, ltv: int, status: PaymentStatus, paid: nat := 0)
    ensures Confirm(Shop(now, ltv, status, paid), BILL, ALICE, PRICE) == Ok(Shop(now, ltv + PRICE, CONFIRMED, paid))
  {
    var db := Shop(now, ltv, status, paid);
    assert SetStatus(db.payments, BILL, CONFIRMED) == Shop(now, ltv, CONFIRMED, paid).payments;
    assert AddLtv(db.users, ALICE, PRICE) == Shop(now, ltv + PRICE, status, paid).users;
  }

  /** The payment is confirmed and handled once, nothing out of the ordinary. */
  lemma ConfirmedOnce() returns (states: seq<Sys>, t: Sys)
    ensures Ends(states, t) && t.db == Shop(0, PRICE, CONFIRMED) && t.flight == map[]
    ensures t.events == {(BILL, CONFIRMED)} && t.once == map[(BILL, CONFIRMED) := ONCE_TTL]
    ensures t.retaken == {} && t.crowd == {} && t.skewed == {} && t.direct == {}
        && t.commits == multiset{(BILL, CONFIRMED)}
  {
    hide Constraints, Run, Confirm;
    var s;
    states := Ordered();
    states, s := Arrives(states, Bare(Shop(0, 0, PENDING)), BILL, CONFIRMED);
    var tx := SettleEvent((BILL, CONFIRMED), None, None, true, true);
    ShopsAreLegal(0, 0, PENDING);
    ShopsAreLegal(0, PRICE, CONFIRMED);
    ShopConfirms(0, 0, PENDING);
    states := Commits(states, s, tx, Shop(0, PRICE, CONFIRMED));
    t := Next(s, Commit(tx));
  }

  lemma ShopMarks(now: int, ltv: int, status: PaymentStatus, status': PaymentStatus)
    ensures Shop(now, ltv, status).(payments := SetStatus(Shop(now, ltv, status).payments, BILL, status'))
         == Shop(now, ltv, status')
  {
    assert SetStatus(Shop(now, ltv, status).payments, BILL, status') == Shop(now, ltv, status').payments;
  }

  lemma ShopReverts(now: int, ltv: int, status: PaymentStatus, seen: Payment, event: PaymentStatus)
    requires seen.amount == PRICE && seen.plan == Week
    ensures Revert(Shop(now, ltv, status), BILL, ALICE, seen, event, None, None)
         == Ok(Shop(now, if seen.status == CONFIRMED then ltv - PRICE else ltv, event))
  {
    ShopMarks(now, ltv, status, event);
    assert AddLtv(Shop(now, ltv, status).users, ALICE, -PRICE) == Shop(now, ltv - PRICE, status).users;
  }

  /** What a shop says of the one user: LTV, confirmed total, charges. */
  lemma ShopTotals(now: int, ltv: int, status: PaymentStatus, paid: nat := 0)
    ensures var payments := Shop(now, ltv, status, paid).payments;
            && Sum(Charged(payments, ALICE)) == PRICE
            && Sum(Confirmed(payments, ALICE)) == if status == CONFIRMED then PRICE else 0
  {
    var payments := Shop(now, ltv, status, paid).payments;
    SumTake(Charged(payments, ALICE), BILL);
    SumTake(Confirmed(payments, ALICE), BILL);
    assert Charged(payments, ALICE) - {BILL} == map[] && Confirmed(payments, ALICE) - {BILL} == map[];
  }

  // ----- A status written behind the worker's back ------------------------------------------------

  lemma Marks(states: seq<Sys>, s: Sys, now: int, ltv: int, was: PaymentStatus, status: PaymentStatus, sent: bool)
    returns (longer: seq<Sys>, t: Sys)
    requires Ends(states, s) && s.db == Shop(now, ltv, was) && status != PENDING
    ensures Ends(longer, t) && t.db == Shop(now, ltv, status) && t.flight == s.flight && t.once == s.once
    ensures t.events == s.events && t.crowd == s.crowd && t.retaken == s.retaken
    ensures t.commits == s.commits && t.granted == s.granted && t.rewardJobs == s.rewardJobs
    ensures t.jobs == s.jobs + if sent && status == CONFIRMED then multiset{Job(BILL, ALICE, CONFIRMED)} else multiset{}
  {
    hide Constraints, Run, SetStatus;
    var tx := MarkStatus(BILL, status, ALICE, sent);
    ShopsAreLegal(now, ltv, was);
    ShopsAreLegal(now, ltv, status);
    ShopMarks(now, ltv, was, status);
    longer := Commits(states, s, tx, Shop(now, ltv, status));
    t := Next(s, Commit(tx));
  }

  lemma Reverts(states: seq<Sys>, s: Sys, ltv: int, was: PaymentStatus, event: PaymentStatus)
    returns (longer: seq<Sys>, t: Sys)
    requires Ends(states, s) && s.db == Shop(0, ltv, was) && IsReversal(event)
    requires (BILL, event) in s.flight && s.flight[(BILL, event)].Loaded? && s.flight[(BILL, event)].user == ALICE
    requires var seen := s.flight[(BILL, event)].seen; seen.amount == PRICE && seen.plan == Week
    ensures var seen := s.flight[(BILL, event)].seen;
            Ends(longer, t) && t.db == Shop(0, if seen.status == CONFIRMED then ltv - PRICE else ltv, event)
    ensures t.flight == s.flight - {(BILL, event)}
    ensures t.crowd == s.crowd && t.retaken == s.retaken && t.direct == s.direct
  {
    hide Constraints, Run, Revert;
    var seen, tx := s.flight[(BILL, event)].seen, SettleEvent((BILL, event), None, None, false, false);
    var after := Shop(0, if seen.status == CONFIRMED then ltv - PRICE else ltv, event);
    ShopsAreLegal(0, ltv, was);
    ShopsAreLegal(0, if seen.status == CONFIRMED then ltv - PRICE else ltv, event);
    ShopReverts(0, ltv, was, seen, event);
    longer := Commits(states, s, tx, after);
    t := Next(s, Commit(tx));
  }

  /**
   A status check that read PENDING writes EXPIRED after the worker has confirmed. The LTV
   stays above the confirmed total, for good: the charge-back that follows finds a payment
   that is not CONFIRMED and takes nothing back.
   */
  lemma StaleExpiryStrandsTheLtv() returns (states: seq<Sys>, t: Sys)
    ensures Ends(states, t) && ALICE in t.db.users && t.crowd == {} && t.retaken == {} && t.flight == map[]
    ensures t.db.users[ALICE].ltv == PRICE && Sum(Confirmed(t.db.payments, ALICE)) == 0
    ensures BILL in t.db.payments && t.db.payments[BILL].status == CHARGEBACKED
  {
    var s;
    states, s := ConfirmedOnce();
    states, s := Marks(states, s, 0, PRICE, CONFIRMED, EXPIRED, false);
    states, s := Arrives(states, s, BILL, CHARGEBACKED);
    states, t := Reverts(states, s, PRICE, EXPIRED, CHARGEBACKED);
    ShopTotals(0, PRICE, CHARGEBACKED);
  }

  /** A status check that writes CONFIRMED before the worker has run leaves the LTV a payment short. */
  lemma EarlyConfirmationRunsAhead() returns (states: seq<Sys>, t: Sys)
    ensures Ends(states, t) && ALICE in t.db.users && t.crowd == {} && t.retaken == {}
    ensures t.db.users[ALICE].ltv == 0 && Sum(Confirmed(t.db.payments, ALICE)) == PRICE
  {
    states := Ordered();
    states, t := Marks(states, Bare(Shop(0, 0, PENDING)), 0, 0, PENDING, CONFIRMED, true);
    ShopTotals(0, 0, CONFIRMED);
  }

  // ----- Two consumers ------------------------------------------------------------------------------

  lemma BothAreRead() returns (states: seq<Sys>, t: Sys)
    ensures Ends(states, t) && t.db == Shop(0, PRICE, CONFIRMED) && t.direct == {} && t.retaken == {}
    ensures t.flight == map[(BILL, CANCELED) := Loaded(ALICE, t.db.payments[BILL]),
                            (BILL, CHARGEBACKED) := Loaded(ALICE, t.db.payments[BILL])]
  {
    hide Run, Enabled, Next;
    var s;
    states, s := ConfirmedOnce();
    states, s := Arrives(states, s, BILL, CANCELED);
    states, t := Arrives(states, s, BILL, CHARGEBACKED);
  }

  /** A cancellation and a charge-back that are read side by side both find CONFIRMED and both subtract. */
  lemma TwoConsumersSubtractTwice() returns (states: seq<Sys>, t: Sys)
    ensures Ends(states, t) && ALICE in t.db.users && t.direct == {} && t.retaken == {}
    ensures t.db.users[ALICE].ltv == -PRICE && Sum(Confirmed(t.db.payments, ALICE)) == 0
  {
    hide Run, Enabled, Next;
    var s;
    states, s := BothAreRead();
    states, s := Reverts(states, s, PRICE, CONFIRMED, CANCELED);
    states, t := Reverts(states, s, 0, CANCELED, CHARGEBACKED);
    ShopTotals(0, -PRICE, CHARGEBACKED);
  }

  // ----- A job after two days -------------------------------------------------------------------------

  lemma Settles(states: seq<Sys>, s: Sys, now: int, ltv: int, paid: nat) returns (longer: seq<Sys>, t: Sys)
    requires Ends(states, s) && s.db == Shop(now, ltv, CONFIRMED, paid) && (BILL, CONFIRMED) in s.flight
    requires s.flight[(BILL, CONFIRMED)] == Loaded(ALICE, s.db.payments[BILL])
    ensures Ends(longer, t) && t.db == Shop(now, ltv + PRICE, CONFIRMED, paid)
    ensures t.flight == s.flight - {(BILL, CONFIRMED)}
    ensures t.jobs == s.jobs && t.once == s.once && t.crowd == s.crowd && t.events == s.events
    ensures t.commits == s.commits + multiset{(BILL, CONFIRMED)}
    ensures t.granted == s.granted + multiset{GrantJob(BILL, ALICE, Week, 1)}
    ensures t.rewardJobs == s.rewardJobs + multiset{RewardJob(BILL, ALICE, PRICE)}
  {
    hide Constraints, Run, Confirm;
    var tx := SettleEvent((BILL, CONFIRMED), None, None, true, true);
    ShopsAreLegal(now, ltv, CONFIRMED, paid);
    ShopsAreLegal(now, ltv + PRICE, CONFIRMED, paid);
    ShopConfirms(now, ltv, CONFIRMED, paid);
    longer := Commits(states, s, tx, Shop(now, ltv + PRICE, CONFIRMED, paid));
    t := Next(s, Commit(tx));
  }

  lemma Waits(states: seq<Sys>, s: Sys, ltv: int, paid: nat) returns (longer: seq<Sys>, t: Sys)
    requires Ends(states, s) && s.db == Shop(0, ltv, CONFIRMED, paid)
    ensures Ends(longer, t) && t.db == Shop(ONCE_TTL, ltv, CONFIRMED, paid)
    ensures t.jobs == s.jobs && t.once == s.once && t.flight == s.flight
    ensures t.commits == s.commits && t.granted == s.granted && t.rewardJobs == s.rewardJobs
  {
    hide Constraints, Run;
    ShopsAreLegal(0, ltv, CONFIRMED, paid);
    ShopsAreLegal(ONCE_TTL, ltv, CONFIRMED, paid);
    longer := Commits(states, s, Tick(ONCE_TTL), Shop(ONCE_TTL, ltv, CONFIRMED, paid));
    t := Next(s, Commit(Tick(ONCE_TTL)));
  }

  lemma KeyIsFreeAgain(s: Sys)
    requires s.db.now == ONCE_TTL && s.flight == map[] && s.once == map[(BILL, CONFIRMED) := ONCE_TTL]
    requires Job(BILL, ALICE, CONFIRMED) in s.jobs
    ensures var take := Take(Job(BILL, ALICE, CONFIRMED));
            && Enabled(s, take)
            && var t := Next(s, take);
               && t == s.(jobs := t.jobs, once := t.once, flight := t.flight, retaken := t.retaken)
               && t.flight == map[(BILL, CONFIRMED) := Taken(ALICE)]
  {
    hide Constraints, Reads, Effect, Accepted, Committed;
  }

  lemma TakesAgain(states: seq<Sys>, s: Sys, ltv: int, paid: nat) returns (longer: seq<Sys>, t: Sys)
    requires Ends(states, s) && s.db == Shop(ONCE_TTL, ltv, CONFIRMED, paid) && s.flight == map[]
    requires Job(BILL, ALICE, CONFIRMED) in s.jobs && s.once == map[(BILL, CONFIRMED) := ONCE_TTL]
    ensures Ends(longer, t) && t.db == s.db && t.commits == s.commits && t.granted == s.granted
    ensures t.rewardJobs == s.rewardJobs
    ensures (BILL, CONFIRMED) in t.flight && t.flight[(BILL, CONFIRMED)] == Loaded(ALICE, s.db.payments[BILL])
  {
    hide Run, Constraints, Reads, Effect, Accepted, Committed;
    var take, load := Take(Job(BILL, ALICE, CONFIRMED)), Load((BILL, CONFIRMED));
    KeyIsFreeAgain(s);
    longer := OneMoreStep(states, s, take);
    longer := OneMoreStep(longer, Next(s, take), load);
    t := Next(Next(s, take), load);
  }

  lemma CreditsAreFresh(paid: nat)
    ensures Unbooked(Credits(paid), RewardCredit(paid + 1)) && Unbooked(Credits(paid), ClawbackOf(paid + 1))
  {
    CreditsAreBobs(paid);
  }

  /** The reward job credits the referrer; the second time there is no row to insert. */
  lemma ShopRewards(now: int, ltv: int, paid: nat)
    ensures RewardYAD(PRICE, 0) == YAD
    ensures PayReward(Shop(now, ltv, CONFIRMED, paid), paid + 1, REFERRAL, BOB, BILL, PRICE, YAD)
         == Ok(Shop(now, ltv, CONFIRMED, paid + 1))
  {
    var db, after := Shop(now, ltv, CONFIRMED, paid), Shop(now, ltv, CONFIRMED, paid + 1);
    var row := Reward(REFERRAL, BILL, BOB, YAD, YAD, Pending);
    assert PaidFor(db.rewards, BILL) <==> paid > 0 by {
      assert paid > 0 ==> 1 in db.rewards && db.rewards[1].payment == BILL;
    }
    assert BumpReferral(db.referrals, REFERRAL, PRICE, YAD) == after.referrals;
    assert db.users[BOB := db.users[BOB].(balance := YAD * (paid + 1))] == after.users;
    assert Credits(paid + 1) == Credits(paid) + [Row(BOB, YAD, YAD * (paid + 1), RewardCredit(paid + 1))];
    if paid == 0 {
      assert MarkReward(db.rewards[1 := row], 1, Immediate) == after.rewards;
    } else {
      assert MarkReward(db.rewards, paid + 1, Immediate) == after.rewards;
    }
  }

  lemma Rewards(states: seq<Sys>, s: Sys, now: int, ltv: int, paid: nat) returns (longer: seq<Sys>, t: Sys)
    requires Ends(states, s) && s.db == Shop(now, ltv, CONFIRMED, paid)
    requires RewardJob(BILL, ALICE, PRICE) in s.rewardJobs
    ensures Ends(longer, t) && t.db == Shop(now, ltv, CONFIRMED, paid + 1)
    ensures t.jobs == s.jobs && t.once == s.once && t.flight == s.flight
    ensures t.commits == s.commits && t.granted == s.granted
    ensures t.rewardJobs == s.rewardJobs - multiset{RewardJob(BILL, ALICE, PRICE)}
  {
    hide Constraints, Run, PayReward, RewardYAD, Unbooked;
    var tx := RewardReferral(RewardJob(BILL, ALICE, PRICE), paid + 1, REFERRAL, BOB, 0);
    ShopsAreLegal(now, ltv, CONFIRMED, paid);
    ShopsAreLegal(now, ltv, CONFIRMED, paid + 1);
    ShopRewards(now, ltv, paid);
    CreditsAreFresh(paid);
    longer := Commits(states, s, tx, Shop(now, ltv, CONFIRMED, paid + 1));
    t := Next(s, Commit(tx));
  }

  /** The status check leaves one job, the webhook another, which is taken and read. */
  lemma ReadWithOneLeft() returns (states: seq<Sys>, t: Sys)
    ensures Ends(states, t) && t.db == Shop(0, 0, CONFIRMED)
    ensures t.flight == map[(BILL, CONFIRMED) := Loaded(ALICE, t.db.payments[BILL])]
    ensures Job(BILL, ALICE, CONFIRMED) in t.jobs && t.once == map[(BILL, CONFIRMED) := ONCE_TTL]
    ensures t.commits == multiset{} && t.granted == multiset{} && t.rewardJobs == multiset{}
  {
    hide Run, Enabled, Next;
    var s;
    states := Ordered();
    states, s := Marks(states, Bare(Shop(0, 0, PENDING)), 0, 0, PENDING, CONFIRMED, true);
    states, t := Arrives(states, s, BILL, CONFIRMED);
  }

  /** It is handled, and the referrer rewarded. */
  lemma HandledWithOneLeft() returns (states: seq<Sys>, t: Sys)
    ensures Ends(states, t) && t.db == Shop(0, PRICE, CONFIRMED, 1) && t.flight == map[]
    ensures Job(BILL, ALICE, CONFIRMED) in t.jobs && t.once == map[(BILL, CONFIRMED) := ONCE_TTL]
    ensures t.commits[(BILL, CONFIRMED)] == 1 && t.granted[GrantJob(BILL, ALICE, Week, 1)] == 1
  {
    hide Run, Enabled, Next, Shop;
    var s;
    states, s := ReadWithOneLeft();
    states, s := Settles(states, s, 0, 0, 0);
    states, t := Rewards(states, s, 0, PRICE, 0);
  }

  /** What the referrer's side of the shop adds up to. */
  lemma ReferralTotals(now: int, ltv: int, paid: nat)
    requires paid > 0
    ensures var db := Shop(now, ltv, CONFIRMED, paid);
            db.referrals[REFERRAL].totalReward == YAD * paid && Sum(R.Earned(db.rewards, REFERRAL)) == YAD
  {
    var db := Shop(now, ltv, CONFIRMED, paid);
    SumTake(R.Earned(db.rewards, REFERRAL), 1);
    assert R.Earned(db.rewards, REFERRAL) - {1} == map[];
  }

  /**
   A second job of the same confirmation, left in the queue by a status check, is handled
   again once Redis has dropped the once-key: the payment counts twice, is granted twice, and
   earns the referrer twice, so the referral's total is twice the sum of its rewards.
   */
  lemma LateJobsConfirmTwice() returns (states: seq<Sys>, t: Sys)
    ensures Ends(states, t) && ALICE in t.db.users && t.commits[(BILL, CONFIRMED)] == 2
    ensures t.granted[GrantJob(BILL, ALICE, Week, 1)] == 2
    ensures t.db.users[ALICE].ltv == 2 * PRICE && Sum(Charged(t.db.payments, ALICE)) == PRICE
    ensures BOB in t.db.users && t.db.users[BOB].balance == 2 * YAD && REFERRAL in t.db.referrals
    ensures t.db.referrals[REFERRAL].totalReward == 2 * Sum(R.Earned(t.db.rewards, REFERRAL)) == 2 * YAD
  {
    hide Run, Enabled, Next;
    var s;
    states, s := HandledWithOneLeft();
    states, s := Waits(states, s, PRICE, 1);
    states, s := TakesAgain(states, s, PRICE, 1);
    states, s := Settles(states, s, ONCE_TTL, PRICE, 1);
    states, t := Rewards(states, s, ONCE_TTL, 2 * PRICE, 1);
    ShopTotals(ONCE_TTL, 2 * PRICE, CONFIRMED, 2);
    ReferralTotals(ONCE_TTL, 2 * PRICE, 2);
  }
}
