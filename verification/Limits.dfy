/** That confirmations do go through, and the one transaction that gives a user a second subscription row. */
module Limits {
  import opened Prelude
  import opened Domain
  import opened Tables
  import opened Transactions
  import opened System
  import opened Jobs
  import opened Runs

  lemma ConfirmKeepsConstraints(db: DB, p: nat, u: nat, kopecks: int)
    requires Constraints(db) && u in db.users
    ensures Confirm(db, p, u, kopecks).Ok? && Constraints(Confirm(db, p, u, kopecks).value)
  {
    UsersReplaced(db, AddLtv(db.users, u, kopecks));
    var after := Confirm(db, p, u, kopecks).value;
    assert PendingUnique(after.payments);
  }

  /** A queued job whose once-key is free and which no handler is at. */
  predicate Waiting(s: Sys, job: Job) {
    job in s.jobs && !Held(s, (job.payment, job.event)) && (job.payment, job.event) !in s.flight
  }

  /** The state once such a job has been taken off the queue and its payment row read. */
  ghost function TakenAndRead(s: Sys, job: Job): Sys
    requires Waiting(s, job) && job.payment in s.db.payments
  {
    Next(Next(s, Take(job)), Load((job.payment, job.event)))
  }

  /** Committing tx leaves the payment CONFIRMED and the user with this LTV. */
  ghost predicate Settled(s: Sys, tx: Tx, p: nat, u: nat, ltv: int)
    requires Enabled(s, Commit(tx))
  {
    var after := Effect(s, tx).value;
    p in after.payments && after.payments[p].status == CONFIRMED && u in after.users && after.users[u].ltv == ltv
  }

  /** A confirmation whose row has been read commits, unless PostgreSQL aborts it. */
  lemma ReadConfirmationCommits(s: Sys, tx: Tx)
    requires tx.SettleEvent? && Reads(s, tx) && Constraints(s.db) && Confirms(s, tx)
    requires tx.key.0 in s.db.payments && s.flight[tx.key].user in s.db.users
    ensures Enabled(s, Commit(tx))
    ensures var u := s.flight[tx.key].user;
            Settled(s, tx, tx.key.0, u, s.db.users[u].ltv + s.flight[tx.key].seen.amount)
  {
    ConfirmKeepsConstraints(s.db, tx.key.0, s.flight[tx.key].user, s.flight[tx.key].seen.amount);
  }

  lemma WhatWasRead(s: Sys, job: Job)
    requires Waiting(s, job) && job.payment in s.db.payments
    ensures var ready, key := TakenAndRead(s, job), (job.payment, job.event);
            && ready.db == s.db && key in ready.flight
            && ready.flight[key] == Loaded(job.user, s.db.payments[job.payment])
  {
  }

  lemma ReadConfirmationIsReady(ready: Sys, key: Key, u: nat, seen: Payment)
    requires key in ready.flight && ready.flight[key] == Loaded(u, seen) && key.1 == CONFIRMED && IsPaidPlan(seen.plan)
    ensures var tx := SettleEvent(key, None, None, true, true);
            Reads(ready, tx) && Confirms(ready, tx) && |Granted(ready, tx)| == 1
  {
  }

  lemma WaitingJobsAreOwned(s: Sys, job: Job)
    requires Safe(s) && Waiting(s, job)
    ensures job.payment in s.db.payments && IsPaidPlan(s.db.payments[job.payment].plan) && Constraints(s.db)
  {
    assert Names(s.db.payments, s.gone, job.payment, job.user);
  }

  /**
   Whatever happened before, a queued confirmation that is not being handled can be taken,
   read and settled, and then the payment is CONFIRMED, the LTV has risen by its amount and
   its activation job is out.
   */
  lemma ConfirmationGoesThrough(s: Sys, job: Job)
    requires Safe(s) && Waiting(s, job) && job.event == CONFIRMED && job.user in s.db.users
    ensures job.payment in s.db.payments
    ensures var ready, tx := TakenAndRead(s, job), SettleEvent((job.payment, CONFIRMED), None, None, true, true);
            && Enabled(ready, Commit(tx)) && Confirms(ready, tx) && |Granted(ready, tx)| == 1
            && Settled(ready, tx, job.payment, job.user, s.db.users[job.user].ltv + s.db.payments[job.payment].amount)
  {
    hide Safe, Constraints, Reads, Confirms, Granted, TakenAndRead, Settled, Waiting;
    WaitingJobsAreOwned(s, job);
    WhatWasRead(s, job);
    var ready, key := TakenAndRead(s, job), (job.payment, job.event);
    ReadConfirmationIsReady(ready, key, job.user, s.db.payments[job.payment]);
    ReadConfirmationCommits(ready, SettleEvent(key, None, None, true, true));
  }

  /** The one path that can give a user a second row: a trial started next to an existing subscription. */
  lemma TrialsAddARow(db: DB, u: nat, s: nat, id: nat, at: int)
    requires s in db.subs && db.subs[s].user == u && StartTrial(db, u, id, at).Ok?
    ensures var after := StartTrial(db, u, id, at).value;
            && s != id && after.subs[s] == db.subs[s] && after.subs[id].user == u
            && StartTrial(after, u, id, at).Err?
  {
  }
}
