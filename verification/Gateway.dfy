/** Where payment events enter: the webhook and the user's status check. */
module Gateway {
  import opened Prelude
  import opened Domain
  import opened Tables
  import opened Database
  import opened System

  function AbsDelta(a: int, b: int): (d: nat)
    ensures (d <= 1 <==> -1 <= a - b <= 1) && (d == 0 <==> a == b)
  {
    if a >= b then a - b else b - a
  }

  class Entry {
    const repo: Repo
    var events: set<Key>
    var jobs: multiset<Job>

    constructor (repo: Repo)
      ensures this.repo == repo && events == {} && jobs == multiset{}
    {
      this.repo := repo;
      events, jobs := {}, multiset{};
    }

    /** EnsureWebhookEvent: the unique index on source, id and type decides. */
    method EnsureWebhookEvent(key: Key) returns (isNew: bool)
      modifies this
      ensures isNew <==> key !in old(events)
      ensures events == old(events) + {key} && jobs == old(jobs)
    {
      isNew := key !in events;
      events := events + {key};
    }

    /**
     The Platega callback. A delivery is looked at once, whether or not its payment is
     known by then; a job leaves only for a processed status and an amount within one
     kopeck of the stored one, and it names the stored owner.
     */
    method Handle(authentic: bool, key: Key, kopecks: int, reachable: bool)
      modifies this
      ensures !authentic || key in old(events) ==> events == old(events) && jobs == old(jobs)
      ensures authentic && key !in old(events) ==>
                && events == old(events) + {key}
                && jobs == if reachable && key.0 in repo.payments
                                && (key.1 == CONFIRMED || key.1 == CANCELED || key.1 == CHARGEBACKED)
                                && repo.payments[key.0].amount - 1 <= kopecks <= repo.payments[key.0].amount + 1
                           then old(jobs) + multiset{Job(key.0, repo.payments[key.0].user, key.1)} else old(jobs)
    {
      if !authentic {
        return;
      }
      var isNew := EnsureWebhookEvent(key);
      if !isNew {
        return;
      }
      if key.0 !in repo.payments {
        return;
      }
      var payment := repo.payments[key.0];
      if key.1 != CONFIRMED && key.1 != CANCELED && key.1 != CHARGEBACKED {
        return;
      }
      if AbsDelta(kopecks, payment.amount) > 1 {
        return;
      }
      if reachable {
        jobs := jobs + multiset{Job(key.0, payment.user, key.1)};
      }
    }

    /** UpdatePaymentStatus on the database as it is by now; if it fails, nobody notices. */
    method WriteStatus(p: nat, status: PaymentStatus, between: DB, written: bool)
      requires Constraints(between) && status != PENDING
      modifies repo
      ensures repo.Valid()
      ensures repo.Snapshot()
           == if written then between.(payments := SetStatus(between.payments, p, status)) else between
    {
      hide Constraints;
      repo.Restore(between);
      if written {
        var ok := repo.UpdatePaymentStatus(p, status);
      }
    }

    /**
     CheckPaymentStatus for the payment's owner: only a row read as PENDING is looked at; a
     stale one is expired locally; otherwise the gateway's answer, if it is a known status
     and a change, is written at once, whatever has become of the row in the meantime, and a
     confirmation is enqueued like the webhook's. A write that fails (`written` is false) is
     ignored: the answer and the job are the same.
     */
    method CheckPaymentStatus(u: nat, p: nat, answer: Option<PaymentStatus>, between: DB, written: bool,
            reachable: bool)
      returns (r: Result<PaymentStatus>)
      requires repo.Valid() && Constraints(between)
      modifies this, repo
      ensures repo.Valid() && events == old(events)
      ensures r.Err? <==> p !in old(repo.payments) || old(repo.payments)[p].user != u
      ensures r.Err? ==> repo.Snapshot() == old(repo.Snapshot()) && jobs == old(jobs)
      ensures r.Ok? ==>
                match ToWrite(old(repo.payments)[p], old(repo.now), answer)
                case None => r.value == old(repo.payments)[p].status
                             && repo.Snapshot() == old(repo.Snapshot()) && jobs == old(jobs)
                case Some(status) =>
                  && r.value == status
                  && repo.Snapshot() == (if written then between.(payments := SetStatus(between.payments, p, status))
                                         else between)
                  && jobs == if status == CONFIRMED && reachable then old(jobs) + multiset{Job(p, u, CONFIRMED)}
                             else old(jobs)
    {
      hide Constraints;
      if p !in repo.payments || repo.payments[p].user != u {
        return Err(NotFound);
      }
      var payment := repo.payments[p];
      if payment.status != PENDING {
        return Ok(payment.status);
      }
      if payment.expires.Some? && payment.expires.value < repo.now {
        WriteStatus(p, EXPIRED, between, written);
        return Ok(EXPIRED);
      }
      if answer.None? || answer.value == payment.status {
        return Ok(payment.status);
      }
      WriteStatus(p, answer.value, between, written);
      if answer.value == CONFIRMED && reachable {
        jobs := jobs + multiset{Job(p, u, CONFIRMED)};
      }
      r := Ok(answer.value);
    }
  }

  /** The status a check writes, for a row as it was read and the gateway's answer. */
  function ToWrite(row: Payment, now: int, answer: Option<PaymentStatus>): (written: Option<PaymentStatus>)
    ensures written.Some? <==> row.status == PENDING
                               && ((row.expires.Some? && row.expires.value < now) || answer !in {None, Some(PENDING)})
    ensures written.Some? ==>
              written.value == if row.expires.Some? && row.expires.value < now then EXPIRED else answer.value
    ensures written != Some(PENDING)
  {
    if row.status != PENDING then None
    else if row.expires.Some? && row.expires.value < now then Some(EXPIRED)
    else if answer == Some(PENDING) then None
    else answer
  }
}
