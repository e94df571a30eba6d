/** Expiry warnings: SET NX keys named after a day or an eight-hour slot, with TTLs as long as what they name. */
module Warnings {
  import opened Prelude
  import opened Domain

  const WARNING_WINDOW: int := 3 * DAY

  datatype Key = LastDay(slot: int) | Days(days: int)

  /** The key sendExpiryWarnings derives from the time left. */
  function KeyFor(left: int): Key {
    if left < DAY then LastDay(left / HOUR / 8) else Days(left / DAY)
  }

  function Ttl(k: Key): int {
    if k.LastDay? then 8 * HOUR else DAY
  }

  predicate Due(expires: int, now: int) {
    now < expires <= now + WARNING_WINDOW
  }

  /** A dedup key that SET NX would still find at `now`. */
  predicate Held(keys: map<Key, int>, k: Key, now: int) {
    k in keys && now < keys[k]
  }

  /** The warnings a run of ticks sends for one subscription whose expiry stays put. */
  function Sent(keys: map<Key, int>, expires: int, ticks: seq<int>): seq<Key>
    decreases ticks
  {
    if ticks == [] then []
    else
      var now, k := ticks[0], KeyFor(expires - ticks[0]);
      if Due(expires, now) && !Held(keys, k, now) then [k] + Sent(keys[k := now + Ttl(k)], expires, ticks[1..])
      else Sent(keys, expires, ticks[1..])
  }

  /** The key outlasts the whole stretch of time it names. */
  ghost predicate Covers(keys: map<Key, int>, expires: int, k: Key) {
    k in keys && forall t | Due(expires, t) && KeyFor(expires - t) == k :: t < keys[k]
  }

  /** A TTL is as long as the stretch its key names, so a key set inside the stretch outlasts it. */
  lemma SlotsFitTheirTtl(expires: int, now: int, t: int)
    requires Due(expires, now) && Due(expires, t) && KeyFor(expires - now) == KeyFor(expires - t)
    ensures t < now + Ttl(KeyFor(expires - now))
  {
    var a, b := expires - now, expires - t;
    if a < DAY {
      assert a / HOUR / 8 == b / HOUR / 8;
      assert a / HOUR - b / HOUR <= 7;
      assert HOUR * (a / HOUR) <= a < HOUR * (a / HOUR) + HOUR;
      assert HOUR * (b / HOUR) <= b < HOUR * (b / HOUR) + HOUR;
    }
  }

  lemma {:induction false} CoveredKeysStaySilent(keys: map<Key, int>, expires: int, ticks: seq<int>, k: Key)
    requires Covers(keys, expires, k)
    ensures k !in Sent(keys, expires, ticks)
    decreases ticks
  {
    if ticks != [] {
      var now, k' := ticks[0], KeyFor(expires - ticks[0]);
      if Due(expires, now) && !Held(keys, k', now) {
        CoveredKeysStaySilent(keys[k' := now + Ttl(k')], expires, ticks[1..], k);
      } else {
        CoveredKeysStaySilent(keys, expires, ticks[1..], k);
      }
    }
  }

  /** For a fixed expiry, whatever the ticks and the keys an earlier expiry left, each key is sent at most once. */
  lemma {:induction false} EachWarningIsSentOnce(keys: map<Key, int>, expires: int, ticks: seq<int>, i: nat, j: nat)
    requires i < j < |Sent(keys, expires, ticks)|
    ensures Sent(keys, expires, ticks)[i] != Sent(keys, expires, ticks)[j]
    decreases ticks
  {
    var now, k := ticks[0], KeyFor(expires - ticks[0]);
    if Due(expires, now) && !Held(keys, k, now) {
      var keys' := keys[k := now + Ttl(k)];
      if i == 0 {
        forall t | Due(expires, t) && KeyFor(expires - t) == k ensures t < keys'[k] {
          SlotsFitTheirTtl(expires, now, t);
        }
        CoveredKeysStaySilent(keys', expires, ticks[1..], k);
        assert Sent(keys, expires, ticks)[j] == Sent(keys', expires, ticks[1..])[j - 1];
      } else {
        EachWarningIsSentOnce(keys', expires, ticks[1..], i - 1, j - 1);
      }
    } else {
      EachWarningIsSentOnce(keys, expires, ticks[1..], i, j);
    }
  }

  /**
   And at least once: whichever tick falls into the last three days before the expiry, the
   warning of its day or eight-hour slot is sent by then, unless its key was held from before.
   */
  lemma {:induction false} EveryStretchIsWarnedOf(keys: map<Key, int>, expires: int, ticks: seq<int>, i: nat, k: Key)
    requires i < |ticks| && ticks[i] < expires <= ticks[i] + 72 * HOUR
    requires var left := expires - ticks[i];
             k == if left < 24 * HOUR then LastDay(left / HOUR / 8) else Days(left / (24 * HOUR))
    requires k in keys ==> keys[k] <= ticks[i]
    ensures k in Sent(keys, expires, ticks)
    decreases ticks
  {
    if i > 0 {
      var now, k' := ticks[0], KeyFor(expires - ticks[0]);
      if Due(expires, now) && !Held(keys, k', now) {
        if k' != k {
          EveryStretchIsWarnedOf(keys[k' := now + Ttl(k')], expires, ticks[1..], i - 1, k);
        }
      } else {
        EveryStretchIsWarnedOf(keys, expires, ticks[1..], i - 1, k);
      }
    }
  }

  /** The keys that exist: three slots in the last day, one for each day before, and one for the exact third day. */
  lemma {:induction false} WarningsAreNamed(keys: map<Key, int>, expires: int, ticks: seq<int>, i: nat)
    requires i < |Sent(keys, expires, ticks)|
    ensures var k := Sent(keys, expires, ticks)[i];
            if k.LastDay? then 0 <= k.slot <= 2 else 1 <= k.days <= 3
    decreases ticks
  {
    var now, k := ticks[0], KeyFor(expires - ticks[0]);
    if Due(expires, now) && !Held(keys, k, now) {
      if i > 0 {
        WarningsAreNamed(keys[k := now + Ttl(k)], expires, ticks[1..], i - 1);
      }
    } else {
      WarningsAreNamed(keys, expires, ticks[1..], i);
    }
  }

  /** How many of the warnings fall into the last day. */
  function Urgent(sent: seq<Key>): nat {
    if sent == [] then 0
    else Urgent(sent[..|sent| - 1]) + if sent[|sent| - 1].LastDay? then 1 else 0
  }

  lemma {:induction false} DistinctSlotsAreCounted(sent: seq<Key>, slots: set<int>)
    requires forall i | 0 <= i < |sent| && sent[i].LastDay? :: sent[i].slot in slots
    requires forall i, j | 0 <= i < j < |sent| :: sent[i] != sent[j]
    ensures Urgent(sent) <= |slots|
  {
    if sent != [] {
      var n := |sent| - 1;
      if sent[n].LastDay? {
        DistinctSlotsAreCounted(sent[..n], slots - {sent[n].slot});
      } else {
        DistinctSlotsAreCounted(sent[..n], slots);
      }
    }
  }

  /** At most three warnings in the last twenty-four hours, however often the worker ticks. */
  lemma ThreeWarningsInTheLastDay(keys: map<Key, int>, expires: int, ticks: seq<int>)
    ensures Urgent(Sent(keys, expires, ticks)) <= 3
  {
    var sent := Sent(keys, expires, ticks);
    forall i | 0 <= i < |sent| && sent[i].LastDay? ensures sent[i].slot in {0, 1, 2} {
      WarningsAreNamed(keys, expires, ticks, i);
    }
    forall i, j | 0 <= i < j < |sent| ensures sent[i] != sent[j] {
      EachWarningIsSentOnce(keys, expires, ticks, i, j);
    }
    DistinctSlotsAreCounted(sent, {0, 1, 2});
  }

  /** The worker's side: one dedup key per subscription and stretch, shared by all ticks. */
  class Notifier {
    var keys: map<Key, int>

    constructor ()
      ensures keys == map[]
    {
      keys := map[];
    }

    /** One pass over a subscription at time `now`; SET NX decides. */
    method Warn(expires: int, now: int) returns (sent: Option<Key>)
      modifies this
      ensures var k := KeyFor(expires - now);
              if Due(expires, now) && !Held(old(keys), k, now) then sent == Some(k)
                  && keys == old(keys)[k := now + Ttl(k)]
              else sent.None? && keys == old(keys)
    {
      sent := None;
      if now < expires && expires <= now + WARNING_WINDOW {
        var left := expires - now;
        var k: Key;
        if left < DAY {
          k := LastDay(left / HOUR / 8);
        } else {
          k := Days(left / DAY);
        }
        if !(k in keys && now < keys[k]) {
          keys := keys[k := now + Ttl(k)];
          sent := Some(k);
        }
      }
    }

    /** A whole run of ticks realises Sent. */
    method Run(expires: int, ticks: seq<int>) returns (sent: seq<Key>)
      modifies this
      ensures sent == Sent(old(keys), expires, ticks)
    {
      sent := [];
      ghost var start := keys;
      for i := 0 to |ticks|
        invariant sent + Sent(keys, expires, ticks[i..]) == Sent(start, expires, ticks)
      {
        assert ticks[i..][1..] == ticks[i + 1..];
        var k := Warn(expires, ticks[i]);
        if k.Some? {
          ghost var later := Sent(keys, expires, ticks[i + 1..]);
          assert sent + ([k.value] + later) == sent + [k.value] + later;
          sent := sent + [k.value];
        }
      }
      assert sent + [] == sent;
    }
  }
}
