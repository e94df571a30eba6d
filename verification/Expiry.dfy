/**
 Subscription expiry as an algebra of max-plus maps.

 Purchases run `GREATEST(expires_at, NOW()) + d`, charge-backs run `expires_at - d`; the
 one statement that writes an absolute expiry on an existing row has no caller. Times and
 durations are integers in one unit; only their order and differences matter.
 */
module Expiry {
  import opened Prelude

  datatype Op =
    | Extend(at: int, days: nat)
    | Contract(at: int, days: nat)

  function Apply(e: int, op: Op): int {
    match op
    case Extend(at, d) => Max(e, at) + d
    case Contract(_, d) => e - d
  }

  function Fold(e: int, ops: seq<Op>): int {
    if ops == [] then e else Apply(Fold(e, ops[..|ops| - 1]), ops[|ops| - 1])
  }

  /** The clock never runs backwards: stamps are sorted and lie in [from, to]. */
  predicate Timeline(from: int, ops: seq<Op>, to: int) {
    && from <= to
    && (forall i | 0 <= i < |ops| :: from <= ops[i].at <= to)
    && (forall i, j | 0 <= i < j < |ops| :: ops[i].at <= ops[j].at)
  }

  lemma {:induction false} FoldConcat(e: int, a: seq<Op>, b: seq<Op>)
    ensures Fold(e, a + b) == Fold(Fold(e, a), b)
  {
    if b == [] {
      assert a + b == a;
    } else {
      var n := |b| - 1;
      assert (a + b)[..|a + b| - 1] == a + b[..n];
      FoldConcat(e, a, b[..n]);
    }
  }

  lemma TimelinePrefix(from: int, ops: seq<Op>, to: int)
    requires Timeline(from, ops, to) && ops != []
    ensures Timeline(from, ops[..|ops| - 1], ops[|ops| - 1].at)
  {
  }

  /** Every suffix of a history is monotone and never moves two expiries further apart. */
  lemma {:induction false} FoldMonotoneNonExpansive(x: int, y: int, ops: seq<Op>)
    requires x <= y
    ensures 0 <= Fold(y, ops) - Fold(x, ops) <= y - x
  {
    if ops != [] {
      FoldMonotoneNonExpansive(x, y, ops[..|ops| - 1]);
    }
  }

  // ----- A charge-back against the history without the purchase ----------------

  /**
   While the purchase is in force: the row with the purchase is ahead of the row
   without it, by at most d once both are read at the current time.
   */
  lemma {:induction false} PurchaseInForce(e: int, t1: int, d: nat, ops: seq<Op>, now: int)
    requires Timeline(t1, ops, now)
    ensures var bought, never := Fold(Apply(e, Extend(t1, d)), ops), Fold(e, ops);
            never <= bought <= Max(never, now) + d
  {
    if ops != [] {
      TimelinePrefix(t1, ops, now);
      PurchaseInForce(e, t1, d, ops[..|ops| - 1], ops[|ops| - 1].at);
    }
  }

  /** From the reversal on, the two rows stay within the gap the reversal left. */
  lemma {:induction false} GapPersists(reverted: int, never: int, d: nat, from: int, ops: seq<Op>, now: int)
    requires Timeline(from, ops, now)
    requires never - d <= reverted <= Max(never, from)
    ensures Fold(never, ops) - d <= Fold(reverted, ops) <= Max(Fold(never, ops), now)
  {
    if ops != [] {
      TimelinePrefix(from, ops, now);
      GapPersists(reverted, never, d, from, ops[..|ops| - 1], ops[|ops| - 1].at);
    }
  }

  /**
   Buying d days at t1 and having them reverted at t2 never leaves the row, read at
   any later time, better than never having bought, and never more than d below it,
   whatever extensions and contractions happen before, between and after.
   */
  lemma ChargebackNeverBeatsNotBuying(
      e: int, t1: int, d: nat, between: seq<Op>, t2: int, after: seq<Op>, now: int)
    requires Timeline(t1, between, t2) && Timeline(t2, after, now)
    ensures var withPurchase := Fold(e, [Extend(t1, d)] + between + [Contract(t2, d)] + after);
            var without := Fold(e, between + after);
            && Max(withPurchase, now) <= Max(without, now)
            && without - d <= withPurchase
  {
    var bought := Apply(e, Extend(t1, d));
    PurchaseInForce(e, t1, d, between, t2);
    var never := Fold(e, between);
    var reverted := Fold(bought, between) - d;
    GapPersists(reverted, never, d, t2, after, now);
    var head := [Extend(t1, d)] + between;
    FoldConcat(e, [Extend(t1, d)], between);
    assert Fold(e, [Extend(t1, d)]) == bought by { assert [Extend(t1, d)][..0] == []; }
    FoldConcat(e, head, [Contract(t2, d)]);
    assert Fold(Fold(e, head), [Contract(t2, d)]) == reverted by { assert [Contract(t2, d)][..0] == []; }
    FoldConcat(e, head + [Contract(t2, d)], after);
    FoldConcat(e, between, after);
  }

  // ----- The map a history computes ---------------------------------------------

  /** Net days a history adds when it never has to catch up with the clock. */
  function Net(ops: seq<Op>): int {
    if ops == [] then 0
    else
      var last := ops[|ops| - 1];
      var signed: int := if last.Extend? then last.days else 0 - last.days;
      Net(ops[..|ops| - 1]) + signed
  }

  /** The expiry of a row that was infinitely stale before the history; None without an extension. */
  function Floor(ops: seq<Op>): Option<int> {
    if ops == [] then None
    else
      var last, before := ops[|ops| - 1], Floor(ops[..|ops| - 1]);
      match last
      case Extend(at, d) => Some((if before.None? then at else Max(before.value, at)) + d)
      case Contract(_, d) => if before.None? then None else Some(before.value - d)
  }

  function JoinFloor(x: int, b: Option<int>): int {
    if b.None? then x else Max(x, b.value)
  }

  /** Every history is one max-plus map x -> max(x + Net, Floor). */
  lemma {:induction false} FoldIsMaxPlus(e: int, ops: seq<Op>)
    ensures Fold(e, ops) == JoinFloor(e + Net(ops), Floor(ops))
  {
    if ops != [] {
      FoldIsMaxPlus(e, ops[..|ops| - 1]);
    }
  }

  /**
   Exactly when the reversal restores the history without the purchase: the row was
   live at the purchase and never lapsed afterwards, or it was stale and a later
   extension pinned both histories to the same point.
   */
  lemma ChargebackIsExactIff(e: int, t1: int, d: nat, between: seq<Op>)
    requires d > 0
    ensures var restored := Fold(Apply(e, Extend(t1, d)), between) - d == Fold(e, between);
            var b := Floor(between);
            restored <==>
              if t1 <= e then b.None? || b.value <= e + Net(between)
              else b.Some? && b.value == t1 + Net(between)
  {
    FoldIsMaxPlus(Apply(e, Extend(t1, d)), between);
    FoldIsMaxPlus(e, between);
  }

  // ----- No extension is lost ------------------------------------------------------

  datatype Activation = Activation(at: int, days: nat)

  function AsOps(acts: seq<Activation>): (ops: seq<Op>)
    ensures |ops| == |acts|
    ensures forall i | 0 <= i < |acts| :: ops[i] == Extend(acts[i].at, acts[i].days)
  {
    seq(|acts|, i requires 0 <= i < |acts| => Extend(acts[i].at, acts[i].days))
  }

  function Total(acts: seq<Activation>): nat {
    if acts == [] then 0 else acts[0].days + Total(acts[1..])
  }

  /** The latest of the points t_i + d_i + d_{i+1} + ... reached from each stamp alone. */
  function LatestReach(acts: seq<Activation>): int
    requires acts != []
  {
    var first := acts[0].at + Total(acts);
    if |acts| == 1 then first else Max(first, LatestReach(acts[1..]))
  }

  /** LatestReach is the maximum over i of t_i plus the days from i on. */
  lemma {:induction false} LatestReachIsMaximum(acts: seq<Activation>, i: nat) returns (k: nat)
    requires i < |acts|
    ensures acts[i].at + Total(acts[i..]) <= LatestReach(acts)
    ensures k < |acts| && acts[k].at + Total(acts[k..]) == LatestReach(acts)
  {
    assert acts[0..] == acts;
    k := 0;
    if |acts| > 1 {
      var below := LatestReachIsMaximum(acts[1..], if i == 0 then 0 else i - 1);
      assert acts[1..][below..] == acts[below + 1..];
      assert i > 0 ==> acts[1..][i - 1..] == acts[i..];
      if LatestReach(acts) != acts[0].at + Total(acts) {
        k := below + 1;
      }
    }
  }

  lemma {:induction false} TotalSnoc(acts: seq<Activation>, a: Activation)
    ensures Total(acts + [a]) == Total(acts) + a.days
  {
    if acts == [] {
      assert acts + [a] == [a];
    } else {
      assert (acts + [a])[1..] == acts[1..] + [a];
      TotalSnoc(acts[1..], a);
    }
  }

  /** One more activation moves the latest reach the way it moves an expiry. */
  lemma {:induction false} LatestReachSnoc(acts: seq<Activation>, last: Activation)
    requires acts != []
    ensures LatestReach(acts + [last]) == Max(LatestReach(acts), last.at) + last.days
  {
    var all := acts + [last];
    TotalSnoc(acts, last);
    if |acts| == 1 {
      assert all[1..] == [last];
    } else {
      assert all[1..] == acts[1..] + [last];
      LatestReachSnoc(acts[1..], last);
    }
  }

  lemma {:induction false} ActivationMap(acts: seq<Activation>)
    requires acts != []
    ensures Net(AsOps(acts)) == Total(acts)
    ensures Floor(AsOps(acts)) == Some(LatestReach(acts))
  {
    var n := |acts| - 1;
    var init, last := acts[..n], acts[n];
    assert acts == init + [last];
    assert AsOps(acts)[..n] == AsOps(init);
    TotalSnoc(init, last);
    if init != [] {
      ActivationMap(init);
      LatestReachSnoc(init, last);
    }
  }

  /**
   No committed activation is lost: in commit order the expiry is exactly
   max(e + all days, max_i(t_i + days from i on)). Creation of the first row is the
   case of an expiry at or below every stamp.
   */
  lemma NoExtensionLost(e: int, acts: seq<Activation>)
    requires acts != []
    ensures Fold(e, AsOps(acts)) == Max(e + Total(acts), LatestReach(acts))
  {
    ActivationMap(acts);
    FoldIsMaxPlus(e, AsOps(acts));
  }

  /** A row that is live throughout just collects the days, so commit order is irrelevant. */
  lemma {:induction false} LiveRowCollectsAllDays(e: int, acts: seq<Activation>)
    requires forall i | 0 <= i < |acts| :: acts[i].at <= e
    ensures Fold(e, AsOps(acts)) == e + Total(acts)
  {
    if acts != [] {
      var n := |acts| - 1;
      assert AsOps(acts)[..n] == AsOps(acts[..n]);
      LiveRowCollectsAllDays(e, acts[..n]);
      assert acts == acts[..n] + [acts[n]];
      TotalSnoc(acts[..n], acts[n]);
    }
  }

  lemma {:induction false} TotalOfSplit(a: seq<Activation>, x: Activation, b: seq<Activation>)
    ensures Total(a + [x] + b) == x.days + Total(a + b)
  {
    if a == [] {
      assert a + [x] + b == [x] + b && a + b == b;
    } else {
      assert (a + [x] + b)[1..] == a[1..] + [x] + b && (a + b)[1..] == a[1..] + b;
      TotalOfSplit(a[1..], x, b);
    }
  }

  lemma WithoutOne(a: seq<Activation>, x: Activation, b: seq<Activation>)
    ensures multiset(a + b) == multiset(a + [x] + b) - multiset{x}
  {
  }

  /** The head of one list can be taken out of any reordering of it. */
  lemma HeadIsSomewhere(a: seq<Activation>, b: seq<Activation>) returns (k: nat)
    requires multiset(a) == multiset(b) && a != []
    ensures k < |b| && b == b[..k] + [a[0]] + b[k + 1..]
    ensures multiset(a[1..]) == multiset(b[..k] + b[k + 1..])
  {
    assert a[0] in multiset(b);
    k :| 0 <= k < |b| && b[k] == a[0];
    assert b == b[..k] + [a[0]] + b[k + 1..];
    assert a == [] + [a[0]] + a[1..] && [] + a[1..] == a[1..];
    WithoutOne([], a[0], a[1..]);
    WithoutOne(b[..k], a[0], b[k + 1..]);
  }

  lemma {:induction false} TotalIgnoresOrder(a: seq<Activation>, b: seq<Activation>)
    requires multiset(a) == multiset(b)
    ensures Total(a) == Total(b)
  {
    if a == [] {
      assert |multiset(b)| == |b|;
    } else {
      var k := HeadIsSomewhere(a, b);
      TotalIgnoresOrder(a[1..], b[..k] + b[k + 1..]);
      TotalOfSplit(b[..k], a[0], b[k + 1..]);
    }
  }

  lemma LiveRowIgnoresOrder(e: int, a: seq<Activation>, b: seq<Activation>)
    requires multiset(a) == multiset(b)
    requires forall x | x in a :: x.at <= e
    ensures Fold(e, AsOps(a)) == Fold(e, AsOps(b))
  {
    forall i | 0 <= i < |b| ensures b[i].at <= e {
      assert b[i] in multiset(b) && b[i] in multiset(a);
    }
    LiveRowCollectsAllDays(e, a);
    LiveRowCollectsAllDays(e, b);
    TotalIgnoresOrder(a, b);
  }
}
