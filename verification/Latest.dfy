/**
 The subscription rows of one user. Purchases and charge-backs go to the row that ends
 last, an admin's days to a row of their choice, and trials and merges bring rows in.
 */
module Latest {
  import opened Prelude

  /** Expiry by row id. */
  type Rows = map<nat, int>

  datatype Act =
    | Buy(at: int, days: nat)
    | Refund(at: int, days: nat)
    | Days(row: nat, at: int, days: nat)
    | Adopt(rows: Rows)

  predicate IsTop(rows: Rows, row: nat) {
    row in rows && forall t | t in rows :: rows[t] <= rows[row]
  }

  /** The act on the row `top`, one of those that end last where that matters. */
  ghost predicate Does(rows: Rows, act: Act, top: nat, after: Rows) {
    match act
    case Buy(at, days) => IsTop(rows, top) && after == rows[top := Max(rows[top], at) + days]
    case Refund(_, days) => IsTop(rows, top) && after == rows[top := rows[top] - days]
    case Days(row, at, days) => row in rows && after == rows[row := Max(rows[row], at) + days]
    case Adopt(more) => more.Keys !! rows.Keys && after == rows + more
  }

  /** Ties may be broken either way. */
  ghost predicate Leads(rows: Rows, acts: seq<Act>, after: Rows)
    decreases |acts|
  {
    if acts == [] then after == rows
    else exists top: nat, m: Rows :: Does(rows, acts[0], top, m) && Leads(m, acts[1..], after)
  }

  lemma {:induction false} LeadsSnoc(rows: Rows, acts: seq<Act>, m: Rows, act: Act, top: nat, after: Rows)
    requires Leads(rows, acts, m) && Does(m, act, top, after)
    ensures Leads(rows, acts + [act], after)
    decreases |acts|
  {
    if acts == [] {
      assert (acts + [act])[0] == act && (acts + [act])[1..] == [];
      assert Does(rows, (acts + [act])[0], top, after) && Leads(after, [], after);
    } else {
      var t: nat, k: Rows :| Does(rows, acts[0], t, k) && Leads(k, acts[1..], m);
      LeadsSnoc(k, acts[1..], m, act, top, after);
      assert (acts + [act])[1..] == acts[1..] + [act] && (acts + [act])[0] == acts[0];
    }
  }

  lemma {:induction false} LeadsSplit(rows: Rows, a: seq<Act>, b: seq<Act>, after: Rows) returns (m: Rows)
    requires Leads(rows, a + b, after)
    ensures Leads(rows, a, m) && Leads(m, b, after)
    decreases |a|
  {
    if a == [] {
      assert a + b == b;
      m := rows;
    } else {
      assert (a + b)[1..] == a[1..] + b;
      var t: nat, k: Rows :| Does(rows, a[0], t, k) && Leads(k, a[1..] + b, after);
      m := LeadsSplit(k, a[1..], b, after);
    }
  }

  lemma LeadsOne(rows: Rows, act: Act, after: Rows) returns (top: nat)
    requires Leads(rows, [act], after)
    ensures Does(rows, act, top, after)
  {
    var m: Rows;
    top, m :| Does(rows, act, top, m) && Leads(m, [act][1..], after);
  }

  // ----- What the acts do to the latest expiry -----------------------------------------------

  ghost predicate Below(rows: Rows, top: nat, x: int) {
    forall t | t in rows && t != top :: rows[t] <= x
  }

  lemma TopOf(rows: Rows) returns (row: nat)
    requires rows != map[]
    ensures IsTop(rows, row)
    decreases |rows|
  {
    var k :| k in rows;
    var rest := rows - {k};
    row := k;
    if rest != map[] {
      var t := TopOf(rest);
      row := if rows[t] <= rows[k] then k else t;
      assert forall u | u in rows :: u == k || u in rest;
    } else {
      assert forall u | u in rows :: u == k || u in rest;
    }
  }

  /** A purchase moves the latest expiry as it moves a row. */
  lemma BuyMovesTop(rows: Rows, at: int, days: nat, top: nat, after: Rows, row: nat)
    requires Does(rows, Buy(at, days), top, after) && IsTop(rows, row)
    ensures rows[top] == rows[row] && IsTop(after, top) && after[top] == Max(rows[row], at) + days
  {
  }

  /** New rows move it to the later of what it was and what they bring. */
  lemma AdoptMovesTop(rows: Rows, more: Rows, any: nat, after: Rows, row: nat) returns (top: nat)
    requires Does(rows, Adopt(more), any, after) && IsTop(rows, row)
    ensures IsTop(after, top) && after[top] >= rows[row]
    ensures forall t | t in more :: more[t] <= after[top]
    ensures (top in rows && after[top] == rows[row]) || (top in more && after[top] == more[top])
  {
    assert row in after;
    top := TopOf(after);
  }

  // ----- Purchases and new rows alone -------------------------------------------------------

  /** Neither a charge-back nor an admin's days. */
  ghost predicate Plain(acts: seq<Act>) {
    forall i | 0 <= i < |acts| :: acts[i].Buy? || acts[i].Adopt?
  }

  function Stamp(act: Act, otherwise: int): int {
    if act.Adopt? then otherwise else act.at
  }

  /** The clock never runs backwards. New rows carry no stamp. */
  ghost predicate Timeline(start: int, acts: seq<Act>, end: int)
    decreases |acts|
  {
    if acts == [] then start <= end
    else start <= Stamp(acts[0], start) && Timeline(Stamp(acts[0], start), acts[1..], end)
  }

  lemma {:induction false} TimelineSnoc(start: int, acts: seq<Act>, act: Act, end: int)
    requires Timeline(start, acts, end) && (act.Adopt? || act.at == end)
    ensures Timeline(start, acts + [act], end)
    decreases |acts|
  {
    if acts == [] {
      assert (acts + [act])[0] == act && (acts + [act])[1..] == [];
    } else {
      assert (acts + [act])[0] == acts[0] && (acts + [act])[1..] == acts[1..] + [act];
      TimelineSnoc(Stamp(acts[0], start), acts[1..], act, end);
    }
  }

  lemma {:induction false} TimelineLater(start: int, acts: seq<Act>, end: int, later: int)
    requires Timeline(start, acts, end) && end <= later
    ensures Timeline(start, acts, later)
    decreases |acts|
  {
    if acts != [] {
      TimelineLater(Stamp(acts[0], start), acts[1..], end, later);
    }
  }

  lemma {:induction false} TimelineSplit(start: int, acts: seq<Act>, act: Act, rest: seq<Act>, end: int)
    requires Timeline(start, acts + ([act] + rest), end) && !act.Adopt?
    ensures Timeline(start, acts, act.at) && Timeline(act.at, rest, end)
    decreases |acts|
  {
    if acts == [] {
      assert acts + ([act] + rest) == [act] + rest && ([act] + rest)[1..] == rest;
    } else {
      var all := acts + ([act] + rest);
      assert all[0] == acts[0] && all[1..] == acts[1..] + ([act] + rest);
      TimelineSplit(Stamp(acts[0], start), acts[1..], act, rest, end);
    }
  }

  /** While the purchase is in force: `top` ends last with it, `row` without it. */
  ghost predicate InForce(r: Rows, top: nat, w: Rows, row: nat, d: nat, now: int) {
    && IsTop(r, top) && IsTop(w, row)
    && w[row] <= r[top] <= Max(w[row], now) + d
    && Below(r, top, w[row])
  }

  lemma PurchaseStarts(rows: Rows, t1: int, d: nat, top: nat, r: Rows)
    requires Does(rows, Buy(t1, d), top, r)
    ensures InForce(r, top, rows, top, d, t1)
  {
  }

  lemma InForceBuys(r: Rows, top: nat, w: Rows, row: nat, d: nat, now: int, at: int, days: nat,
          a: nat, r': Rows, b: nat, w': Rows)
    requires InForce(r, top, w, row, d, now) && now <= at
    requires Does(r, Buy(at, days), a, r') && Does(w, Buy(at, days), b, w')
    ensures InForce(r', a, w', b, d, at)
  {
    BuyMovesTop(r, at, days, a, r', top);
    BuyMovesTop(w, at, days, b, w', row);
  }

  lemma InForceAdopts(r: Rows, top: nat, w: Rows, row: nat, d: nat, now: int, more: Rows, a: nat, r': Rows,
          b: nat, w': Rows) returns (top': nat, row': nat)
    requires InForce(r, top, w, row, d, now) && Does(r, Adopt(more), a, r') && Does(w, Adopt(more), b, w')
    ensures InForce(r', top', w', row', d, now)
  {
    row' := AdoptMovesTop(w, more, b, w', row);
    var up := AdoptMovesTop(r, more, a, r', top);
    top' := if r[top] == r'[up] then top else up;
    assert top' in r' && r'[top'] == r'[up];
  }

  lemma {:induction false} PlainKeepsInForce(r: Rows, top: nat, w: Rows, row: nat, d: nat, start: int, acts: seq<Act>,
          end: int, r': Rows, w': Rows) returns (top': nat, row': nat)
    requires InForce(r, top, w, row, d, start) && Plain(acts) && Timeline(start, acts, end)
    requires Leads(r, acts, r') && Leads(w, acts, w')
    ensures InForce(r', top', w', row', d, end)
    decreases |acts|
  {
    if acts == [] {
      top', row' := top, row;
    } else {
      var a: nat, m: Rows :| Does(r, acts[0], a, m) && Leads(m, acts[1..], r');
      var b: nat, k: Rows :| Does(w, acts[0], b, k) && Leads(k, acts[1..], w');
      var t, q;
      if acts[0].Buy? {
        InForceBuys(r, top, w, row, d, start, acts[0].at, acts[0].days, a, m, b, k);
        t, q := a, b;
      } else {
        t, q := InForceAdopts(r, top, w, row, d, start, acts[0].rows, a, m, b, k);
      }
      top', row' := PlainKeepsInForce(m, t, k, q, d, Stamp(acts[0], start), acts[1..], end, r', w');
    }
  }

  // ----- After the charge-back ---------------------------------------------------------------

  /** No better at the present time than without the purchase, and at most d worse. */
  ghost predicate NeverPaid(r: Rows, top: nat, w: Rows, row: nat, d: nat, now: int) {
    && IsTop(r, top) && IsTop(w, row)
    && Max(r[top], now) <= Max(w[row], now) && w[row] - d <= r[top]
  }

  lemma RefundSettles(r: Rows, top: nat, w: Rows, row: nat, d: nat, now: int, t2: int, a: nat, r': Rows)
    returns (top': nat)
    requires InForce(r, top, w, row, d, now) && Does(r, Refund(t2, d), a, r')
    ensures NeverPaid(r', top', w, row, d, now)
  {
    assert a in r' && r[a] == r[top];
    top' := TopOf(r');
  }

  lemma {:induction false} PlainKeepsSettled(r: Rows, top: nat, w: Rows, row: nat, d: nat, start: int, acts: seq<Act>,
          end: int, r': Rows, w': Rows) returns (top': nat, row': nat)
    requires NeverPaid(r, top, w, row, d, start) && Plain(acts) && Timeline(start, acts, end)
    requires Leads(r, acts, r') && Leads(w, acts, w')
    ensures NeverPaid(r', top', w', row', d, end)
    decreases |acts|
  {
    if acts == [] {
      top', row' := top, row;
    } else {
      var a: nat, m: Rows :| Does(r, acts[0], a, m) && Leads(m, acts[1..], r');
      var b: nat, k: Rows :| Does(w, acts[0], b, k) && Leads(k, acts[1..], w');
      var t, q := a, b;
      if acts[0].Buy? {
        BuyMovesTop(r, acts[0].at, acts[0].days, a, m, top);
        BuyMovesTop(w, acts[0].at, acts[0].days, b, k, row);
      } else {
        t := AdoptMovesTop(r, acts[0].rows, a, m, top);
        q := AdoptMovesTop(w, acts[0].rows, b, k, row);
      }
      top', row' := PlainKeepsSettled(m, t, k, q, d, Stamp(acts[0], start), acts[1..], end, r', w');
    }
  }

  /**
   A purchase charged back later never leaves the latest expiry of the user better at the
   present time, nor more than d worse, as long as nothing but purchases and new rows happens
   besides: whatever the same other acts lead to without the two, from the same rows.
   */
  lemma ChargebackNeverPays(rows: Rows, t1: int, d: nat, between: seq<Act>, t2: int, rest: seq<Act>, now: int, r: Rows,
          w: Rows) returns (top: nat, row: nat)
    requires Plain(between) && Plain(rest) && Timeline(t1, between, t2) && Timeline(t2, rest, now)
    requires Leads(rows, [Buy(t1, d)] + (between + ([Refund(t2, d)] + rest)), r) && Leads(rows, between + rest, w)
    ensures NeverPaid(r, top, w, row, d, now)
  {
    var bought := LeadsSplit(rows, [Buy(t1, d)], between + ([Refund(t2, d)] + rest), r);
    var held := LeadsSplit(bought, between, [Refund(t2, d)] + rest, r);
    var refunded := LeadsSplit(held, [Refund(t2, d)], rest, r);
    var never := LeadsSplit(rows, between, rest, w);
    var a := LeadsOne(rows, Buy(t1, d), bought);
    var b := LeadsOne(held, Refund(t2, d), refunded);
    PurchaseStarts(rows, t1, d, a, bought);
    var c, e := PlainKeepsInForce(bought, a, rows, a, d, t1, between, t2, held, never);
    var f := RefundSettles(held, c, never, e, d, t2, t2, b, refunded);
    top, row := PlainKeepsSettled(refunded, f, never, e, d, t2, rest, now, r, w);
  }
}
