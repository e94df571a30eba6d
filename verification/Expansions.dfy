/**
 Device expansion rows as a join: an upsert keeps the larger slot count and the later
 expiry, so a row is the column-wise maximum of everything granted to it.
 */
module Expansions {
  import opened Prelude
  import opened Tables

  datatype Grant = Grant(extra: int, expires: int)

  function Join(a: Grant, b: Grant): Grant {
    Grant(Max(a.extra, b.extra), Max(a.expires, b.expires))
  }

  /** What a row holds once all these grants have been upserted. */
  function Joined(grants: seq<Grant>): Grant
    requires grants != []
  {
    var n := |grants| - 1;
    if n == 0 then grants[0] else Join(Joined(grants[..n]), grants[n])
  }

  lemma JoinedSnoc(grants: seq<Grant>, g: Grant)
    ensures Joined(grants + [g]) == if grants == [] then g else Join(Joined(grants), g)
  {
    assert (grants + [g])[..|grants|] == grants;
  }

  /** Each column is the maximum over the grants: an upper bound that one of them attains. */
  lemma {:induction false} JoinIsTheMaximum(grants: seq<Grant>) returns (i: nat, j: nat)
    requires grants != []
    ensures forall g | g in grants :: g.extra <= Joined(grants).extra && g.expires <= Joined(grants).expires
    ensures i < |grants| && grants[i].extra == Joined(grants).extra
    ensures j < |grants| && grants[j].expires == Joined(grants).expires
  {
    var n := |grants| - 1;
    i, j := n, n;
    if n > 0 {
      var before := grants[..n];
      var i', j' := JoinIsTheMaximum(before);
      assert grants == before + [grants[n]];
      if Joined(before).extra > grants[n].extra {
        i := i';
      }
      if Joined(before).expires > grants[n].expires {
        j := j';
      }
    }
  }

  /** So the row depends on which grants there were, not on their order or how often each was repeated. */
  lemma JoinIgnoresOrder(a: seq<Grant>, b: seq<Grant>)
    requires a != [] && b != [] && forall g :: g in a <==> g in b
    ensures Joined(a) == Joined(b)
  {
    var i, j := JoinIsTheMaximum(a);
    var k, l := JoinIsTheMaximum(b);
    assert a[i] in b && a[j] in b && b[k] in a && b[l] in a;
  }

  // ----- The table ------------------------------------------------------------------------

  /** Every row is the join of what has been granted to it since it was created. */
  ghost predicate SlotLaw(expansions: map<nat, DeviceExpansion>, slots: map<nat, seq<Grant>>) {
    && slots.Keys == expansions.Keys
    && forall e | e in expansions ::
         slots[e] != [] && Grant(expansions[e].extra, expansions[e].expires) == Joined(slots[e])
  }

  /** One upsert is one more grant to the user's row, or the first to a new one; no other row moves. */
  lemma UpsertJoins(expansions: map<nat, DeviceExpansion>, slots: map<nat, seq<Grant>>, found: Option<nat>, id: nat,
          u: nat, g: Grant)
    requires SlotLaw(expansions, slots)
    requires if found.Some? then found.value in expansions else id !in expansions
    ensures var e := if found.Some? then found.value else id;
            SlotLaw(Upsert(expansions, found, id, u, g.extra, g.expires),
                    slots[e := (if e in slots then slots[e] else []) + [g]])
  {
    var e := if found.Some? then found.value else id;
    JoinedSnoc(if e in slots then slots[e] else [], g);
  }
}
