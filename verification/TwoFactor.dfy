/** Two-factor challenges: one Redis value holding "<user>:<status>", split at its last colon. */
module TwoFactor {

  const PENDING: string := "pending"

  datatype Challenge = Challenge(user: string, status: string)

  predicate HasColon(v: string) {
    exists i | 0 <= i < |v| :: v[i] == ':'
  }

  function Join(c: Challenge): string {
    c.user + [':'] + c.status
  }

  /** `i` is the position of the last colon of v. */
  predicate LastColon(v: string, i: int) {
    0 <= i < |v| && v[i] == ':' && forall k | i < k < |v| :: v[k] != ':'
  }

  /** splitTFAValue: a backward index loop; a value without a colon is a user with a pending status. */
  method SplitTFAValue(v: string) returns (c: Challenge)
    ensures HasColon(v) ==> exists i :: LastColon(v, i) && c == Challenge(v[..i], v[i + 1..])
    ensures !HasColon(v) ==> c == Challenge(v, PENDING)
    ensures HasColon(v) ==> Join(c) == v
    ensures forall d: Challenge | v == Join(d) && !HasColon(d.status) :: c == d
  {
    var i := |v| - 1;
    while i >= 0
      invariant -1 <= i < |v|
      invariant forall k | i < k < |v| :: v[k] != ':'
    {
      if v[i] == ':' {
        c := Challenge(v[..i], v[i + 1..]);
        assert LastColon(v, i);
        forall d: Challenge | v == Join(d) && !HasColon(d.status) ensures c == d {
          LastColonIsUnique(v, i, |d.user|, d);
        }
        return;
      }
      i := i - 1;
    }
    c := Challenge(v, PENDING);
    forall d: Challenge | v == Join(d) ensures HasColon(v) {
      assert v[|d.user|] == ':';
    }
  }

  lemma LastColonIsUnique(v: string, i: int, j: int, d: Challenge)
    requires LastColon(v, i) && v == Join(d) && j == |d.user| && !HasColon(d.status)
    ensures i == j && v[..i] == d.user && v[i + 1..] == d.status
  {
    assert v[j] == ':' && v[j + 1..] == d.status && v[..j] == d.user;
    forall m | j < m < |v| ensures v[m] != ':' {
      assert v[m] == d.status[m - j - 1];
    }
  }

  /** The resolve script: keeps what precedes the last colon, replaces the rest; a missing or malformed value stays. */
  function Resolve(v: string, status: string): string {
    if HasColon(v) then Upto(v, |v| - 1) + [':'] + status else v
  }

  /** The part of v before its last colon at or below position i. */
  function Upto(v: string, i: int): (u: string)
    requires -1 <= i < |v| && exists k :: 0 <= k <= i && v[k] == ':'
    ensures exists k :: 0 <= k <= i && v[k] == ':' && u == v[..k] && forall l | k < l <= i :: v[l] != ':'
    decreases i + 1
  {
    if v[i] == ':' then v[..i] else Upto(v, i - 1)
  }

  /** Whatever was decided before, a decision changes the status alone: the user it belongs to survives. */
  lemma ResolvingKeepsTheUser(c: Challenge, status: string)
    requires !HasColon(c.status)
    ensures Resolve(Join(c), status) == Join(Challenge(c.user, status))
  {
    var v := Join(c);
    assert v[|c.user|] == ':';
    var k :| 0 <= k < |v| && v[k] == ':' && Upto(v, |v| - 1) == v[..k] && forall l | k < l <= |v| - 1 :: v[l] != ':';
    LastColonIsUnique(v, k, |c.user|, c);
  }
}
