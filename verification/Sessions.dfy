/** The HTTP handlers that rotate and revoke sessions, command by command over Redis. */
module Sessions {
  import opened Prelude
  import opened Domain
  import opened Tokens

  datatype Outcome = Unauthorized | Compromised | Forbidden | Renewed

  /** The gate is now open to exactly the unexpired tokens of u from this second on, and to others as before. */
  ghost predicate Stamped(before: Store, after: Store, u: nat) {
    forall d: Claims ::
      Admits(after, d) <==>
        if d.user == u then after.now < d.expires * SECOND && after.now / SECOND <= d.issuedAt else Admits(before, d)
  }

  lemma DroppingEndsOne(s: Store, jti: nat, u: nat)
    ensures var t := Forget(Drop(s, jti), u, jti);
            && t.now == s.now && t.stamps == s.stamps && t.tokens == s.tokens - {jti} && !Live(t, jti)
            && (forall v :: LiveOf(t, v) == LiveOf(s, v) - {jti})
            && (forall v | v != u :: Members(t, v) == Members(s, v))
    ensures Live(s, jti) ==> jti in s.tokens && jti in LiveOf(s, s.tokens[jti].user)
  {
  }

  lemma DroppingTheDead(s: Store, jti: nat, u: nat)
    requires !Live(s, jti)
    ensures var t := Drop(s, jti);
            && t.now == s.now && t.stamps == s.stamps && !Live(t, jti) && Members(t, u) == Members(s, u)
            && (forall v :: LiveOf(t, v) == LiveOf(s, v))
            && (forall d: Claims :: Admits(t, d) <==> Admits(s, d))
  {
  }

  lemma RevokingEndsTheFamily(s: Store, u: nat)
    ensures var t := DeleteFamily(s, u, Members(s, u));
            && t.now == s.now && t.stamps == s.stamps && Members(t, u) == {}
            && (forall v :: LiveOf(t, v) == LiveOf(s, v) - Members(s, u))
            && (forall d: Claims :: Admits(t, d) <==> Admits(s, d))
            && (forall jti | !Live(s, jti) :: !Live(t, jti))
  {
  }

  lemma RegisteringAddsOne(s: Store, jti: nat, u: nat)
    requires jti !in s.tokens
    ensures var t := Register(s, jti, u);
            && t.now == s.now && t.stamps == s.stamps
            && jti in t.tokens && t.tokens[jti] == Entry(u, s.now + 30 * DAY) && jti in Members(t, u)
            && (forall v :: LiveOf(t, v) == LiveOf(s, v) + (if v == u then {jti} else {}))
            && (forall v :: jti !in LiveOf(s, v))
            && (forall other | other != jti && !Live(s, other) :: !Live(t, other))
  {
  }

  lemma StampingStamps(s: Store, u: nat)
    ensures var t := SetStamp(s, u, s.now);
            && t.now == s.now && Stamped(s, t, u) && Members(t, u) == Members(s, u)
            && (forall v :: LiveOf(t, v) == LiveOf(s, v))
            && (forall jti | !Live(s, jti) :: !Live(t, jti))
  {
  }

  /** The gate compares with what it was before; a step that kept it is as good as none. */
  lemma StampedSince(s: Store, m: Store, t: Store, u: nat)
    requires Stamped(m, t, u) && forall d: Claims :: Admits(m, d) <==> Admits(s, d)
    ensures Stamped(s, t, u)
  {
  }

  class Redis {
    var now: int
    var tokens: map<nat, Entry>
    var families: map<nat, Family>
    var stamps: map<nat, Stamp>

    function Snapshot(): Store
      reads this
    {
      Store(now, tokens, families, stamps)
    }

    constructor (start: int)
      ensures Snapshot() == Store(start, map[], map[], map[])
    {
      now, tokens, families, stamps := start, map[], map[], map[];
    }

    method RegisterRefreshToken(jti: nat, u: nat)
      modifies this
      ensures Snapshot() == Register(old(Snapshot()), jti, u)
    {
      var members := {};
      if u in families && now < families[u].deadline {
        members := families[u].members;
      }
      tokens := tokens[jti := Entry(u, now + REFRESH_TTL)];
      families := families[u := Family(members + {jti}, now + REFRESH_TTL + HOUR)];
    }

    /** GETDEL, then SREM on the family of the stored user. */
    method ValidateAndRevokeRefreshToken(jti: nat) returns (stored: Option<nat>)
      modifies this
      ensures stored == if Live(old(Snapshot()), jti) then Some(old(tokens)[jti].user) else None
      ensures Snapshot() == if stored.Some? then Forget(Drop(old(Snapshot()), jti), stored.value, jti)
          else Drop(old(Snapshot()), jti)
    {
      stored := None;
      if jti in tokens && now < tokens[jti].deadline {
        stored := Some(tokens[jti].user);
      }
      tokens := tokens - {jti};
      if stored.Some? && stored.value in families {
        var family := families[stored.value];
        families := families[stored.value := family.(members := family.members - {jti})];
      }
    }

    method RevokeRefreshToken(jti: nat)
      modifies this
      ensures Snapshot() == Drop(old(Snapshot()), jti)
    {
      tokens := tokens - {jti};
    }

    /** SMEMBERS, then one DEL per member and one for the set, with nothing in between. */
    method RevokeAllUserRefreshTokens(u: nat)
      modifies this
      ensures Snapshot() == DeleteFamily(old(Snapshot()), u, Members(old(Snapshot()), u))
    {
      var seen := {};
      if u in families && now < families[u].deadline {
        seen := families[u].members;
      }
      var rest := seen;
      ghost var before := tokens;
      assert before - (seen - rest) == before;
      while rest != {}
        invariant rest <= seen && tokens == before - (seen - rest)
        invariant now == old(now) && families == old(families) && stamps == old(stamps)
        decreases |rest|
      {
        var jti :| jti in rest;
        tokens := tokens - {jti};
        assert before - (seen - rest) - {jti} == before - (seen - (rest - {jti}));
        rest := rest - {jti};
      }
      assert seen - rest == seen;
      families := families - {u};
    }

    method SetPasswordVersion(u: nat, t: int)
      modifies this
      ensures Snapshot() == SetStamp(old(Snapshot()), u, t)
    {
      stamps := stamps[u := Stamp(t / SECOND, now + STAMP_TTL)];
    }

    method CheckPasswordVersion(u: nat, issuedAt: int) returns (ok: bool)
      ensures ok <==> StampAdmits(Snapshot(), u, issuedAt)
    {
      ok := true;
      if u in stamps && now < stamps[u].deadline && issuedAt < stamps[u].second {
        ok := false;
      }
    }

    /**
     POST /api/auth/refresh for a correctly signed refresh token, with the id of the token
     to issue. Renewed exactly when the token is admitted, live, its own user's, and that
     user is not banned; a replayed token ends every listed session of its user and stamps
     the user's password version.
     */
    method Refresh(c: Claims, newId: nat, banned: bool) returns (outcome: Outcome)
      requires newId !in tokens
      modifies this
      ensures var s := old(Snapshot());
              var own := Live(s, c.jti) && s.tokens[c.jti].user == c.user;
              match outcome
              case Renewed => Admits(s, c) && own && !banned
              case Forbidden => Admits(s, c) && own && banned
              case Compromised => Admits(s, c) && !Live(s, c.jti)
              case Unauthorized => !Admits(s, c) || (Live(s, c.jti) && !own)
      ensures outcome == Renewed ==>
                && !Live(Snapshot(), c.jti) && newId in tokens && tokens[newId] == Entry(c.user, now + 30 * DAY)
                && newId in Members(Snapshot(), c.user)
                && (forall v :: LiveOf(Snapshot(), v)
                             == LiveOf(old(Snapshot()), v) - {c.jti} + if v == c.user then {newId} else {})
                && |LiveOf(Snapshot(), c.user)| == |LiveOf(old(Snapshot()), c.user)|
      ensures outcome == Forbidden ==>
                forall v :: LiveOf(Snapshot(), v) == LiveOf(old(Snapshot()), v) - {c.jti}
      ensures outcome == Compromised ==>
                && (forall v :: LiveOf(Snapshot(), v) == LiveOf(old(Snapshot()), v) - Members(old(Snapshot()), c.user))
                && Members(Snapshot(), c.user) == {}
                && Stamped(old(Snapshot()), Snapshot(), c.user)
      ensures outcome == Unauthorized ==>
                if !Admits(old(Snapshot()), c) then Snapshot() == old(Snapshot())
                else
                  && (forall v :: LiveOf(Snapshot(), v)
                               == LiveOf(old(Snapshot()), v) - {c.jti} - Members(old(Snapshot()), c.user))
                  && Members(Snapshot(), c.user) == {}
      ensures outcome != Compromised ==> stamps == old(stamps)
      ensures !Live(Snapshot(), c.jti) || !Admits(old(Snapshot()), c)
    {
      if now >= c.expires * SECOND {
        return Unauthorized;
      }
      var ok := CheckPasswordVersion(c.user, c.issuedAt);
      if !ok {
        return Unauthorized;
      }
      var stored := ValidateAndRevokeRefreshToken(c.jti);
      hide LiveOf, Live, Stamped, Forget, Drop, DeleteFamily, Register, SetStamp, Members, Admits, StampAdmits;
      ghost var start, dropped := old(Snapshot()), Snapshot();
      if stored.None? {
        DroppingTheDead(start, c.jti, c.user);
        RevokingEndsTheFamily(dropped, c.user);
        RevokeAllUserRefreshTokens(c.user);
        ghost var revoked := Snapshot();
        StampingStamps(revoked, c.user);
        SetPasswordVersion(c.user, now);
        StampedSince(start, revoked, Snapshot(), c.user);
        return Compromised;
      }
      DroppingEndsOne(start, c.jti, stored.value);
      if stored.value != c.user {
        RevokingEndsTheFamily(dropped, c.user);
        RevokeAllUserRefreshTokens(c.user);
        return Unauthorized;
      }
      if banned {
        return Forbidden;
      }
      RegisteringAddsOne(dropped, newId, c.user);
      RegisterRefreshToken(newId, c.user);
      outcome := Renewed;
    }

    /** POST /api/auth/logout: the one session ends, the others stay. */
    method Logout(c: Claims)
      modifies this
      ensures forall u ::
                LiveOf(Snapshot(), u) == LiveOf(old(Snapshot()), u) - if now < c.expires * SECOND then {c.jti} else {}
      ensures families == old(families) && stamps == old(stamps) && now == old(now)
    {
      if now < c.expires * SECOND {
        RevokeRefreshToken(c.jti);
      }
    }

    /** What follows a stored password change: the stamp, then every session. */
    method EndSessions(u: nat)
      modifies this
      ensures forall v :: LiveOf(Snapshot(), v) == LiveOf(old(Snapshot()), v) - Members(old(Snapshot()), u)
      ensures Members(Snapshot(), u) == {} && Stamped(old(Snapshot()), Snapshot(), u)
    {
      SetPasswordVersion(u, now);
      RevokeAllUserRefreshTokens(u);
    }
  }
}
