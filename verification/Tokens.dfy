/**
 Sessions in Redis: the refresh-token allowlist with its per-user family sets, and the
 password-version stamp. Times are in milliseconds, JWT timestamps in whole seconds.
 */
module Tokens {
  import opened Domain

  const SECOND: int := 1000
  const REFRESH_TTL: int := 30 * DAY
  const STAMP_TTL: int := 30 * DAY

  datatype Entry = Entry(user: nat, deadline: int)
  datatype Family = Family(members: set<nat>, deadline: int)
  datatype Stamp = Stamp(second: int, deadline: int)

  /** The keys rt:<jti>, rt:user:<user> and pw:ver:<user>. A key past its deadline is absent. */
  datatype Store = Store(now: int, tokens: map<nat, Entry>, families: map<nat, Family>, stamps: map<nat, Stamp>)

  /** What a signed token claims. */
  datatype Claims = Claims(user: nat, jti: nat, issuedAt: int, expires: int)

  // ----- Redis commands -----------------------------------------------------------------------

  predicate Live(s: Store, jti: nat) {
    jti in s.tokens && s.now < s.tokens[jti].deadline
  }

  function LiveOf(s: Store, u: nat): set<nat> {
    set jti | jti in s.tokens && s.now < s.tokens[jti].deadline && s.tokens[jti].user == u
  }

  function Members(s: Store, u: nat): set<nat> {
    if u in s.families && s.now < s.families[u].deadline then s.families[u].members else {}
  }

  /** RegisterRefreshToken: SET, SADD, EXPIRE in one pipeline. */
  function Register(s: Store, jti: nat, u: nat): Store {
    s.(tokens := s.tokens[jti := Entry(u, s.now + REFRESH_TTL)],
       families := s.families[u := Family(Members(s, u) + {jti}, s.now + REFRESH_TTL + HOUR)])
  }

  /** GETDEL of a token, and DEL at logout. */
  function Drop(s: Store, jti: nat): Store {
    s.(tokens := s.tokens - {jti})
  }

  /** SREM of a member. */
  function Forget(s: Store, u: nat, jti: nat): Store {
    if u in s.families then s.(families := s.families[u := s.families[u].(members := s.families[u].members - {jti})])
        else s
  }

  /** The pipeline of RevokeAllUserRefreshTokens, after SMEMBERS returned `seen`. */
  function DeleteFamily(s: Store, u: nat, seen: set<nat>): Store {
    s.(tokens := s.tokens - seen, families := s.families - {u})
  }

  /** SetPasswordVersion with a time read at `t`. */
  function SetStamp(s: Store, u: nat, t: int): Store {
    s.(stamps := s.stamps[u := Stamp(t / SECOND, s.now + STAMP_TTL)])
  }

  /** CheckPasswordVersion. */
  predicate StampAdmits(s: Store, u: nat, issuedAt: int) {
    u in s.stamps && s.now < s.stamps[u].deadline ==> s.stamps[u].second <= issuedAt
  }

  /** What the gate lets through: an unexpired signature that the stamp admits. */
  predicate Admits(s: Store, c: Claims) {
    s.now < c.expires * SECOND && StampAdmits(s, c.user, c.issuedAt)
  }

  /** A token as the manager mints it at time t: both timestamps truncated, lifetime at most thirty days. */
  predicate Minted(c: Claims, t: int, ttl: int) {
    0 <= ttl <= REFRESH_TTL && c.issuedAt == t / SECOND && c.expires == (t + ttl) / SECOND
  }

  // ----- Runs -----------------------------------------------------------------------------------

  /** A revocation between its SMEMBERS and its pipeline: what it read, and every id issued by then. */
  datatype Reading = Reading(user: nat, seen: set<nat>, issued: set<nat>)

  /**
   The store with its history: ids ever issued, how often each was accepted, revocations
   under way, tokens that one of them missed, and the last stamp written for each user.
   */
  datatype World = World(
    store: Store,
    issued: set<nat>,
    accepted: multiset<nat>,
    reading: map<nat, Reading>,
    missed: set<nat>,
    last: map<nat, int>)

  datatype Step =
    | Tick(to: int)
    | Issue(jti: nat, u: nat)
    | Accept(jti: nat)
    | Logout(jti: nat)
    | SRem(u: nat, jti: nat)
    | SMembers(id: nat, u: nat)
    | DelFamily(id: nat)
    | Change(u: nat, t: int)

  predicate Enabled(w: World, step: Step) {
    match step
    case Tick(to) => w.store.now <= to
    case Issue(jti, _) => jti !in w.issued
    case Accept(jti) => Live(w.store, jti)
    case Logout(_) => true
    case SRem(_, jti) => jti in w.accepted
    case SMembers(id, _) => id !in w.reading
    case DelFamily(id) => id in w.reading
    case Change(_, t) => t <= w.store.now
  }

  function Next(w: World, step: Step): World
    requires Enabled(w, step)
  {
    var s := w.store;
    match step
    case Tick(to) => w.(store := s.(now := to))
    case Issue(jti, u) => w.(store := Register(s, jti, u), issued := w.issued + {jti})
    case Accept(jti) => w.(store := Drop(s, jti), accepted := w.accepted + multiset{jti})
    case Logout(jti) => w.(store := Drop(s, jti))
    case SRem(u, jti) => w.(store := Forget(s, u, jti))
    case SMembers(id, u) => w.(reading := w.reading[id := Reading(u, Members(s, u), w.issued)])
    case DelFamily(id) =>
      var r := w.reading[id];
      w.(store := DeleteFamily(s, r.user, r.seen), reading := w.reading - {id},
          missed := w.missed + (Members(s, r.user) - r.seen))
    case Change(u, t) => w.(store := SetStamp(s, u, t), last := w.last[u := t / SECOND])
  }

  const START := World(Store(0, map[], map[], map[]), {}, multiset{}, map[], {}, map[])

  ghost predicate Run(worlds: seq<World>) {
    && worlds != [] && worlds[0] == START
    && forall i | 0 < i < |worlds| :: Follows(worlds[i - 1], worlds[i])
  }

  ghost predicate Follows(w: World, v: World) {
    exists step: Step :: Enabled(w, step) && v == Next(w, step)
  }

  // ----- The invariant ------------------------------------------------------------------------------

  /** Every live token is in its user's family, or was missed by a revocation that ran while it was issued. */
  ghost predicate Listed(s: Store, missed: set<nat>) {
    forall jti | Live(s, jti) :: jti in missed || jti in Members(s, s.tokens[jti].user)
  }

  /** A family set outlives each of its children. */
  ghost predicate Outlived(s: Store) {
    forall jti | jti in s.tokens ::
      && s.tokens[jti].deadline <= s.now + REFRESH_TTL
      && var u := s.tokens[jti].user;
         (u in s.families && jti in s.families[u].members ==> s.tokens[jti].deadline <= s.families[u].deadline)
  }

  ghost predicate UsedOnce(w: World) {
    && (forall jti | jti in w.store.tokens :: jti in w.issued)
    && forall jti: nat :: w.accepted[jti] + (if jti in w.store.tokens then 1 else 0) <= if jti in w.issued then 1 else 0
  }

  ghost predicate StampsCurrent(w: World) {
    && w.last.Keys == w.store.stamps.Keys
    && forall u | u in w.last ::
         w.store.stamps[u].second == w.last[u] && w.last[u] * SECOND + STAMP_TTL <= w.store.stamps[u].deadline
  }

  /** A revocation under way has read every live token that existed when it read, but for the missed ones. */
  ghost predicate ReadingsComplete(w: World) {
    forall id, jti | id in w.reading && Live(w.store, jti) && w.store.tokens[jti].user == w.reading[id].user ::
      jti in w.reading[id].seen || jti in w.missed || jti !in w.reading[id].issued
  }

  ghost predicate ReadingsPast(w: World) {
    forall id | id in w.reading :: w.reading[id].seen <= w.reading[id].issued <= w.issued
  }

  ghost predicate MembersIssued(w: World) {
    forall u | u in w.store.families :: w.store.families[u].members <= w.issued
  }

  ghost predicate Sound(w: World) {
    ReadingsComplete(w) && ReadingsPast(w) && MembersIssued(w) &&
    Listed(w.store, w.missed) && Outlived(w.store) && UsedOnce(w) && StampsCurrent(w)
  }

  lemma StepKeepsListed(w: World, step: Step)
    requires Sound(w) && Enabled(w, step)
    ensures Listed(Next(w, step).store, Next(w, step).missed)
  {
  }

  lemma StepKeepsOutlived(w: World, step: Step)
    requires Sound(w) && Enabled(w, step)
    ensures Outlived(Next(w, step).store)
  {
  }

  lemma StepKeepsReadings(w: World, step: Step)
    requires Sound(w) && Enabled(w, step)
    ensures ReadingsComplete(Next(w, step)) && ReadingsPast(Next(w, step)) && MembersIssued(Next(w, step))
  {
  }

  lemma StepKeepsUses(w: World, step: Step)
    requires UsedOnce(w) && Enabled(w, step)
    ensures UsedOnce(Next(w, step))
  {
  }

  lemma StepKeepsStamps(w: World, step: Step)
    requires StampsCurrent(w) && Enabled(w, step)
    ensures StampsCurrent(Next(w, step))
  {
  }

  lemma {:induction false} EveryWorldIsSound(worlds: seq<World>, i: nat)
    requires Run(worlds) && i < |worlds|
    ensures Sound(worlds[i])
  {
    if i > 0 {
      EveryWorldIsSound(worlds, i - 1);
      var w := worlds[i - 1];
      assert Follows(w, worlds[i]);
      var step: Step :| Enabled(w, step) && worlds[i] == Next(w, step);
      StepKeepsListed(w, step);
      StepKeepsOutlived(w, step);
      StepKeepsReadings(w, step);
      StepKeepsUses(w, step);
      StepKeepsStamps(w, step);
    }
  }

  // ----- What holds of every run -----------------------------------------------------------------------

  lemma EachTokenIsAcceptedOnce(worlds: seq<World>, i: nat, jti: nat)
    requires Run(worlds) && i < |worlds|
    ensures worlds[i].accepted[jti] <= 1
    ensures jti in worlds[i].accepted ==> !Live(worlds[i].store, jti)
  {
    EveryWorldIsSound(worlds, i);
    assert worlds[i].accepted[jti] + (if jti in worlds[i].store.tokens then 1 else 0) <= 1;
  }

  /**
   What a revocation leaves of its user's sessions: the tokens issued while it ran, all of
   them, and otherwise only what an earlier revocation had already missed.
   */
  lemma RevocationLeavesWhatSlippedIn(worlds: seq<World>, i: nat, id: nat)
    requires Run(worlds) && i < |worlds| && id in worlds[i].reading
    ensures var w, r := worlds[i], worlds[i].reading[id];
            var left := LiveOf(Next(w, DelFamily(id)).store, r.user);
            && (forall jti | jti in left :: jti in LiveOf(w.store, r.user) && (jti in w.missed || jti !in r.issued))
            && (forall jti | jti in LiveOf(w.store, r.user) && jti !in r.issued :: jti in left)
  {
    EveryWorldIsSound(worlds, i);
  }

  /** So a revocation ends every session of its user if and only if no session began while it ran. */
  lemma RevocationIsCompleteIff(worlds: seq<World>, i: nat, id: nat)
    requires Run(worlds) && i < |worlds| && id in worlds[i].reading
    requires worlds[i].missed !! LiveOf(worlds[i].store, worlds[i].reading[id].user)
    ensures var w, r := worlds[i], worlds[i].reading[id];
            LiveOf(Next(w, DelFamily(id)).store, r.user) == {}
            <==> (forall jti | jti in LiveOf(w.store, r.user) :: jti in r.issued)
  {
    RevocationLeavesWhatSlippedIn(worlds, i, id);
  }

  /** While no revocation has missed anything, every live token is in its family, which expires no earlier. */
  lemma FamiliesListLiveTokens(worlds: seq<World>, i: nat, jti: nat)
    requires Run(worlds) && i < |worlds| && Live(worlds[i].store, jti) && jti !in worlds[i].missed
    ensures var s := worlds[i].store; var u := s.tokens[jti].user;
            u in s.families && jti in s.families[u].members && s.now < s.tokens[jti].deadline <= s.families[u].deadline
  {
    EveryWorldIsSound(worlds, i);
  }

  lemma AcceptTakesOne(w: World, jti: nat, v: nat)
    requires Enabled(w, Accept(jti))
    ensures var u, after := w.store.tokens[jti].user, Next(w, Accept(jti)).store;
            && LiveOf(after, v) == LiveOf(w.store, v) - {jti}
            && jti in LiveOf(w.store, u) && (v != u ==> jti !in LiveOf(w.store, v))
  {
  }

  lemma IssueAddsOne(w: World, next: nat, u: nat, v: nat)
    requires Enabled(w, Issue(next, u)) && UsedOnce(w)
    ensures LiveOf(Next(w, Issue(next, u)).store, v) == LiveOf(w.store, v) + (if v == u then {next} else {})
    ensures next !in LiveOf(w.store, v)
  {
  }

  lemma AcceptIsRecorded(w: World, jti: nat)
    requires Enabled(w, Accept(jti))
    ensures jti in w.store.tokens && jti in Next(w, Accept(jti)).accepted
  {
  }

  /** Once accepted, a token is never live again. */
  lemma {:induction false} AcceptedStaysDead(worlds: seq<World>, i: nat, j: nat, jti: nat)
    requires Run(worlds) && i <= j < |worlds| && jti in worlds[i].accepted
    ensures jti in worlds[j].accepted && !Live(worlds[j].store, jti)
    decreases j
  {
    if i < j {
      AcceptedStaysDead(worlds, i, j - 1, jti);
      assert Follows(worlds[j - 1], worlds[j]);
    }
    EachTokenIsAcceptedOnce(worlds, j, jti);
  }

  /**
   A refresh is two steps, and anything may run between them: it takes the old token from
   its user's sessions, for good, and later adds the new one, and neither step touches
   anybody else. So it leaves the number of sessions as the others make it.
   */
  lemma RotationKeepsSessions(worlds: seq<World>, i: nat, j: nat, jti: nat, next: nat, v: nat)
    requires Run(worlds) && i + 1 < j < |worlds|
    requires Enabled(worlds[i], Accept(jti)) && worlds[i + 1] == Next(worlds[i], Accept(jti))
    requires var u := worlds[i].store.tokens[jti].user;
             Enabled(worlds[j - 1], Issue(next, u)) && worlds[j] == Next(worlds[j - 1], Issue(next, u))
    ensures var u := worlds[i].store.tokens[jti].user;
            && |LiveOf(worlds[i + 1].store, u)| == |LiveOf(worlds[i].store, u)| - 1
            && |LiveOf(worlds[j].store, u)| == |LiveOf(worlds[j - 1].store, u)| + 1
            && next in LiveOf(worlds[j].store, u) && next !in LiveOf(worlds[j - 1].store, u)
            && (v != u ==> LiveOf(worlds[i + 1].store, v) == LiveOf(worlds[i].store, v)
                           && LiveOf(worlds[j].store, v) == LiveOf(worlds[j - 1].store, v))
    ensures forall k | i < k < |worlds| :: !Live(worlds[k].store, jti)
  {
    hide Run, Enabled, Next, LiveOf, Live;
    AcceptIsRecorded(worlds[i], jti);
    var u := worlds[i].store.tokens[jti].user;
    EveryWorldIsSound(worlds, j - 1);
    AcceptTakesOne(worlds[i], jti, u);
    AcceptTakesOne(worlds[i], jti, v);
    IssueAddsOne(worlds[j - 1], next, u, u);
    IssueAddsOne(worlds[j - 1], next, u, v);
    forall k | i < k < |worlds| ensures !Live(worlds[k].store, jti) {
      AcceptedStaysDead(worlds, i + 1, k, jti);
    }
  }

  // ----- Password versions --------------------------------------------------------------------------------

  /**
   The stamp's key outlives every token it must reject: a token passes exactly when it has
   not expired and the last stamp ever written for its user, expired or not, does not
   come after it.
   */
  lemma OnlyTheLastStampMatters(worlds: seq<World>, i: nat, c: Claims, t: int, ttl: int)
    requires Run(worlds) && i < |worlds| && Minted(c, t, ttl)
    ensures Admits(worlds[i].store, c) <==>
              worlds[i].store.now < c.expires * SECOND
                  && (c.user in worlds[i].last ==> worlds[i].last[c.user] <= c.issuedAt)
  {
    EveryWorldIsSound(worlds, i);
    LifetimeIsShort(c, t, ttl);
  }

  lemma LifetimeIsShort(c: Claims, t: int, ttl: int)
    requires Minted(c, t, ttl)
    ensures c.expires * SECOND < (c.issuedAt + 1) * SECOND + REFRESH_TTL
  {
  }

  /** A password change whose clock reading is no later than the second of the token, while that has not expired. */
  ghost predicate WritesStaleStamp(w: World, after: World, c: Claims) {
    && after.store.now < c.expires * SECOND
    && exists t: int :: Enabled(w, Change(c.user, t)) && after == Next(w, Change(c.user, t)) && t / SECOND <= c.issuedAt
  }

  ghost predicate ShutOut(w: World, c: Claims) {
    c.user in w.last && c.issuedAt < w.last[c.user]
  }

  lemma {:induction false} TimeOnlyGrows(worlds: seq<World>, i: nat, j: nat)
    requires Run(worlds) && i <= j < |worlds|
    ensures worlds[i].store.now <= worlds[j].store.now
    decreases j
  {
    if i < j {
      TimeOnlyGrows(worlds, i, j - 1);
      assert Follows(worlds[j - 1], worlds[j]);
    }
  }

  /** Only a stale stamp opens the gate to a token that a stamp has shut. */
  lemma OnlyStaleStampsReopen(w: World, after: World, c: Claims)
    requires Follows(w, after) && ShutOut(w, c) && !ShutOut(after, c) && after.store.now < c.expires * SECOND
    ensures WritesStaleStamp(w, after, c)
  {
    var step: Step :| Enabled(w, step) && after == Next(w, step);
    assert step.Change? && step.u == c.user && step.t / SECOND <= c.issuedAt;
    assert Enabled(w, Change(c.user, step.t)) && after == Next(w, Change(c.user, step.t));
  }

  lemma {:induction false} TheGateWasReopened(worlds: seq<World>, i: nat, k: nat, c: Claims) returns (m: nat)
    requires Run(worlds) && i <= k < |worlds| && ShutOut(worlds[i], c) && !ShutOut(worlds[k], c)
    requires worlds[k].store.now < c.expires * SECOND
    ensures i < m <= k && WritesStaleStamp(worlds[m - 1], worlds[m], c)
    decreases k
  {
    assert Follows(worlds[k - 1], worlds[k]);
    TimeOnlyGrows(worlds, k - 1, k);
    if ShutOut(worlds[k - 1], c) {
      OnlyStaleStampsReopen(worlds[k - 1], worlds[k], c);
      m := k;
    } else {
      m := TheGateWasReopened(worlds, i, k - 1, c);
    }
  }

  /**
   A token of an earlier second than a password change is admitted again, before or after the
   stamp's key expires, if and only if some later change stores a clock reading that is no
   later than the token. Changes that reach Redis in the order of their readings never do.
   */
  lemma ChangedPasswordsStayChangedIff(worlds: seq<World>, i: nat, j: nat, c: Claims, t: int, ttl: int)
    requires Run(worlds) && i <= j < |worlds| && Minted(c, t, ttl) && ShutOut(worlds[i], c)
    ensures (exists k | i <= k <= j :: Admits(worlds[k].store, c))
       <==> (exists k | i < k <= j :: WritesStaleStamp(worlds[k - 1], worlds[k], c))
  {
    hide Run, Admits;
    forall k | i <= k <= j && Admits(worlds[k].store, c)
      ensures exists m | i < m <= j :: WritesStaleStamp(worlds[m - 1], worlds[m], c)
    {
      OnlyTheLastStampMatters(worlds, k, c, t, ttl);
      var m := TheGateWasReopened(worlds, i, k, c);
    }
    forall k | i < k <= j && WritesStaleStamp(worlds[k - 1], worlds[k], c) ensures Admits(worlds[k].store, c) {
      OnlyTheLastStampMatters(worlds, k, c, t, ttl);
    }
  }

  // ----- Runs that reach the two races ----------------------------------------------------------------------

  lemma Grows(worlds: seq<World>, step: Step) returns (longer: seq<World>)
    requires Run(worlds) && Enabled(worlds[|worlds| - 1], step)
    ensures Run(longer) && longer == worlds + [Next(worlds[|worlds| - 1], step)]
  {
    longer := worlds + [Next(worlds[|worlds| - 1], step)];
    forall i | 0 < i < |longer| ensures Follows(longer[i - 1], longer[i]) {
      if i < |worlds| {
        assert Follows(worlds[i - 1], worlds[i]);
      }
    }
  }

  /** A token issued between the two commands of a revocation is live after it, without any earlier miss. */
  lemma ATokenSlipsIn() returns (worlds: seq<World>)
    ensures Run(worlds) && |worlds| == 5 && worlds[3].missed == {} && 0 in worlds[3].reading
    ensures worlds[4] == Next(worlds[3], DelFamily(0)) && LiveOf(worlds[4].store, worlds[3].reading[0].user) == {2}
  {
    worlds := Grows([START], Issue(1, 7));
    worlds := Grows(worlds, SMembers(0, 7));
    worlds := Grows(worlds, Issue(2, 7));
    worlds := Grows(worlds, DelFamily(0));
  }

  /** Two password changes whose stamps arrive out of order: the token one shut out is admitted after the other. */
  lemma AStampGoesBack() returns (worlds: seq<World>, c: Claims)
    ensures Run(worlds) && |worlds| == 4 && Minted(c, 3 * SECOND, HOUR)
    ensures Enabled(worlds[1], Change(c.user, 5 * SECOND)) && Enabled(worlds[2], Change(c.user, 2 * SECOND))
    ensures worlds[2] == Next(worlds[1], Change(c.user, 5 * SECOND)) && !Admits(worlds[2].store, c)
    ensures worlds[3] == Next(worlds[2], Change(c.user, 2 * SECOND)) && Admits(worlds[3].store, c)
  {
    c := Claims(7, 1, 3, 3 + HOUR / SECOND);
    worlds := Grows([START], Tick(5 * SECOND));
    worlds := Grows(worlds, Change(7, 5 * SECOND));
    worlds := Grows(worlds, Change(7, 2 * SECOND));
  }
}
