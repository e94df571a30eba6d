/** The token-guarded Redis lock: SET NX with a TTL, and a script that deletes only the caller's own token. */
module Locks {
  import opened Prelude

  /** The key's value: whose token it holds and until when. */
  datatype Lock = Lock(token: nat, deadline: int)

  datatype Step =
    | Tick(to: int)
    | TryLock(token: nat, ttl: nat)
    | Unlock(token: nat)

  /** `won` are the tokens that ever got the lock, with their deadlines; `released` those given back. */
  datatype World = World(now: int, key: Option<Lock>, won: map<nat, int>, released: set<nat>)

  predicate Held(w: World) {
    w.key.Some? && w.now < w.key.value.deadline
  }

  /** Every attempt draws a fresh random token. */
  predicate Enabled(w: World, step: Step) {
    match step
    case Tick(to) => w.now <= to
    case TryLock(token, _) => token !in w.won
    case Unlock(token) => true
  }

  function Next(w: World, step: Step): World
    requires Enabled(w, step)
  {
    match step
    case Tick(to) => w.(now := to)
    case TryLock(token, ttl) =>
      if Held(w) then w
      else w.(key := Some(Lock(token, w.now + ttl)), won := w.won[token := w.now + ttl])
    case Unlock(token) =>
      (if Held(w) && w.key.value.token == token then w.(key := None) else w).(released := w.released + {token})
  }

  ghost predicate Run(worlds: seq<World>) {
    && worlds != [] && worlds[0] == World(0, None, map[], {})
    && forall i | 0 < i < |worlds| :: Follows(worlds[i - 1], worlds[i])
  }

  ghost predicate Follows(w: World, v: World) {
    exists step: Step :: Enabled(w, step) && v == Next(w, step)
  }

  /** A winner that has not given the lock back owns it until its deadline. */
  predicate Owns(w: World, token: nat) {
    token in w.won && token !in w.released && w.now < w.won[token]
  }

  ghost predicate Ok(w: World) {
    && (forall token | Owns(w, token) :: w.key == Some(Lock(token, w.won[token])))
    && (w.key.Some? ==> w.key.value.token in w.won && w.won[w.key.value.token] == w.key.value.deadline)
  }

  lemma StepKeepsOk(w: World, step: Step)
    requires Ok(w) && Enabled(w, step)
    ensures Ok(Next(w, step))
  {
  }

  lemma {:induction false} EveryWorldIsOk(worlds: seq<World>, i: nat)
    requires Run(worlds) && i < |worlds|
    ensures Ok(worlds[i])
  {
    if i > 0 {
      EveryWorldIsOk(worlds, i - 1);
      assert Follows(worlds[i - 1], worlds[i]);
      var step: Step :| Enabled(worlds[i - 1], step) && worlds[i] == Next(worlds[i - 1], step);
      StepKeepsOk(worlds[i - 1], step);
    }
  }

  /** A fresh token gets the lock exactly when the key is gone or past its deadline, and owns it until its own. */
  lemma FreeLocksAreTaken(w: World, token: nat, ttl: nat)
    requires Enabled(w, TryLock(token, ttl)) && token !in w.released && ttl > 0
    ensures Owns(Next(w, TryLock(token, ttl)), token) <==> w.key.None? || w.key.value.deadline <= w.now
    ensures Owns(Next(w, TryLock(token, ttl)), token) ==>
              Next(w, TryLock(token, ttl)).key == Some(Lock(token, w.now + ttl))
  {
  }

  /** No two owners at once, in any run: an expired holder's late Unlock never frees its successor. */
  lemma AtMostOneOwner(worlds: seq<World>, i: nat, a: nat, b: nat)
    requires Run(worlds) && i < |worlds| && Owns(worlds[i], a) && Owns(worlds[i], b)
    ensures a == b
    ensures forall c | c != a && Enabled(worlds[i], Unlock(c)) :: Owns(Next(worlds[i], Unlock(c)), a)
  {
    EveryWorldIsOk(worlds, i);
  }
}
