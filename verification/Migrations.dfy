/** The migration runner, racing with other instances of itself. */
module Migrations {

  /** No version occurs twice. */
  predicate Distinct(log: seq<string>) {
    forall i, j | 0 <= i < j < |log| :: log[i] != log[j]
  }

  class Schema {
    /** The rows of schema_migrations, and the migrations whose statements have committed, in order. */
    var recorded: set<string>
    var log: seq<string>

    ghost predicate Valid()
      reads this
    {
      Distinct(log) && (forall v :: v in recorded <==> v in log)
    }

    constructor ()
      ensures Valid() && log == []
    {
      recorded, log := {}, [];
    }

    /** One transaction: the statements, then the tracking row, whose primary key admits a version once. */
    method Apply(v: string, fault: bool) returns (ok: bool)
      requires Valid()
      modifies this
      ensures Valid()
      ensures ok <==> v !in old(recorded) && !fault
      ensures if ok then log == old(log) + [v] && recorded == old(recorded) + {v}
              else log == old(log) && recorded == old(recorded)
    {
      ok := v !in recorded && !fault;
      if ok {
        log, recorded := log + [v], recorded + {v};
      }
    }

    /** Whatever other instances commit in the meantime. */
    method Interfere(others: seq<string>)
      requires Valid()
      modifies this
      ensures Valid() && old(log) <= log && old(recorded) <= recorded
    {
      for i := 0 to |others|
        invariant Valid() && old(log) <= log && old(recorded) <= recorded
      {
        var ok := Apply(others[i], false);
      }
    }

    /**
     RunMigrations. `others[i]` commit between the check of version i and its transaction,
     `faults[i]` is a failing transaction. However the instances interleave, every version
     takes effect at most once; a run that reports success leaves all of them applied; a
     failing run stops at the first version it could not apply.
     */
    method RunMigrations(versions: seq<string>, others: seq<seq<string>>, faults: seq<bool>)
            returns (ok: bool, stopped: nat)
      requires Valid() && |others| == |versions| == |faults|
      modifies this
      ensures Valid() && old(log) <= log
      ensures ok ==> stopped == |versions|
      ensures !ok ==> stopped < |versions| && (faults[stopped] || versions[stopped] in recorded)
      ensures forall i | 0 <= i < stopped :: versions[i] in recorded
      ensures (forall i | 0 <= i < |versions| :: versions[i] in old(recorded)) ==> ok && log == old(log)
    {
      stopped := 0;
      while stopped < |versions|
        invariant stopped <= |versions| && Valid() && old(log) <= log
        invariant forall i | 0 <= i < stopped :: versions[i] in recorded
        invariant old(recorded) <= recorded
        invariant (forall i | 0 <= i < |versions| :: versions[i] in old(recorded)) ==> log == old(log)
      {
        var v := versions[stopped];
        if v !in recorded {
          Interfere(others[stopped]);
          ok := Apply(v, faults[stopped]);
          if !ok {
            return;
          }
        }
        stopped := stopped + 1;
      }
      ok := true;
    }
  }
}
