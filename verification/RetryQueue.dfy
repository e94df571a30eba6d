/**
 A worker queue with its retry policy: requeue with backoff, five times at most, then the
 dead-letter list. A job that runs or backs off is held in memory, and so is lost when the
 process ends.
 */
module RetryQueue {
  import opened Prelude

  const MAX_JOB_RETRIES: nat := 5
  const RETRIES: string := "_retries"

  /** A JSON value, as far as the retry counter is concerned. */
  datatype Value = Number(n: int) | Raw(text: string)

  /** A queued payload: a JSON object, JSON null, or text that does not parse as either. */
  datatype Payload = Envelope(fields: map<string, Value>) | Null | Malformed(text: string)

  /** A missing or unreadable counter counts as zero. */
  function Retries(p: Payload): int {
    if p.Envelope? && RETRIES in p.fields && p.fields[RETRIES].Number? then p.fields[RETRIES].n else 0
  }

  /** Everything but the counter. */
  function Body(p: Payload): Payload {
    if p.Envelope? then Envelope(p.fields - {RETRIES}) else p
  }

  /** A null parses as a map that is nil, into which the counter cannot be written: the process panics. */
  predicate GivesUp(p: Payload) {
    p.Malformed? || (p.Envelope? && Retries(p) + 1 > MAX_JOB_RETRIES)
  }

  predicate Requeues(p: Payload) {
    p.Envelope? && !GivesUp(p)
  }

  function Bumped(p: Payload): Payload
    requires p.Envelope?
  {
    Envelope(p.fields[RETRIES := Number(Retries(p) + 1)])
  }

  /** How many more times a payload can still be handled, this time included. */
  function RunsLeft(p: Payload): nat {
    if Requeues(p) then MAX_JOB_RETRIES + 1 - Retries(p) else 1
  }

  lemma BumpingSpendsOneRun(p: Payload)
    requires Requeues(p)
    ensures Body(Bumped(p)) == Body(p)
    ensures RunsLeft(Bumped(p)) == RunsLeft(p) - 1
  {
  }

  // ----- One queue ----------------------------------------------------------------------

  /** Where the jobs are, by id: `running` is the one the single consumer holds; `lost` are in no place. */
  datatype State = State(
    queued: seq<nat>,
    running: Option<nat>,
    backing: multiset<nat>,
    dead: seq<nat>,
    done: multiset<nat>,
    lost: multiset<nat>,
    payload: map<nat, Payload>,
    submitted: map<nat, Payload>,
    runs: map<nat, nat>)

  datatype Step =
    | Submit(id: nat, p: Payload)
    | Pop
    | Succeed
    /** The handler fails. `pushed` is false when Redis does not take the dead job. */
    | Fail(pushed: bool)
    /** The backoff is over. `pushed` is false when Redis does not take the job back. */
    | Return(id: nat, pushed: bool)
    /** The process ends, by a shutdown, a crash or the panic of another queue's consumer. */
    | Stop

  predicate Enabled(s: State, step: Step) {
    match step
    case Submit(id, _) => id !in s.submitted
    case Pop => s.queued != [] && s.running.None?
    case Succeed => s.running.Some?
    case Fail(_) => s.running.Some? && s.running.value in s.payload
    case Return(id, _) => id in s.backing
    case Stop => true
  }

  function Held(running: Option<nat>): multiset<nat> {
    if running.Some? then multiset{running.value} else multiset{}
  }

  /** What was in memory is gone; what is in Redis stays. */
  function Stopped(s: State): State {
    s.(running := None, backing := multiset{}, lost := s.lost + Held(s.running) + s.backing)
  }

  /** LPUSH puts a job in front, BRPOP takes the last one. */
  function Next(s: State, step: Step): State
    requires Enabled(s, step)
  {
    match step
    case Submit(id, p) =>
      s.(queued := [id] + s.queued, payload := s.payload[id := p], submitted := s.submitted[id := p],
          runs := s.runs[id := 0])
    case Pop =>
      var id := s.queued[|s.queued| - 1];
      var started := if id in s.runs then s.runs[id] else 0;
      s.(queued := s.queued[..|s.queued| - 1], running := Some(id), runs := s.runs[id := started + 1])
    case Succeed => s.(running := None, done := s.done + multiset{s.running.value})
    case Fail(pushed) =>
      var id := s.running.value;
      if s.payload[id].Null? then Stopped(s)
      else if Requeues(s.payload[id]) then
        s.(running := None, backing := s.backing + multiset{id}, payload := s.payload[id := Bumped(s.payload[id])])
      else if pushed then s.(running := None, dead := [id] + s.dead)
      else s.(running := None, lost := s.lost + multiset{id})
    case Return(id, pushed) =>
      var rest := s.(backing := s.backing - multiset{id});
      if pushed then rest.(queued := [id] + s.queued) else rest.(lost := s.lost + multiset{id})
    case Stop => Stopped(s)
  }

  const EMPTY_QUEUE := State([], None, multiset{}, [], multiset{}, multiset{}, map[], map[], map[])

  // ----- The invariant ----------------------------------------------------------------------

  /** How many places hold the job. */
  function Holders(s: State, id: nat): nat {
    multiset(s.queued)[id] + (if s.running == Some(id) then 1 else 0)
    + s.backing[id] + multiset(s.dead)[id] + s.done[id] + s.lost[id]
  }

  /**
   A waiting job has used up what its counter shows; a started one has used one run more. A
   job can be lost in either state.
   */
  ghost predicate Accounted(s: State, id: nat)
    requires id in s.submitted && id in s.payload && id in s.runs
  {
    && Body(s.payload[id]) == Body(s.submitted[id])
    && (!s.payload[id].Envelope? ==> s.runs[id] == 0 || (s.runs[id] == 1 && id !in s.queued && id !in s.backing))
    && Retries(s.submitted[id]) <= Retries(s.payload[id])
    && (Retries(s.payload[id]) == Retries(s.submitted[id]) || Retries(s.payload[id]) <= MAX_JOB_RETRIES)
    && var used := s.runs[id] - (Retries(s.payload[id]) - Retries(s.submitted[id]));
       0 <= used <= 1 && (id !in s.lost ==> used == if id in s.queued || id in s.backing then 0 else 1)
  }

  ghost predicate Ok(s: State) {
    && s.payload.Keys == s.submitted.Keys == s.runs.Keys
    && (forall id | id in s.submitted :: Holders(s, id) == 1 && Accounted(s, id))
    && (forall id: nat | id !in s.submitted :: Holders(s, id) == 0)
  }

  lemma PopTakesTheLast(queued: seq<nat>, id: nat)
    requires queued != []
    ensures var n := |queued| - 1;
            multiset(queued)[id] == multiset(queued[..n])[id] + if queued[n] == id then 1 else 0
  {
    assert queued == queued[..|queued| - 1] + [queued[|queued| - 1]];
  }

  lemma SubmitKeepsOk(s: State, id: nat, p: Payload)
    requires Ok(s) && Enabled(s, Submit(id, p))
    ensures Ok(Next(s, Submit(id, p)))
  {
    var t := Next(s, Submit(id, p));
    forall x | x in t.submitted ensures Holders(t, x) == 1 && Accounted(t, x) {
      SubmitAddsOne(s, id, p, x);
    }
    forall x: nat | x !in t.submitted ensures Holders(t, x) == 0 {
      SubmitAddsOne(s, id, p, x);
    }
  }

  lemma SubmitAddsOne(s: State, id: nat, p: Payload, x: nat)
    requires Ok(s) && Enabled(s, Submit(id, p))
    ensures var t := Next(s, Submit(id, p));
            && Holders(t, x) == Holders(s, x) + (if x == id then 1 else 0)
            && (x in t.submitted ==> x in t.payload && x in t.runs && Accounted(t, x))
  {
    var t := Next(s, Submit(id, p));
    assert Holders(s, id) == 0;
    assert multiset(t.queued)[x] == multiset(s.queued)[x] + if x == id then 1 else 0;
    assert x in s.submitted ==> Accounted(s, x);
  }

  lemma PopMovesOne(s: State, x: nat)
    requires Ok(s) && Enabled(s, Pop)
    ensures var t, id := Next(s, Pop), s.queued[|s.queued| - 1];
            && Holders(t, x) == Holders(s, x)
            && id in s.submitted && id !in t.queued && id !in t.backing
            && (x != id ==> (x in t.queued <==> x in s.queued))
  {
    var t, id := Next(s, Pop), s.queued[|s.queued| - 1];
    PopTakesTheLast(s.queued, x);
    PopTakesTheLast(s.queued, id);
    assert id in s.queued;
    assert multiset(s.queued)[id] >= 1;
    assert Holders(s, id) == 1;
    assert multiset(t.queued)[id] == 0;
    assert x in t.queued <==> multiset(t.queued)[x] > 0;
    assert x in s.queued <==> multiset(s.queued)[x] > 0;
  }

  lemma PopKeepsOk(s: State)
    requires Ok(s) && Enabled(s, Pop)
    ensures Ok(Next(s, Pop))
  {
    var t := Next(s, Pop);
    forall x: nat ensures Holders(t, x) == Holders(s, x) && (x in t.submitted ==> Accounted(t, x)) {
      PopMovesOne(s, x);
      assert x in s.submitted ==> Accounted(s, x);
    }
  }

  /** Giving up moves the running job to the dead-letter list, if Redis takes it, and touches no other. */
  lemma GivingUpMovesOne(s: State, pushed: bool, x: nat)
    requires Ok(s) && Enabled(s, Fail(pushed)) && GivesUp(s.payload[s.running.value])
    ensures var t := Next(s, Fail(pushed));
            && t.payload == s.payload && t.runs == s.runs && t.queued == s.queued && t.backing == s.backing
            && Holders(t, x) == Holders(s, x)
  {
  }

  /** Requeueing moves the running job to the backing-off ones and changes no payload but its own. */
  lemma RequeueingMovesOne(s: State, pushed: bool, x: nat)
    requires Ok(s) && Enabled(s, Fail(pushed)) && Requeues(s.payload[s.running.value])
    ensures var t, id := Next(s, Fail(pushed)), s.running.value;
            && t.runs == s.runs && t.queued == s.queued && t.payload == s.payload[id := Bumped(s.payload[id])]
            && (x != id ==> (x in t.backing <==> x in s.backing))
            && Holders(t, x) == Holders(s, x)
  {
  }

  /** The requeued job has one run less to go, and is waiting again. */
  lemma RequeuedIsAccounted(s: State, pushed: bool)
    requires Ok(s) && Enabled(s, Fail(pushed)) && Requeues(s.payload[s.running.value])
    ensures var t, id := Next(s, Fail(pushed)), s.running.value;
            id in t.submitted && id in t.payload && id in t.runs && Accounted(t, id)
  {
    var t, id := Next(s, Fail(pushed)), s.running.value;
    assert Holders(s, id) == 1 && Accounted(s, id);
    BumpingSpendsOneRun(s.payload[id]);
    assert multiset(s.queued)[id] == 0;
    assert id !in s.queued;
  }

  lemma GivingUpKeepsOk(s: State, pushed: bool)
    requires Ok(s) && Enabled(s, Fail(pushed)) && GivesUp(s.payload[s.running.value])
    ensures Ok(Next(s, Fail(pushed)))
  {
    var t := Next(s, Fail(pushed));
    forall x: nat ensures Holders(t, x) == Holders(s, x) && (x in t.submitted ==> Accounted(t, x)) {
      GivingUpMovesOne(s, pushed, x);
      assert x in s.submitted ==> Accounted(s, x);
    }
  }

  lemma RequeueingKeepsOk(s: State, pushed: bool)
    requires Ok(s) && Enabled(s, Fail(pushed)) && Requeues(s.payload[s.running.value])
    ensures Ok(Next(s, Fail(pushed)))
  {
    hide Body, RunsLeft, Bumped, Retries, GivesUp;
    var t, id := Next(s, Fail(pushed)), s.running.value;
    assert Holders(s, id) == 1;
    RequeuedIsAccounted(s, pushed);
    forall x: nat ensures Holders(t, x) == Holders(s, x) && (x in t.submitted ==> Accounted(t, x)) {
      RequeueingMovesOne(s, pushed, x);
      assert x in s.submitted ==> Accounted(s, x);
    }
  }

  lemma StoppingKeepsOk(s: State)
    requires Ok(s)
    ensures Ok(Stopped(s))
  {
    var t := Stopped(s);
    forall x: nat ensures Holders(t, x) == Holders(s, x) && (x in t.submitted ==> Accounted(t, x)) {
      assert x in s.submitted ==> Accounted(s, x);
    }
  }

  lemma FailKeepsOk(s: State, pushed: bool)
    requires Ok(s) && Enabled(s, Fail(pushed))
    ensures Ok(Next(s, Fail(pushed)))
  {
    if s.payload[s.running.value].Null? {
      StoppingKeepsOk(s);
    } else if Requeues(s.payload[s.running.value]) {
      RequeueingKeepsOk(s, pushed);
    } else {
      GivingUpKeepsOk(s, pushed);
    }
  }

  lemma ReturnKeepsOk(s: State, id: nat, pushed: bool)
    requires Ok(s) && Enabled(s, Return(id, pushed))
    ensures Ok(Next(s, Return(id, pushed)))
  {
    var t := Next(s, Return(id, pushed));
    forall x: nat ensures Holders(t, x) == Holders(s, x) {
    }
    assert Holders(s, id) == 1;
    forall x | x in t.submitted ensures Accounted(t, x) {
      assert Accounted(s, x);
    }
  }

  lemma StepKeepsOk(s: State, step: Step)
    requires Ok(s) && Enabled(s, step)
    ensures Ok(Next(s, step))
  {
    match step {
      case Submit(id, p) => SubmitKeepsOk(s, id, p);
      case Pop => PopKeepsOk(s);
      case Succeed =>
        var t := Next(s, step);
        forall x: nat ensures Holders(t, x) == Holders(s, x) {
        }
        forall x | x in t.submitted ensures Accounted(t, x) {
          assert Accounted(s, x);
        }
      case Fail(pushed) => FailKeepsOk(s, pushed);
      case Return(id, pushed) => ReturnKeepsOk(s, id, pushed);
      case Stop => StoppingKeepsOk(s);
    }
  }

  // ----- Runs -----------------------------------------------------------------------------------

  /** A run and the steps it takes. */
  ghost predicate Run(states: seq<State>, steps: seq<Step>) {
    && |states| == |steps| + 1 && states[0] == EMPTY_QUEUE
    && forall i | 0 <= i < |steps| :: Enabled(states[i], steps[i]) && states[i + 1] == Next(states[i], steps[i])
  }

  lemma {:induction false} EveryStateIsOk(states: seq<State>, steps: seq<Step>, i: nat)
    requires Run(states, steps) && i < |states|
    ensures Ok(states[i])
  {
    if i > 0 {
      EveryStateIsOk(states, steps, i - 1);
      StepKeepsOk(states[i - 1], steps[i - 1]);
    }
  }

  /**
   Every submitted job is at all times in exactly one place, lost being one, nothing but its
   counter has changed, and its handler has run no more often than its submitted counter
   allows.
   */
  lemma NoJobIsDoubledOrOverrun(states: seq<State>, steps: seq<Step>, i: nat, id: nat)
    requires Run(states, steps) && i < |states| && id in states[i].submitted
    ensures var s := states[i];
            && Holders(s, id) == 1
            && id in s.payload && Body(s.payload[id]) == Body(s.submitted[id])
            && id in s.runs && s.runs[id] <= RunsLeft(s.submitted[id])
  {
    EveryStateIsOk(states, steps, i);
    assert Accounted(states[i], id);
  }

  /** The step ends the process: it stops, or the handler of a null payload fails. */
  predicate Ends(s: State, step: Step)
    requires Enabled(s, step)
  {
    step.Stop? || (step.Fail? && s.payload[s.running.value].Null?)
  }

  /** The ways to lose a job: the process ends while the job is in memory, or Redis does not take it back. */
  predicate Loses(s: State, step: Step, id: nat)
    requires Enabled(s, step)
  {
    || (Ends(s, step) && (s.running == Some(id) || id in s.backing))
    || (step == Fail(false) && s.running == Some(id) && GivesUp(s.payload[id]))
    || step == Return(id, false)
  }

  lemma StoppingLosesMemory(s: State, id: nat)
    ensures id in Stopped(s).lost <==> id in s.lost || s.running == Some(id) || id in s.backing
  {
  }

  lemma LosingIsOneStep(s: State, step: Step, id: nat)
    requires Enabled(s, step)
    ensures id in Next(s, step).lost <==> id in s.lost || Loses(s, step, id)
  {
    hide Stopped, GivesUp, Requeues;
    if Ends(s, step) {
      StoppingLosesMemory(s, id);
    } else if step.Fail? {
      FailingLoses(s, step.pushed, id);
    } else if step.Return? {
    }
  }

  lemma FailingLoses(s: State, pushed: bool, id: nat)
    requires Enabled(s, Fail(pushed)) && !s.payload[s.running.value].Null?
    ensures id in Next(s, Fail(pushed)).lost
       <==> id in s.lost || (!pushed && s.running == Some(id) && GivesUp(s.payload[id]))
  {
  }

  /** A job is lost if and only if one of these happened to it: no other step of any run loses a job. */
  lemma {:induction false} AJobIsLostIff(states: seq<State>, steps: seq<Step>, i: nat, id: nat)
    requires Run(states, steps) && i < |states|
    ensures id in states[i].lost <==> exists j | 0 <= j < i :: Loses(states[j], steps[j], id)
  {
    if i > 0 {
      AJobIsLostIff(states, steps, i - 1, id);
      LosingIsOneStep(states[i - 1], steps[i - 1], id);
    }
  }

  /** A null that fails takes along every job that backs off beside it. */
  lemma ANullTakesOthersAlong(id: nat, other: nat, p: Payload) returns (states: seq<State>, steps: seq<Step>)
    requires id != other && Requeues(p)
    ensures Run(states, steps) && forall i | 0 <= i < |steps| :: steps[i] != Stop
    ensures states[|steps|].lost == multiset{id, other} && states[|steps|].submitted == map[other := p, id := Null]
  {
    var a := Next(EMPTY_QUEUE, Submit(other, p));
    var b := Next(a, Pop);
    var c := Next(b, Fail(true));
    var d := Next(c, Submit(id, Null));
    var e := Next(d, Pop);
    var f := Next(e, Fail(true));
    steps := [Submit(other, p), Pop, Fail(true), Submit(id, Null), Pop, Fail(true)];
    states := [EMPTY_QUEUE, a, b, c, d, e, f];
  }

  /** Both wait, and `b` came to the queue after `a`: the last in the list is served next. */
  predicate Behind(queued: seq<nat>, b: nat, a: nat) {
    exists p, q | 0 <= p < q < |queued| :: queued[p] == b && queued[q] == a
  }

  lemma PushKeepsTheOrder(queued: seq<nat>, id: nat, b: nat, a: nat)
    requires Behind(queued, b, a)
    ensures Behind([id] + queued, b, a)
  {
    var p, q :| 0 <= p < q < |queued| && queued[p] == b && queued[q] == a;
    assert ([id] + queued)[p + 1] == b && ([id] + queued)[q + 1] == a;
  }

  lemma PopKeepsTheOrder(s: State, b: nat, a: nat)
    requires Ok(s) && Enabled(s, Pop) && Behind(s.queued, b, a) && s.queued[|s.queued| - 1] != a
    ensures Behind(Next(s, Pop).queued, b, a)
  {
    var queued := Next(s, Pop).queued;
    var p, q :| 0 <= p < q < |s.queued| && s.queued[p] == b && s.queued[q] == a;
    assert queued[p] == b && queued[q] == a;
  }

  lemma StepKeepsTheOrder(s: State, step: Step, b: nat, a: nat)
    requires Ok(s) && Enabled(s, step) && Behind(s.queued, b, a) && a in Next(s, step).queued
    ensures Behind(Next(s, step).queued, b, a)
  {
    hide Behind, Accounted;
    if step.Pop? {
      PopMovesOne(s, a);
      PopKeepsTheOrder(s, b, a);
    } else if step.Submit? || step.Return? {
      PushKeepsTheOrder(s.queued, step.id, b, a);
    }
  }

  /** First come, first served: a job that stands behind another is not taken before it. */
  lemma {:induction false} NobodyOvertakes(states: seq<State>, steps: seq<Step>, i: nat, j: nat, b: nat, a: nat)
    requires Run(states, steps) && i <= j < |states| && Behind(states[i].queued, b, a)
    requires forall k | i <= k <= j :: a in states[k].queued
    ensures Behind(states[j].queued, b, a)
    decreases j
  {
    hide Behind, Next, Enabled;
    if i < j {
      NobodyOvertakes(states, steps, i, j - 1, b, a);
      EveryStateIsOk(states, steps, j - 1);
      assert a in states[j].queued;
      StepKeepsTheOrder(states[j - 1], steps[j - 1], b, a);
    }
  }

  /** Only what has given up is in the dead-letter list, and it stays as it was when it did. */
  ghost predicate DeadGaveUp(s: State) {
    forall id | id in s.dead :: id in s.payload && GivesUp(s.payload[id])
  }

  lemma DeadIsNotRunning(s: State, id: nat)
    requires Ok(s) && id in s.dead
    ensures id in s.submitted && s.running != Some(id) && id !in s.queued && id !in s.backing && id !in s.lost
  {
    assert multiset(s.dead)[id] >= 1;
    assert Holders(s, id) >= 1;
    assert multiset(s.queued)[id] == 0;
  }

  lemma StepKeepsDead(s: State, step: Step)
    requires Ok(s) && DeadGaveUp(s) && Enabled(s, step)
    ensures DeadGaveUp(Next(s, step))
  {
    hide GivesUp, Next, Accounted;
    var t := Next(s, step);
    forall id | id in t.dead ensures id in t.payload && GivesUp(t.payload[id]) {
      if id in s.dead {
        DeadIsNotRunning(s, id);
        OthersStayAsTheyAre(s, step, id);
      } else {
        TheFailedGaveUp(s, step, id);
      }
    }
  }

  lemma OthersStayAsTheyAre(s: State, step: Step, id: nat)
    requires Enabled(s, step) && id in s.submitted && id in s.payload && s.running != Some(id)
    ensures id in Next(s, step).payload && Next(s, step).payload[id] == s.payload[id]
  {
  }

  lemma TheFailedGaveUp(s: State, step: Step, id: nat)
    requires Enabled(s, step) && id !in s.dead && id in Next(s, step).dead
    ensures step == Fail(true) && s.running == Some(id) && id in s.payload && GivesUp(s.payload[id])
    ensures Next(s, step).payload == s.payload
  {
  }

  lemma {:induction false} TheDeadGaveUp(states: seq<State>, steps: seq<Step>, i: nat)
    requires Run(states, steps) && i < |states|
    ensures DeadGaveUp(states[i])
  {
    if i > 0 {
      TheDeadGaveUp(states, steps, i - 1);
      EveryStateIsOk(states, steps, i - 1);
      StepKeepsDead(states[i - 1], steps[i - 1]);
    }
  }

  /**
   No job is given up early: one in the dead-letter list has run exactly as often as its
   counter allowed, six times without one and once if it is not JSON; and one that has runs
   left, has not succeeded and was not lost is waiting or running.
   */
  lemma DeadJobsRanTheirCourse(states: seq<State>, steps: seq<Step>, i: nat, id: nat)
    requires Run(states, steps) && i < |states| && id in states[i].submitted
    ensures var s := states[i];
            && id in s.runs
            && (id in s.dead ==> s.runs[id] == RunsLeft(s.submitted[id]))
            && (id in s.dead && s.submitted[id].Envelope? && RETRIES !in s.submitted[id].fields ==> s.runs[id] == 6)
            && (id in s.dead && s.submitted[id].Malformed? ==> s.runs[id] == 1)
            && (s.runs[id] < RunsLeft(s.submitted[id]) && id !in s.done && id !in s.lost ==>
                  id in s.queued || s.running == Some(id) || id in s.backing)
  {
    var s := states[i];
    EveryStateIsOk(states, steps, i);
    TheDeadGaveUp(states, steps, i);
    assert Holders(s, id) == 1 && Accounted(s, id);
    if id in s.dead {
      DeadIsNotRunning(s, id);
    }
  }

  /** A job enqueued without a counter runs at most six times; text that is not a JSON object runs once. */
  lemma SixRunsAtMost(states: seq<State>, steps: seq<Step>, i: nat, id: nat)
    requires Run(states, steps) && i < |states| && id in states[i].submitted
    requires states[i].submitted[id].Envelope? ==> RETRIES !in states[i].submitted[id].fields
    ensures id in states[i].runs && states[i].runs[id] <= if states[i].submitted[id].Envelope? then 6 else 1
  {
    NoJobIsDoubledOrOverrun(states, steps, i, id);
  }

  /** Between two handler runs of a job that never succeeds its measure drops, so it leaves the queue for good. */
  lemma FailingSpendsTheMeasure(s: State, pushed: bool)
    requires Enabled(s, Fail(pushed))
    ensures var id, t := s.running.value, Next(s, Fail(pushed));
            if Requeues(s.payload[id]) then
              id in t.backing && RunsLeft(t.payload[id]) == RunsLeft(s.payload[id]) - 1 >= 1
            else
              && t.payload == s.payload && t.queued == s.queued && t.backing <= s.backing
              && if GivesUp(s.payload[id]) && pushed then t.dead == [id] + s.dead
                 else t.dead == s.dead && id in t.lost
  {
    if Requeues(s.payload[s.running.value]) {
      BumpingSpendsOneRun(s.payload[s.running.value]);
    }
  }

  // ----- The worker's side -----------------------------------------------------------------------

  class Consumer {
    var dead: seq<Payload>
    var backing: multiset<Payload>
    var alive: bool

    constructor ()
      ensures dead == [] && backing == multiset{} && alive
    {
      dead, backing, alive := [], multiset{}, true;
    }

    /**
     requeueOrDead: rewrites the counter inside the payload and nothing else. `pushed` says
     whether Redis takes a dead job. Writing into the nil map of a null ends the process, and
     with it the goroutines that hold the backing-off jobs.
     */
    method RequeueOrDead(p: Payload, pushed: bool)
      requires alive
      modifies this
      ensures alive <==> !p.Null?
      ensures dead == if GivesUp(p) && pushed then [p] + old(dead) else old(dead)
      ensures backing == if p.Null? then multiset{}
                         else if Requeues(p) then old(backing) + multiset{Bumped(p)} else old(backing)
    {
      var retries := 0;
      match p {
        case Malformed(_) =>
          if pushed {
            dead := [p] + dead;
          }
          return;
        case Null =>
        case Envelope(fields) =>
          if RETRIES in fields && fields[RETRIES].Number? {
            retries := fields[RETRIES].n;
          }
      }
      retries := retries + 1;
      if retries > MAX_JOB_RETRIES {
        if pushed {
          dead := [p] + dead;
        }
        return;
      }
      if p.Null? {
        alive, backing := false, multiset{};
      } else {
        backing := backing + multiset{Envelope(p.fields[RETRIES := Number(retries)])};
      }
    }
  }
}
