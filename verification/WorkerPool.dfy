/**
 The worker pool of the benchmarks: threads that take job numbers from a shared
 counter under a lock. The read and the write of `next_job++` are separate steps,
 and the threads are interleaved in any order.
 */
module WorkerPool {
  import opened Stacks

  /** Where a worker stands. The number is the value of `index`. */
  datatype Phase =
    | Waiting                // about to lock
    | Locked                 // has the lock
    | Fetched(index: nat)    // has read the counter
    | Stored(index: nat)     // has written it back, one more
    | Chosen(index: nat)     // has unlocked, about to compare with the job count
    | Working(index: nat)    // runs the job
    | Finished

  datatype State = State(lock: Option<nat>, nextJob: nat, phases: seq<Phase>, ran: seq<nat>)

  function AllWaiting(workers: nat): (r: seq<Phase>)
    ensures |r| == workers && forall i :: 0 <= i < workers ==> r[i] == Waiting
  {
    seq(workers, _ => Waiting)
  }

  function NoneRun(jobs: nat): (r: seq<nat>)
    ensures |r| == jobs && forall i :: 0 <= i < jobs ==> r[i] == 0
  {
    seq(jobs, _ => 0)
  }

  function Start(workers: nat, jobs: nat): State
  {
    State(None, 0, AllWaiting(workers), NoneRun(jobs))
  }

  /** Whether worker `w` can move: only the lock can hold it up. */
  predicate Enabled(st: State, w: nat)
  {
    w < |st.phases| && st.phases[w] != Finished && (st.phases[w].Waiting? ==> st.lock == None)
  }

  function Moved(st: State, w: nat, p: Phase): State
    requires w < |st.phases|
  {
    st.(phases := st.phases[w := p])
  }

  /** One step of worker `w`. A worker that cannot move stays where it is. */
  function Step(st: State, w: nat): State
  {
    if !Enabled(st, w) then st
    else
      match st.phases[w]
      case Waiting => Moved(st, w, Locked).(lock := Some(w))
      case Locked => Moved(st, w, Fetched(st.nextJob))
      case Fetched(index) => Moved(st, w, Stored(index)).(nextJob := index + 1)
      case Stored(index) => Moved(st, w, Chosen(index)).(lock := None)
      case Chosen(index) => Moved(st, w, if index >= |st.ran| then Finished else Working(index))
      case Working(index) =>
        Moved(st, w, Waiting).(ran := if index < |st.ran| then st.ran[index := st.ran[index] + 1] else st.ran)
      case Finished => st
  }

  /** The steps in the order the scheduler takes them. */
  function Run(st: State, schedule: seq<nat>): State
    decreases |schedule|
  {
    if |schedule| == 0 then st else Run(Step(st, schedule[0]), schedule[1..])
  }

  predicate AllFinished(st: State)
  {
    forall w :: 0 <= w < |st.phases| ==> st.phases[w] == Finished
  }

  // ---------------------------------------------------------------------
  // Counting over the workers
  // ---------------------------------------------------------------------

  datatype Kind =
    | Holding(job: nat)     // the worker has taken this job and not finished it
    | Past(jobs: nat)       // it has taken a number past the last job
    | Effort                // the steps it has left before it takes a number

  function Weight(kind: Kind, p: Phase): nat
  {
    match kind
    case Holding(job) => if (p.Stored? || p.Chosen? || p.Working?) && p.index == job then 1 else 0
    case Past(jobs) => if ((p.Stored? || p.Chosen?) && p.index >= jobs) || p.Finished? then 1 else 0
    case Effort =>
      match p
      case Waiting => 3
      case Locked => 2
      case Fetched(_) => 1
      case Stored(_) => 6
      case Chosen(_) => 5
      case Working(_) => 4
      case Finished => 0
  }

  function Sum(kind: Kind, phases: seq<Phase>): nat
  {
    if |phases| == 0 then 0 else Sum(kind, Pop(phases)) + Weight(kind, Top(phases))
  }

  lemma {:induction false} SumUpdate(kind: Kind, phases: seq<Phase>, w: nat, p: Phase)
    requires w < |phases|
    ensures Sum(kind, phases[w := p]) == Sum(kind, phases) - Weight(kind, phases[w]) + Weight(kind, p)
    decreases |phases|
  {
    if w == |phases| - 1 {
      assert Pop(phases[w := p]) == Pop(phases);
    } else {
      assert Pop(phases[w := p]) == Pop(phases)[w := p];
      SumUpdate(kind, Pop(phases), w, p);
    }
  }

  lemma {:induction false} SumUniform(kind: Kind, phases: seq<Phase>, weight: nat)
    requires forall w :: 0 <= w < |phases| ==> Weight(kind, phases[w]) == weight
    ensures Sum(kind, phases) == weight * |phases|
  {
    if |phases| > 0 {
      SumUniform(kind, Pop(phases), weight);
    }
  }

  lemma {:induction false} SumAtLeast(kind: Kind, phases: seq<Phase>, w: nat)
    requires w < |phases|
    ensures Sum(kind, phases) >= Weight(kind, phases[w])
    decreases |phases|
  {
    if w < |phases| - 1 {
      SumAtLeast(kind, Pop(phases), w);
    }
  }

  lemma {:induction false} SumOfTwo(kind: Kind, phases: seq<Phase>, v: nat, w: nat)
    requires v < w < |phases|
    ensures Sum(kind, phases) >= Weight(kind, phases[v]) + Weight(kind, phases[w])
    decreases |phases|
  {
    if w < |phases| - 1 {
      SumOfTwo(kind, Pop(phases), v, w);
    } else {
      SumAtLeast(kind, Pop(phases), v);
    }
  }

  // ---------------------------------------------------------------------
  // What every step keeps
  // ---------------------------------------------------------------------

  predicate InsideLock(p: Phase)
  {
    p.Locked? || p.Fetched? || p.Stored?
  }

  /** Mutual exclusion, and what the worker inside the lock knows about the counter. */
  predicate Exclusive(st: State)
  {
    (st.lock.Some? ==> st.lock.value < |st.phases| && InsideLock(st.phases[st.lock.value])) &&
    forall w :: 0 <= w < |st.phases| ==>
      (InsideLock(st.phases[w]) ==> st.lock == Some(w)) &&
      (st.phases[w].Fetched? ==> st.phases[w].index == st.nextJob) &&
      (st.phases[w].Stored? ==> st.phases[w].index + 1 == st.nextJob) &&
      (st.phases[w].Chosen? ==> st.phases[w].index < st.nextJob) &&
      (st.phases[w].Working? ==> st.phases[w].index < |st.ran|)
  }

  /** A job whose number was taken is being run by one worker, or was run once; one not yet taken, neither. */
  predicate Accounted(st: State, job: nat)
    requires job < |st.ran|
  {
    st.ran[job] + Sum(Holding(job), st.phases) == if job < st.nextJob then 1 else 0
  }

  /** Every number past the last job was taken by a worker that stops for it. */
  predicate Overshoot(st: State)
  {
    Sum(Past(|st.ran|), st.phases) == if st.nextJob > |st.ran| then st.nextJob - |st.ran| else 0
  }

  ghost predicate Inv(st: State)
  {
    Exclusive(st) && Overshoot(st) && forall job :: 0 <= job < |st.ran| ==> Accounted(st, job)
  }

  lemma {:induction false} StartHolds(workers: nat, jobs: nat)
    ensures Inv(Start(workers, jobs))
  {
    var st := Start(workers, jobs);
    SumUniform(Past(jobs), st.phases, 0);
    forall job | 0 <= job < jobs ensures Accounted(st, job) {
      SumUniform(Holding(job), st.phases, 0);
    }
  }

  lemma {:induction false} StepKeepsExclusive(st: State, w: nat)
    requires Exclusive(st)
    ensures Exclusive(Step(st, w))
  {
  }

  lemma {:induction false} StepKeepsOvershoot(st: State, w: nat)
    requires Exclusive(st) && Overshoot(st)
    ensures Overshoot(Step(st, w))
  {
    if Enabled(st, w) {
      SumUpdate(Past(|st.ran|), st.phases, w, Step(st, w).phases[w]);
    }
  }

  lemma {:induction false} StepKeepsAccounted(st: State, w: nat, job: nat)
    requires Exclusive(st) && job < |st.ran| && Accounted(st, job)
    ensures Accounted(Step(st, w), job)
  {
    if Enabled(st, w) {
      SumUpdate(Holding(job), st.phases, w, Step(st, w).phases[w]);
    }
  }

  lemma {:induction false} StepHolds(st: State, w: nat)
    requires Inv(st)
    ensures Inv(Step(st, w)) && |Step(st, w).phases| == |st.phases| && |Step(st, w).ran| == |st.ran|
  {
    StepKeepsExclusive(st, w);
    StepKeepsOvershoot(st, w);
    forall job | 0 <= job < |st.ran| ensures Accounted(Step(st, w), job) {
      StepKeepsAccounted(st, w, job);
    }
  }

  lemma {:induction false} RunHolds(st: State, schedule: seq<nat>)
    requires Inv(st)
    ensures Inv(Run(st, schedule)) && |Run(st, schedule).phases| == |st.phases| && |Run(st, schedule).ran| == |st.ran|
    decreases |schedule|
  {
    if |schedule| > 0 {
      StepHolds(st, schedule[0]);
      RunHolds(Step(st, schedule[0]), schedule[1..]);
    }
  }

  // ---------------------------------------------------------------------
  // Every schedule
  // ---------------------------------------------------------------------

  /** At no time do two workers hold the same job, nor is a job that was run held again. */
  lemma {:induction false} NoJobIsShared(workers: nat, jobs: nat, schedule: seq<nat>, v: nat, w: nat)
    requires v < workers && w < workers
    ensures var st := Run(Start(workers, jobs), schedule);
            |st.phases| == workers && |st.ran| == jobs &&
            (st.phases[w].Working? ==>
               st.phases[w].index < jobs && st.ran[st.phases[w].index] == 0 &&
               (v != w && st.phases[v].Working? ==> st.phases[v].index != st.phases[w].index))
  {
    StartHolds(workers, jobs);
    RunHolds(Start(workers, jobs), schedule);
    var st := Run(Start(workers, jobs), schedule);
    if st.phases[w].Working? {
      var job := st.phases[w].index;
      assert Accounted(st, job);
      SumAtLeast(Holding(job), st.phases, w);
      if v < w {
        SumOfTwo(Holding(job), st.phases, v, w);
      } else if w < v {
        SumOfTwo(Holding(job), st.phases, w, v);
      }
    }
  }

  /**
   However the workers interleave, when all have finished every job was run exactly
   once and the counter stands past the jobs by one number for each worker.
   */
  lemma {:induction false} EveryJobRunsOnce(workers: nat, jobs: nat, schedule: seq<nat>)
    requires workers > 0 && AllFinished(Run(Start(workers, jobs), schedule))
    ensures var st := Run(Start(workers, jobs), schedule);
            |st.ran| == jobs && (forall job :: 0 <= job < jobs ==> st.ran[job] == 1) && st.nextJob == jobs + workers
  {
    StartHolds(workers, jobs);
    RunHolds(Start(workers, jobs), schedule);
    var st := Run(Start(workers, jobs), schedule);
    SumUniform(Past(jobs), st.phases, 1);
    forall job | 0 <= job < jobs ensures st.ran[job] == 1 {
      assert Accounted(st, job);
      SumUniform(Holding(job), st.phases, 0);
    }
  }

  /** With no worker nothing runs: the round ends as it began. */
  lemma {:induction false} NoWorkerRunsNothing(jobs: nat, schedule: seq<nat>)
    ensures Run(Start(0, jobs), schedule) == Start(0, jobs)
    decreases |schedule|
  {
    if |schedule| > 0 {
      NoWorkerRunsNothing(jobs, schedule[1..]);
    }
  }

  /** No deadlock: as long as a worker is unfinished, one can move. */
  lemma {:induction false} SomeoneCanMove(st: State) returns (w: nat)
    requires Inv(st) && !AllFinished(st)
    ensures Enabled(st, w)
  {
    if st.lock.Some? {
      w := st.lock.value;
    } else {
      w :| 0 <= w < |st.phases| && st.phases[w] != Finished;
    }
  }

  /** The moves that are left: six for each number still to be taken, and what each worker is at. */
  function Remaining(st: State): int
  {
    6 * (|st.ran| + |st.phases| - st.nextJob) + Sum(Effort, st.phases)
  }

  lemma {:induction false} CounterIsBounded(st: State)
    requires Inv(st)
    ensures st.nextJob <= |st.ran| + |st.phases| && Remaining(st) >= 0
  {
    SumBound(Past(|st.ran|), st.phases);
  }

  lemma {:induction false} SumBound(kind: Kind, phases: seq<Phase>)
    requires kind.Past?
    ensures Sum(kind, phases) <= |phases|
  {
    if |phases| > 0 {
      SumBound(kind, Pop(phases));
    }
  }

  lemma {:induction false} EveryMoveCounts(st: State, w: nat)
    requires Inv(st) && Enabled(st, w)
    ensures Remaining(Step(st, w)) < Remaining(st)
  {
    SumUpdate(Effort, st.phases, w, Step(st, w).phases[w]);
  }

  /** How many entries of the schedule were real moves. */
  function Moves(st: State, schedule: seq<nat>): nat
    decreases |schedule|
  {
    if |schedule| == 0 then 0
    else (if Enabled(st, schedule[0]) then 1 else 0) + Moves(Step(st, schedule[0]), schedule[1..])
  }

  lemma {:induction false} MovesWithin(st: State, schedule: seq<nat>)
    requires Inv(st)
    ensures Moves(st, schedule) <= Remaining(st) - Remaining(Run(st, schedule))
    decreases |schedule|
  {
    if |schedule| > 0 {
      StepHolds(st, schedule[0]);
      if Enabled(st, schedule[0]) {
        EveryMoveCounts(st, schedule[0]);
      }
      MovesWithin(Step(st, schedule[0]), schedule[1..]);
    }
  }

  /** No schedule makes more than six moves a job and nine a worker, so the pool always comes to an end. */
  lemma {:induction false} EveryScheduleEnds(workers: nat, jobs: nat, schedule: seq<nat>)
    ensures Moves(Start(workers, jobs), schedule) <= 6 * jobs + 9 * workers
  {
    var st := Start(workers, jobs);
    StartHolds(workers, jobs);
    RunHolds(st, schedule);
    MovesWithin(st, schedule);
    CounterIsBounded(Run(st, schedule));
    SumUniform(Effort, st.phases, 3);
  }

  // ---------------------------------------------------------------------
  // The rounds
  // ---------------------------------------------------------------------

  /** What a job left behind in one round. */
  datatype Result = Result(ok: bool, checksum: nat)

  /** How many threads could be created, how they were scheduled, and what the jobs gave. */
  datatype Round = Round(created: nat, schedule: seq<nat>, results: seq<Result>)

  predicate Joined(round: Round, jobs: nat)
  {
    |round.results| == jobs && AllFinished(Run(Start(round.created, jobs), round.schedule))
  }

  predicate Agrees(round: Round, first: Round, workers: nat)
  {
    round.created == workers && |round.results| == |first.results| &&
    forall i :: 0 <= i < |round.results| ==> round.results[i].ok && round.results[i].checksum == first.results[i].checksum
  }

  class Benchmark {
    const workers: nat
    const jobCount: nat
    var pool: State
    var runs: seq<nat>
    var expected: seq<nat>

    constructor (workers: nat, jobCount: nat)
      ensures this.workers == workers && this.jobCount == jobCount
      ensures runs == NoneRun(jobCount) && expected == NoneRun(jobCount)
    {
      this.workers, this.jobCount := workers, jobCount;
      pool := Start(0, jobCount);
      runs, expected := NoneRun(jobCount), NoneRun(jobCount);
    }

    /** One step of a worker, on the shared fields. */
    method Turn(w: nat)
      modifies this`pool
      ensures pool == Step(old(pool), w)
    {
      var at := if w < |pool.phases| then pool.phases[w] else Finished;
      match at {
        case Waiting =>
          if pool.lock == None {
            pool := Moved(pool, w, Locked).(lock := Some(w));
          }
        case Locked =>
          pool := Moved(pool, w, Fetched(pool.nextJob));
        case Fetched(index) =>
          pool := Moved(pool, w, Stored(index)).(nextJob := index + 1);
        case Stored(index) =>
          pool := Moved(pool, w, Chosen(index)).(lock := None);
        case Chosen(index) =>
          pool := Moved(pool, w, if index >= |pool.ran| then Finished else Working(index));
        case Working(index) =>
          if index < |pool.ran| {
            pool := pool.(ran := pool.ran[index := pool.ran[index] + 1]);
          }
          pool := Moved(pool, w, Waiting);
        case Finished =>
      }
    }

    /** The threads of one round, from their creation until all are joined. */
    method RunRound(round: Round)
      requires Joined(round, jobCount) && |runs| == jobCount
      modifies this`pool, this`runs
      ensures |runs| == jobCount
      ensures forall i :: 0 <= i < jobCount ==> runs[i] == old(runs[i]) + if round.created > 0 then 1 else 0
      ensures round.created > 0 ==> pool.nextJob == jobCount + round.created
    {
      pool := Start(round.created, jobCount);
      var k := 0;
      assert round.schedule[0..] == round.schedule;
      while k < |round.schedule|
        invariant 0 <= k <= |round.schedule| && runs == old(runs)
        invariant Run(pool, round.schedule[k..]) == Run(Start(round.created, jobCount), round.schedule)
      {
        assert round.schedule[k..][1..] == round.schedule[k + 1..];
        Turn(round.schedule[k]);
        k := k + 1;
      }
      if round.created > 0 {
        EveryJobRunsOnce(round.created, jobCount, round.schedule);
      } else {
        NoWorkerRunsNothing(jobCount, round.schedule);
      }
      runs := Added(runs, pool.ran);
    }

    /** The results against those of the round before, kept for the next. */
    method Compare(round: Round, cold: bool) returns (ok: bool)
      requires |round.results| == jobCount == |expected|
      modifies this`expected
      ensures |expected| == jobCount
      ensures ok <==> forall i :: 0 <= i < jobCount ==>
                        round.results[i].ok && (cold || round.results[i].checksum == old(expected[i]))
      ensures ok ==> forall i :: 0 <= i < jobCount ==> expected[i] == round.results[i].checksum
    {
      var i := 0;
      while i < jobCount
        invariant 0 <= i <= jobCount == |expected|
        invariant forall k :: 0 <= k < i ==> round.results[k].ok && (cold || round.results[k].checksum == old(expected[k]))
        invariant forall k :: 0 <= k < i ==> expected[k] == round.results[k].checksum
        invariant forall k :: i <= k < jobCount ==> expected[k] == old(expected[k])
      {
        if !round.results[i].ok || (!cold && expected[i] != round.results[i].checksum) {
          return false;
        }
        expected := expected[i := round.results[i].checksum];
        i := i + 1;
      }
      ok := true;
    }

    /**
     The exit code is 0 exactly when every round had all its threads and gave the
     checksums of the first, though each round is only compared with the one before;
     then every job was run once a round.
     */
    method Rounds(rounds: seq<Round>) returns (code: nat)
      requires workers > 0 && |rounds| > 0 && forall r :: 0 <= r < |rounds| ==> Joined(rounds[r], jobCount)
      requires runs == NoneRun(jobCount) && |expected| == jobCount
      modifies this
      ensures code == 0 <==> forall r :: 0 <= r < |rounds| ==> Agrees(rounds[r], rounds[0], workers)
      ensures code == 0 ==> |runs| == jobCount && forall i :: 0 <= i < jobCount ==> runs[i] == |rounds|
      ensures code == 0 || code == 4 || code == 5
      ensures code == 4 ==> exists r :: 0 <= r < |rounds| && rounds[r].created != workers &&
                              forall k :: 0 <= k < r ==> Agrees(rounds[k], rounds[0], workers)
      ensures code == 5 ==> exists r :: 0 <= r < |rounds| && rounds[r].created == workers &&
                              !Agrees(rounds[r], rounds[0], workers) &&
                              forall k :: 0 <= k < r ==> Agrees(rounds[k], rounds[0], workers)
    {
      var r := 0;
      while r < |rounds|
        invariant 0 <= r <= |rounds| && |runs| == jobCount == |expected|
        invariant forall i :: 0 <= i < jobCount ==> runs[i] == r
        invariant forall k :: 0 <= k < r ==> Agrees(rounds[k], rounds[0], workers)
        invariant r > 0 ==> forall i :: 0 <= i < jobCount ==> expected[i] == rounds[0].results[i].checksum
      {
        RunRound(rounds[r]);
        if rounds[r].created != workers {
          assert !Agrees(rounds[r], rounds[0], workers);
          return 4;
        }
        var ok := Compare(rounds[r], r == 0);
        if !ok {
          assert !Agrees(rounds[r], rounds[0], workers);
          return 5;
        }
        r := r + 1;
      }
      code := 0;
    }
  }

  function Added(a: seq<nat>, b: seq<nat>): (r: seq<nat>)
    ensures |r| == |a|
    ensures forall i :: 0 <= i < |a| ==> r[i] == a[i] + if i < |b| then b[i] else 0
  {
    seq(|a|, i requires 0 <= i < |a| => a[i] + if i < |b| then b[i] else 0)
  }
}
