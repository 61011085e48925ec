// The two channels and the worker pool: no job is lost or repeated, draining
// ends, and the exact number of unfinished jobs at which a send blocks for ever.
module RepoQueues {
  import opened Common
  import opened RepoModel
  import opened RepoHandles
  import opened RepoInvariant

  // ---- Conservation ----

  function IsJob(x: Job, j: Job): nat { One(x == j) }

  function DoneIs(d: Done, j: Job): nat { One(d.job == j) }

  function ReportIs(slot: Slot, j: Job): nat { One(slot.Reporting? && slot.done.job == j) }

  function SlotIs(slot: Slot, j: Job): nat { One(slot.Holding? && slot.job == j) + ReportIs(slot, j) }

  function LogIs(p: Processed, j: Job): nat { One(p.job == j) }

  // Submitted jobs are pending, held, completed or finished; processed jobs are
  // being reported, completed or finished. As multisets, job by job.
  predicate Conserved(s: State, j: Job) {
    && Count(IsJob, j, s.submitted)
       == Count(IsJob, j, s.pending) + Count(SlotIs, j, s.workers) + Count(DoneIs, j, s.completed)
          + Count(DoneIs, j, s.finished)
    && Count(LogIs, j, s.log)
       == Count(ReportIs, j, s.workers) + Count(DoneIs, j, s.completed) + Count(DoneIs, j, s.finished)
  }

  ghost predicate AllConserved(s: State) {
    forall j: Job :: Conserved(s, j)
  }

  lemma ConservedMain(s: State, l: Label, j: Job)
    requires Conserved(s, j) && !WorkerLabel(l) && Do(s, l).Next?
    ensures Conserved(Do(s, l).state, j)
  {
    MainKept(s, l);
    var s' := Do(s, l).state;
    if s'.pending != s.pending {
      CountSnoc(IsJob, j, s.pending, s'.submitted[|s.submitted|]);
      CountSnoc(IsJob, j, s.submitted, s'.submitted[|s.submitted|]);
    }
    if s'.completed != s.completed {
      CountSnoc(DoneIs, j, s.finished, s.completed[0]);
    }
  }

  lemma ConservedWorker(s: State, s': State, l: Label, j: Job)
    requires Conserved(s, j) && WorkerMove(s, s', l) && WorkerFrame(s, s')
    ensures Conserved(s', j)
  {
    CountUpdate(SlotIs, j, s.workers, l.w, s'.workers[l.w]);
    CountUpdate(ReportIs, j, s.workers, l.w, s'.workers[l.w]);
    match l {
      case Take(w) =>
      case Process(w, ok) => CountSnoc(LogIs, j, s.log, s'.log[|s.log|]);
      case Report(w) => CountSnoc(DoneIs, j, s.completed, s.workers[w].done);
    }
  }

  lemma {:induction false} ConservedOverRuns(s: State, labels: seq<Label>)
    requires AllConserved(s) && Run(s, labels).Next?
    ensures AllConserved(Run(s, labels).state)
  {
    if labels != [] {
      var n := |labels| - 1;
      ConservedOverRuns(s, labels[..n]);
      var s0 := Run(s, labels[..n]).state;
      forall j: Job ensures Conserved(Run(s, labels).state, j) {
        assert Conserved(s0, j);
        if WorkerLabel(labels[n]) {
          WorkerStep(s0, labels[n]);
          ConservedWorker(s0, Run(s, labels).state, labels[n], j);
        } else {
          ConservedMain(s0, labels[n], j);
        }
      }
    }
  }

  // Jobs have distinct identities, so each is submitted at most once.
  lemma {:induction false} SubmittedOnce(q: seq<Job>, base: nat, j: Job)
    requires forall i :: 0 <= i < |q| ==> q[i].id == base + i
    ensures Count(IsJob, j, q) <= 1
    ensures Count(IsJob, j, q) == 1 ==> base <= j.id
  {
    if q != [] {
      SubmittedOnce(q[1..], base + 1, j);
    }
  }

  // Over every run from the start each job is processed at most once and
  // finished at most once, and only if it was submitted.
  lemma EachJobOnce(cfg: Config, items: seq<Resource>, storage: map<string, nat>, labels: seq<Label>, j: Job)
    requires cfg.workers <= 255 && Run(Init(cfg, items, storage), labels).Next?
    ensures var s := Run(Init(cfg, items, storage), labels).state;
            && Conserved(s, j)
            && Count(DoneIs, j, s.finished) <= Count(LogIs, j, s.log) <= Count(IsJob, j, s.submitted) <= 1
  {
    var s0 := Init(cfg, items, storage);
    var s := Run(s0, labels).state;
    forall j: Job ensures Conserved(s0, j) {
      CountZero(SlotIs, j, s0.workers);
      CountZero(ReportIs, j, s0.workers);
    }
    ConservedOverRuns(s0, labels);
    InitRunsAreSafe(cfg, items, storage, labels);
    SubmittedOnce(s.submitted, 0, j);
    assert Conserved(s, j);
    ReportsAreHeld(s.workers, j);
  }

  lemma ReachedOnce(s: State, j: Job)
    requires Reached(s)
    ensures Conserved(s, j)
    ensures Count(DoneIs, j, s.finished) <= Count(LogIs, j, s.log) <= Count(IsJob, j, s.submitted) <= 1
  {
    var cfg: Config, items: seq<Resource>, storage: map<string, nat>, labels: seq<Label>
      :| cfg.workers <= 255 && Run(Init(cfg, items, storage), labels) == Next(s);
    EachJobOnce(cfg, items, storage, labels, j);
  }

  lemma {:induction false} ReportsAreHeld(workers: seq<Slot>, j: Job)
    ensures Count(ReportIs, j, workers) <= Count(SlotIs, j, workers)
  {
    if workers != [] {
      ReportsAreHeld(workers[1..], j);
    }
  }

  // ---- Unfinished jobs and the work left on them ----

  function SlotBusy(slot: Slot, u: ()): nat { if slot.Idle? then 0 else 1 }

  function SlotWork(slot: Slot, u: ()): nat {
    match slot
    case Idle => 0
    case Holding(_) => 3
    case Reporting(_) => 2
  }

  function Unfinished(s: State): nat {
    |s.pending| + Count(SlotBusy, (), s.workers) + |s.completed|
  }

  function Work(s: State): nat {
    4 * |s.pending| + Count(SlotWork, (), s.workers) + |s.completed|
  }

  // Every worker step leaves the number of unfinished jobs and uses up work.
  lemma WorkerStepWork(s: State, l: Label)
    requires WorkerLabel(l) && Do(s, l).Next?
    ensures Unfinished(Do(s, l).state) == Unfinished(s)
    ensures Work(Do(s, l).state) == Work(s) - 1
  {
    WorkerStep(s, l);
    MoveWork(s, Do(s, l).state, l);
  }

  lemma MoveWork(s: State, s': State, l: Label)
    requires WorkerMove(s, s', l)
    ensures Unfinished(s') == Unfinished(s) && Work(s') == Work(s) - 1
  {
    CountUpdate(SlotBusy, (), s.workers, l.w, s'.workers[l.w]);
    CountUpdate(SlotWork, (), s.workers, l.w, s'.workers[l.w]);
  }

  lemma FinishWork(s: State)
    requires DrainOne(s).Next?
    ensures Unfinished(DrainOne(s).state) == Unfinished(s) - 1
    ensures Work(DrainOne(s).state) == Work(s) - 1
  {
  }

  predicate DrainLabel(l: Label) {
    WorkerLabel(l) || l.FinishOne?
  }

  // The drain loop of Refresh ends under every interleaving with the workers:
  // a run of drain steps is never longer than the work left.
  lemma {:induction false} DrainTerminates(s: State, labels: seq<Label>)
    requires forall i :: 0 <= i < |labels| ==> DrainLabel(labels[i])
    requires Run(s, labels).Next?
    ensures Work(Run(s, labels).state) == Work(s) - |labels|
    ensures Unfinished(Run(s, labels).state) <= Unfinished(s)
  {
    if labels != [] {
      var n := |labels| - 1;
      DrainTerminates(s, labels[..n]);
      var s0 := Run(s, labels[..n]).state;
      if WorkerLabel(labels[n]) { WorkerStepWork(s0, labels[n]); } else { FinishWork(s0); }
    }
  }

  lemma {:induction false} SlotBounds(workers: seq<Slot>)
    ensures Count(SlotBusy, (), workers) <= |workers|
    ensures Count(SlotBusy, (), workers) == |workers| <==> forall w :: 0 <= w < |workers| ==> !workers[w].Idle?
    ensures Count(SlotWork, (), workers) <= 3 * Count(SlotBusy, (), workers)
  {
    if workers != [] {
      SlotBounds(workers[1..]);
      assert forall w :: 0 <= w < |workers| - 1 ==> workers[1..][w] == workers[w + 1];
      if forall w :: 0 <= w < |workers| - 1 ==> !workers[1..][w].Idle? {
        assert forall w :: 1 <= w < |workers| ==> workers[w] == workers[1..][w - 1];
      }
    }
  }

  lemma WorkBound(s: State)
    ensures Unfinished(s) <= |s.pending| + |s.workers| + |s.completed|
    ensures Work(s) <= 4 * Unfinished(s)
  {
    SlotBounds(s.workers);
  }

  // ---- The exact bound ----

  // No worker can take a step.
  ghost predicate WorkersStuck(s: State) {
    forall l: Label :: WorkerLabel(l) ==> !Do(s, l).Next?
  }

  predicate Settled(s: State) {
    && (forall w :: 0 <= w < |s.workers| ==> !s.workers[w].Holding?)
    && (|s.completed| < CAPACITY ==> forall w :: 0 <= w < |s.workers| ==> !s.workers[w].Reporting?)
    && (s.pending != [] ==> forall w :: 0 <= w < |s.workers| ==> !s.workers[w].Idle?)
  }

  lemma StuckExactly(s: State)
    requires Inv(s)
    ensures WorkersStuck(s) <==> Settled(s)
  {
    forall w: nat | w < |s.workers| ensures s.workers[w].Holding? ==> Do(s, Process(w, false)).Next? {
      NoBadHandle(s, Process(w, false));
    }
    if WorkersStuck(s) {
      forall w: nat | w < |s.workers|
        ensures !s.workers[w].Holding?
        ensures s.workers[w].Reporting? ==> |s.completed| >= CAPACITY
        ensures s.workers[w].Idle? ==> s.pending == []
      {
        assert !Do(s, Process(w, false)).Next? && !Do(s, Report(w)).Next? && !Do(s, Take(w)).Next?;
      }
    }
  }

  // The channels and the workers together hold at most 200 + W jobs.
  function Bound(s: State): nat { 2 * CAPACITY + |s.workers| }

  lemma StartBound(cfg: Config, items: seq<Resource>, storage: map<string, nat>)
    ensures Bound(Init(cfg, items, storage)) == 200 + (if cfg.workers == 0 then 3 else cfg.workers)
  {
  }

  lemma {:induction false} WorkerRun(s: State, labels: seq<Label>)
    requires forall i :: 0 <= i < |labels| ==> WorkerLabel(labels[i])
    requires Run(s, labels).Next?
    ensures var s' := Run(s, labels).state;
            && Unfinished(s') == Unfinished(s) && |s'.workers| == |s.workers| && Work(s') == Work(s) - |labels|
            && WorkerFrame(s, s')
  {
    if labels != [] {
      var n := |labels| - 1;
      WorkerRun(s, labels[..n]);
      WorkerStepWork(Run(s, labels[..n]).state, labels[n]);
      WorkerStep(Run(s, labels[..n]).state, labels[n]);
    }
  }

  lemma SettledRoom(s: State)
    requires Inv(s) && Settled(s)
    ensures |s.pending| < CAPACITY <==> Unfinished(s) < Bound(s)
  {
    SlotBounds(s.workers);
    if |s.pending| == CAPACITY {
      assert !s.workers[0].Idle? && !s.workers[0].Holding?;
    }
  }

  // However the workers run until they can run no more, there is room for the
  // main loop's next send exactly when fewer than 200 + W jobs were unfinished.
  lemma SendAcceptedExactly(s: State, labels: seq<Label>)
    requires Inv(s)
    requires forall i :: 0 <= i < |labels| ==> WorkerLabel(labels[i])
    requires Run(s, labels).Next? && WorkersStuck(Run(s, labels).state)
    ensures |Run(s, labels).state.pending| < CAPACITY <==> Unfinished(s) < Bound(s)
  {
    RunsAreSafe(s, labels);
    WorkerRun(s, labels);
    StuckExactly(Run(s, labels).state);
    SettledRoom(Run(s, labels).state);
  }

  // At 200 + W unfinished jobs the channel stays full whatever the workers do.
  lemma BlockedForEver(s: State, labels: seq<Label>, job: Job)
    requires Inv(s) && Unfinished(s) == Bound(s)
    requires forall i :: 0 <= i < |labels| ==> WorkerLabel(labels[i])
    requires Run(s, labels).Next?
    ensures Send(Run(s, labels).state, job).Blocked?
  {
    RunsAreSafe(s, labels);
    WorkerRun(s, labels);
    WorkBound(Run(s, labels).state);
  }

  // The workers can always be run until they can run no more.
  lemma {:induction false} WorkersSettle(s: State) returns (labels: seq<Label>)
    requires Inv(s)
    ensures forall i :: 0 <= i < |labels| ==> WorkerLabel(labels[i])
    ensures Run(s, labels).Next? && WorkersStuck(Run(s, labels).state)
    decreases Work(s)
  {
    if WorkersStuck(s) {
      labels := [];
    } else {
      var l: Label :| WorkerLabel(l) && Do(s, l).Next?;
      WorkerStepWork(s, l);
      StepKeepsInv(s, l);
      var rest := WorkersSettle(Do(s, l).state);
      labels := [l] + rest;
      RunThen(s, l, rest);
    }
  }
}
