// One worker: jobs run in the order of submission, so the storage follows the
// files even when several jobs for one volume are outstanding. With two workers
// resizes can overtake each other.
module RepoSteady {
  import opened Common
  import opened RepoModel
  import opened RepoHandles
  import opened RepoInvariant
  import opened RepoQueues
  import opened RepoReconcile
  import opened RepoSequential
  import opened RepoDenotes
  import O = RepoOutstanding
  import F = RepoFollow

  // ---- What the outstanding jobs lead to ----

  function PlanJobs(storage: map<string, nat>, volName: map<nat, string>, jobs: seq<Job>): map<string, nat> {
    if jobs == [] then storage
    else
      var n := |jobs| - 1;
      Apply(PlanJobs(storage, volName, jobs[..n]), Processed(jobs[n], TargetOf(volName, jobs[n]), true))
  }

  function Outstanding(s: State): seq<Job>
    requires |s.workers| == 1
  {
    HeldJob(s.workers[0]) + s.pending
  }

  function Planned(s: State): map<string, nat>
    requires |s.workers| == 1
  {
    PlanJobs(s.storage, s.volName, Outstanding(s))
  }

  lemma PlanSnoc(storage: map<string, nat>, volName: map<nat, string>, jobs: seq<Job>, job: Job)
    ensures PlanJobs(storage, volName, jobs + [job])
         == Apply(PlanJobs(storage, volName, jobs), Processed(job, TargetOf(volName, job), true))
  {
    assert (jobs + [job])[..|jobs|] == jobs;
  }

  // Running the first job early changes nothing.
  lemma {:induction false} PlanFront(storage: map<string, nat>, volName: map<nat, string>, job: Job, jobs: seq<Job>)
    ensures PlanJobs(storage, volName, [job] + jobs)
         == PlanJobs(Apply(storage, Processed(job, TargetOf(volName, job), true)), volName, jobs)
  {
    if jobs == [] {
      assert [job] + jobs == [] + [job];
      PlanSnoc(storage, volName, [], job);
    } else {
      var n := |jobs| - 1;
      PlanFront(storage, volName, job, jobs[..n]);
      assert [job] + jobs == ([job] + jobs[..n]) + [jobs[n]];
      PlanSnoc(storage, volName, [job] + jobs[..n], jobs[n]);
    }
  }

  // Only the names of the handles in the jobs matter.
  lemma {:induction false} PlanNames(storage: map<string, nat>, a: map<nat, string>, b: map<nat, string>,
      jobs: seq<Job>)
    requires forall i :: 0 <= i < |jobs| ==> TargetOf(a, jobs[i]) == TargetOf(b, jobs[i])
    ensures PlanJobs(storage, a, jobs) == PlanJobs(storage, b, jobs)
  {
    if jobs != [] {
      PlanNames(storage, a, b, jobs[..|jobs| - 1]);
    }
  }

  // The name is planned exactly if the file is known.
  predicate Placed(s: State, n: string)
    requires |s.workers| == 1
  {
    n in Planned(s) <==> n in s.files
  }

  // And with the capacity that the file wants.
  predicate Agrees(s: State, n: string)
    requires |s.workers| == 1
  {
    && Placed(s, n)
    && (n in s.files ==> s.files[n].resource.Some? && Planned(s)[n] == s.files[n].resource.value.capacity)
  }

  predicate Steady(s: State) {
    |s.workers| == 1 && Index(s) && AllKnown(s) && Denotes(s)
  }

  // Every state that a run comes to with one worker, as long as all resources
  // are known.
  lemma ReachedSteady(s: State)
    requires Reached(s) && AllKnown(s) && |s.workers| == 1
    ensures Steady(s)
  {
    ReachedInv(s);
    ReachedDenotes(s);
  }

  lemma SteadyStep(s: State, l: Label)
    requires Steady(s) && F.SteadyLabel(l) && Do(s, l).Next?
    ensures Steady(Do(s, l).state)
  {
    DenotesStep(s, l);
    KnownStep(s, l);
    if WorkerLabel(l) {
      WorkerStep(s, l);
      WorkerFrameKeeps(s, Do(s, l).state);
    } else {
      MainKept(s, l);
    }
  }

  // ---- What each step does to the plan ----

  // A send extends the plan by its job, other steps of the main loop leave it.
  predicate PlanGrows(s: State, s': State)
    requires |s.workers| == 1
  {
    && |s'.workers| == 1 && |s.submitted| <= |s'.submitted| <= |s.submitted| + 1
    && if |s'.submitted| == |s.submitted| then Planned(s') == Planned(s)
       else
         var job := s'.submitted[|s.submitted|];
         Planned(s') == Apply(Planned(s), Processed(job, TargetOf(s.volName, job), true))
  }

  lemma PlanFrame(s: State, s': State)
    requires |s.workers| == 1 && MainFrame(s, s') && s'.volName == s.volName
    ensures PlanGrows(s, s')
  {
    if |s'.submitted| == |s.submitted| + 1 {
      var job := s'.submitted[|s.submitted|];
      assert Outstanding(s') == Outstanding(s) + [job];
      PlanSnoc(s.storage, s.volName, Outstanding(s), job);
    }
  }

  lemma PlanMain(s: State, l: Label)
    requires |s.workers| == 1 && !WorkerLabel(l) && !l.PoolReady? && Do(s, l).Next?
    ensures PlanGrows(s, Do(s, l).state)
  {
    MainKept(s, l);
    MainNames(s, l);
    PlanFrame(s, Do(s, l).state);
  }

  // The worker carries the plan out.
  lemma PlanWorker(s: State, l: Label)
    requires Steady(s) && WorkerLabel(l) && F.SteadyLabel(l) && Do(s, l).Next?
    ensures |Do(s, l).state.workers| == 1 && Planned(Do(s, l).state) == Planned(s)
  {
    WorkerStep(s, l);
    var s' := Do(s, l).state;
    match l {
      case Take(_) =>
        assert Outstanding(s') == Outstanding(s) by { assert s.pending == [s.pending[0]] + s.pending[1..]; }
        TakeStores(s, l.w);
      case Process(w, ok) =>
        PlanProcess(s, w);
      case Report(_) =>
        assert Outstanding(s') == Outstanding(s);
        ReportStores(s, l.w);
    }
  }

  lemma TakeStores(s: State, w: nat)
    requires TakeJob(s, w).Next?
    ensures TakeJob(s, w).state.storage == s.storage && TakeJob(s, w).state.volName == s.volName
  {
  }

  lemma ReportStores(s: State, w: nat)
    requires ReportJob(s, w).Next?
    ensures ReportJob(s, w).state.storage == s.storage && ReportJob(s, w).state.volName == s.volName
  {
  }

  lemma PlanProcess(s: State, w: nat)
    requires Steady(s) && ProcessJob(s, w, true).Next?
    ensures var s' := ProcessJob(s, w, true).state; |s'.workers| == 1 && Planned(s') == Planned(s)
  {
    var s' := ProcessJob(s, w, true).state;
    ProcessStep(s, w, true);
    ProcessLogs(s, w, true);
    ProcessNames(s, w, true);
    assert s'.log[|s.log|] == Processed(s.workers[0].job, TargetOf(s.volName, s.workers[0].job), true);
    assert Outstanding(s) == [s.workers[0].job] + s.pending && Outstanding(s') == s.pending by {
      assert [] + s.pending == s.pending;
    }
    PlanFront(s.storage, s.volName, s.workers[0].job, s.pending);
    PlanNames(s'.storage, s.volName, s'.volName, s.pending);
  }

  // ---- Agreement, once reached, is kept ----

  predicate KeepsAt(s: State, s': State, n: string)
    requires |s.workers| == 1 && |s'.workers| == 1
  {
    (Placed(s, n) ==> Placed(s', n)) && (Agrees(s, n) ==> Agrees(s', n))
  }

  lemma AddAgrees(s: State, file: Resource, update: Option<string>, n: string)
    requires Steady(s) && AddFile(s, file, update).Next?
    ensures |AddFile(s, file, update).state.workers| == 1 && KeepsAt(s, AddFile(s, file, update).state, n)
  {
    PlanMain(s, Added(file, update));
  }

  lemma ModifyAgrees(s: State, file: Resource, n: string)
    requires Steady(s) && ModifyFile(s, file).Next?
    ensures |ModifyFile(s, file).state.workers| == 1 && KeepsAt(s, ModifyFile(s, file).state, n)
  {
    PlanMain(s, Modified(file));
    if O.Queues(s, Modified(file)) && VolKey(s.cfg, file.name) == n {
      ResizeAgrees(s, file, n);
    } else {
      F.ModifyWant(s, file, n);
      O.ModifyQueues(s, file);
      KeepsApart(s, ModifyFile(s, file).state, n);
    }
  }

  lemma ResizeAgrees(s: State, file: Resource, n: string)
    requires Steady(s) && ModifyFile(s, file).Next? && O.Queues(s, Modified(file)) && VolKey(s.cfg, file.name) == n
    requires PlanGrows(s, ModifyFile(s, file).state)
    ensures KeepsAt(s, ModifyFile(s, file).state, n)
  {
  }

  // A step that changes neither the plan for a file nor what the file wants.
  lemma KeepsApart(s: State, s': State, n: string)
    requires |s.workers| == 1 && PlanGrows(s, s') && F.SameWant(s, s', n)
    requires |s'.submitted| == |s.submitted| + 1 ==> TargetOf(s.volName, s'.submitted[|s.submitted|]) != n
    ensures KeepsAt(s, s', n)
  {
  }

  lemma DeleteAgrees(s: State, file: Resource, n: string)
    requires Steady(s) && DeleteFile(s, file).Next? && F.Tidy(s, Deleted(file))
    ensures |DeleteFile(s, file).state.workers| == 1 && KeepsAt(s, DeleteFile(s, file).state, n)
  {
    PlanMain(s, Deleted(file));
  }

  // Same keys, same capacities, same plan.
  lemma SameAgrees(s: State, s': State, n: string)
    requires |s.workers| == 1 && |s'.workers| == 1 && Planned(s') == Planned(s) && SameCapacities(s, s')
    ensures KeepsAt(s, s', n)
  {
  }

  lemma SizeAgrees(s: State, name: string, infoOk: bool, update: Option<string>, n: string)
    requires Steady(s) && SizeOne(s, name, infoOk, update).Next? && update.Some?
    ensures |SizeOne(s, name, infoOk, update).state.workers| == 1
            && KeepsAt(s, SizeOne(s, name, infoOk, update).state, n)
  {
    PlanMain(s, Size(name, infoOk, update));
    SizeCapacities(s, name, infoOk, update);
    SizeFrame(s, name, infoOk, update);
    SameAgrees(s, SizeOne(s, name, infoOk, update).state, n);
  }

  lemma FinishAgrees(s: State, n: string)
    requires Steady(s) && DrainOne(s).Next?
    ensures |DrainOne(s).state.workers| == 1 && KeepsAt(s, DrainOne(s).state, n)
  {
    DrainFrame(s);
    PlanMain(s, FinishOne);
    DrainCapacities(s);
    SameAgrees(s, DrainOne(s).state, n);
  }

  lemma TurnAgrees(s: State, l: Label, n: string)
    requires Steady(s) && Turn(l) && Do(s, l).Next?
    ensures |Do(s, l).state.workers| == 1 && KeepsAt(s, Do(s, l).state, n)
  {
    TurnStep(s, l, s.nextVol);
    SameAgrees(s, Do(s, l).state, n);
  }

  lemma WorkerAgrees(s: State, l: Label, n: string)
    requires Steady(s) && WorkerLabel(l) && F.SteadyLabel(l) && Do(s, l).Next?
    ensures |Do(s, l).state.workers| == 1 && KeepsAt(s, Do(s, l).state, n)
  {
    PlanWorker(s, l);
    WorkerStep(s, l);
    SameAgrees(s, Do(s, l).state, n);
  }

  lemma AgreesStep(s: State, l: Label, n: string)
    requires Steady(s) && F.SteadyLabel(l) && F.Tidy(s, l) && Do(s, l).Next?
    ensures |Do(s, l).state.workers| == 1 && KeepsAt(s, Do(s, l).state, n)
  {
    match l {
      case Added(file, update) => AddAgrees(s, file, update, n);
      case Modified(file) => ModifyAgrees(s, file, n);
      case Deleted(file) => DeleteAgrees(s, file, n);
      case Size(name, infoOk, update) => SizeAgrees(s, name, infoOk, update, n);
      case FinishOne => FinishAgrees(s, n);
      case _ =>
        if WorkerLabel(l) { WorkerAgrees(s, l, n); } else { TurnAgrees(s, l, n); }
    }
  }

  // ---- Whole runs ----

  lemma {:induction false} SteadyOverRuns(s: State, labels: seq<Label>, n: string)
    requires Steady(s) && F.AllTidy(s, labels) && Run(s, labels).Next?
    requires forall i :: 0 <= i < |labels| ==> F.SteadyLabel(labels[i])
    ensures Steady(Run(s, labels).state) && KeepsAt(s, Run(s, labels).state, n)
  {
    if labels != [] {
      var k := |labels| - 1;
      F.TidyPrefix(s, labels);
      SteadyOverRuns(s, labels[..k], n);
      SteadyStep(Run(s, labels[..k]).state, labels[k]);
      AgreesStep(Run(s, labels[..k]).state, labels[k], n);
    }
  }

  // What is due in whatever order is what the plan leads to.
  lemma {:induction false} PlanAt(storage: map<string, nat>, volName: map<nat, string>, jobs: seq<Job>, n: string,
      v: Option<nat>)
    requires forall i :: 0 <= i < |jobs| && TargetOf(volName, jobs[i]) == n ==> O.Effect(jobs[i]) == v
    requires (forall i :: 0 <= i < |jobs| ==> TargetOf(volName, jobs[i]) != n) ==> Lookup(storage, n) == v
    ensures Lookup(PlanJobs(storage, volName, jobs), n) == v
  {
    if jobs != [] {
      var k := |jobs| - 1;
      var before := PlanJobs(storage, volName, jobs[..k]);
      if TargetOf(volName, jobs[k]) != n {
        PlanAt(storage, volName, jobs[..k], n, v);
        ApplyElsewhere(before, Processed(jobs[k], TargetOf(volName, jobs[k]), true), n);
      }
    }
  }

  lemma ApplyElsewhere(storage: map<string, nat>, p: Processed, n: string)
    requires p.name != n
    ensures Lookup(Apply(storage, p), n) == Lookup(storage, n)
  {
  }

  lemma OutstandingOut(s: State, i: nat)
    requires |s.workers| == 1 && i < |Outstanding(s)|
    ensures O.Out(s, Outstanding(s)[i])
  {
    var held := HeldJob(s.workers[0]);
    if i < |held| {
      assert s.workers[0] == Holding(Outstanding(s)[i]);
    } else {
      assert Outstanding(s)[i] == s.pending[i - |held|];
    }
  }

  lemma OutOutstanding(s: State, j: Job)
    requires |s.workers| == 1 && O.Out(s, j)
    ensures j in Outstanding(s)
  {
  }

  lemma DuePlanned(s: State, n: string, v: Option<nat>)
    requires |s.workers| == 1 && O.Due(s, n, v)
    ensures Lookup(Planned(s), n) == v
  {
    var jobs := Outstanding(s);
    forall i | 0 <= i < |jobs| ensures O.Out(s, jobs[i]) && O.Target(s, jobs[i]) == TargetOf(s.volName, jobs[i]) {
      OutstandingOut(s, i);
    }
    if O.Busy(s, n) {
      var j :| O.Out(s, j) && O.Target(s, j) == n;
      OutOutstanding(s, j);
      var i :| 0 <= i < |jobs| && jobs[i] == j;
    }
    PlanAt(s.storage, s.volName, jobs, n, v);
  }

  lemma IdlePlan(s: State)
    requires |s.workers| == 1 && F.Idle(s)
    ensures Planned(s) == s.storage
  {
    assert Outstanding(s) == [];
  }

  // With one worker, from any state that a run comes to: however files are added,
  // resized and deleted (once their volumes are there), as soon as no job is
  // outstanding a volume is there exactly if its file is known, and of the
  // capacity that the file wants, for each name for which the outstanding jobs
  // led there at first. No job needs to wait for another.
  lemma OneWorkerFollowsTheFiles(s: State, labels: seq<Label>, n: string)
    requires Reached(s) && AllKnown(s) && |s.workers| == 1 && Placed(s, n)
    requires F.AllTidy(s, labels) && Run(s, labels).Next?
    requires forall i :: 0 <= i < |labels| ==> F.SteadyLabel(labels[i])
    ensures F.Idle(Run(s, labels).state) ==> F.Shows(Run(s, labels).state, n, Agrees(s, n))
  {
    ReachedSteady(s);
    SteadyOverRuns(s, labels, n);
    if F.Idle(Run(s, labels).state) { IdlePlan(Run(s, labels).state); }
  }

  // In particular from the end of loading on.
  lemma OneWorkerReconcilesThenFollows(s: State, listing: Listing, batch: seq<Label>, labels: seq<Label>, n: string)
    requires Reached(s) && |s.workers| == 1 && Batch(s, listing, batch) && !Loading(BatchState(s, listing, batch).ctl)
    requires forall i :: 0 <= i < |labels| ==> F.SteadyLabel(labels[i])
    requires var s1 := BatchState(s, listing, batch); F.AllTidy(s1, labels) && Run(s1, labels).Next?
    ensures var s' := Run(BatchState(s, listing, batch), labels).state;
            var sameCapacity := n !in s.storage || n !in s.files || s.storage[n] == s.files[n].resource.value.capacity;
            F.Idle(s') ==> F.Shows(s', n, sameCapacity)
  {
    var s1 := BatchState(s, listing, batch);
    F.BatchAgrees(s, listing, batch, n);
    BatchUnder(s, listing, batch);
    AgreesFrom(s1, n);
    OneWorkerFollowsTheFiles(s1, labels, n);
  }

  lemma AgreesFrom(s: State, n: string)
    requires |s.workers| == 1 && F.Placed(s, n)
    ensures Placed(s, n) && (F.Agrees(s, n) ==> Agrees(s, n))
  {
    var v :| O.Due(s, n, v) && (v.Some? <==> n in s.files);
    DuePlanned(s, n, v);
    if F.Agrees(s, n) { DuePlanned(s, n, F.Want(s, n)); }
  }

  // ---- Two workers ----

  // Two resizes of one volume, held by two workers.
  predicate TwoHeld(s: State, v: nat, n: string, a: nat, b: nat) {
    && |s.workers| >= 2 && s.workers[0].Holding? && s.workers[1].Holding?
    && s.workers[0].job.Resize? && s.workers[0].job.vol == v && s.workers[0].job.size == a
    && s.workers[1].job.Resize? && s.workers[1].job.vol == v && s.workers[1].job.size == b
    && v in s.volName && s.volName[v] == n && n in s.storage && s.volRefs[v] >= 2
  }

  lemma ProcessHeld(s: State, w: nat, v: nat, n: string)
    requires w < |s.workers| && s.workers[w].Holding? && s.workers[w].job.Resize? && s.workers[w].job.vol == v
    requires v in s.volName && s.volName[v] == n && n in s.storage && v in s.volRefs
    ensures Do(s, Process(w, true)) == ProcessJob(s, w, true) && ProcessJob(s, w, true).Next?
    ensures var s' := ProcessJob(s, w, true).state;
            && s'.storage == s.storage[n := s.workers[w].job.size] && s'.volName == s.volName
            && s'.volRefs[v] == s.volRefs[v] - 1 && s'.files == s.files && s'.pending == s.pending
            && |s'.workers| == |s.workers|
            && forall i :: 0 <= i < |s.workers| && i != w ==> s'.workers[i] == s.workers[i]
  {
  }

  lemma LaterFirst(s: State, v: nat, n: string, a: nat, b: nat)
    requires TwoHeld(s, v, n, a, b)
    ensures var o := Run(s, [Process(1, true), Process(0, true)]);
            && o.Next? && n in o.state.storage && o.state.storage[n] == a
            && o.state.files == s.files && o.state.pending == s.pending
  {
    ProcessHeld(s, 1, v, n);
    var s1 := ProcessJob(s, 1, true).state;
    ProcessHeld(s1, 0, v, n);
    RunThen(s, Process(1, true), [Process(0, true)]);
    RunOne(s1, Process(0, true));
    assert [Process(1, true)] + [Process(0, true)] == [Process(1, true), Process(0, true)];
  }

  lemma TakeIdle(s: State, w: nat)
    requires w < |s.workers| && s.workers[w].Idle? && s.pending != []
    ensures Do(s, Take(w)) == TakeJob(s, w) && TakeJob(s, w).Next?
    ensures TakeJob(s, w).state == s.(pending := s.pending[1..], workers := s.workers[w := Holding(s.pending[0])])
  {
  }

  lemma TwoTakes(s: State, v: nat, n: string, r1: Job, r2: Job)
    requires |s.workers| >= 2 && s.workers[0].Idle? && s.workers[1].Idle? && s.pending == [r1, r2]
    requires r1.Resize? && r1.vol == v && r2.Resize? && r2.vol == v
    requires v in s.volName && s.volName[v] == n && n in s.storage && s.volRefs[v] >= 2
    ensures var o := Run(s, [Take(0), Take(1)]);
            && o.Next? && TwoHeld(o.state, v, n, r1.size, r2.size) && o.state.files == s.files && o.state.pending == []
  {
    TakeIdle(s, 0);
    var s1 := TakeJob(s, 0).state;
    TakeIdle(s1, 1);
    RunThen(s, Take(0), [Take(1)]);
    RunOne(s1, Take(1));
    assert [Take(0)] + [Take(1)] == [Take(0), Take(1)];
  }

  // A new version of a file that has a volume asks for another capacity.
  predicate Resizes(s: State, file: Resource, n: string) {
    && s.ctl == RepoModel.Loop && file.repoName == s.cfg.repoName && VolKey(s.cfg, file.name) == n && n in s.files
    && s.files[n].resource.Some? && s.files[n].vol.Some?
    && file.version != s.files[n].resource.value.version && file.capacity != s.files[n].resource.value.capacity
  }

  lemma OneResize(s: State, file: Resource, n: string)
    requires Resizes(s, file, n) && s.files[n].vol.value in s.volRefs && |s.pending| < CAPACITY
    ensures var o := ModifyFile(s, file);
            var job := Resize(|s.submitted|, s.files[n].vol.value, file.capacity, s.cfg.preallocate);
            o == Next(s.(files := s.files[n := s.files[n].(resource := Some(file))], pending := s.pending + [job],
                         submitted := s.submitted + [job], volRefs := s.volRefs + multiset{s.files[n].vol.value}))
  {
  }

  // With two idle workers and nothing queued, two resizes in a row can leave the
  // older capacity in the storage although both jobs succeed.
  lemma ResizesOvertake(s: State, f1: Resource, f2: Resource, n: string)
    requires Inv(s) && EntriesOk(s) && |s.workers| >= 2 && s.workers[0].Idle? && s.workers[1].Idle? && s.pending == []
    requires Resizes(s, f1, n) && n in s.storage
    requires f2.name == f1.name && f2.repoName == f1.repoName && f2.version != f1.version && f2.capacity != f1.capacity
    ensures exists labels :: var o := Run(s, labels);
            && o.Next? && o.state.pending == [] && n in o.state.files && n in o.state.storage
            && o.state.files[n].resource == Some(f2) && o.state.storage[n] == f1.capacity
  {
    FileMayLive(s, n);
    var v := s.files[n].vol.value;
    assert Named(s, v, n);
    TwoResizes(s, f1, f2, n);
    var s1 := ModifyFile(s, f1).state;
    var s2 := ModifyFile(s1, f2).state;
    var rest := TakenOvertaken(s2, v, n, s2.pending[0], s2.pending[1]);
    RunThen(s1, Modified(f2), rest);
    RunThen(s, Modified(f1), [Modified(f2)] + rest);
    assert Run(s, [Modified(f1)] + ([Modified(f2)] + rest)) == Run(s2, rest);
  }

  lemma TwoResizes(s: State, f1: Resource, f2: Resource, n: string)
    requires Resizes(s, f1, n) && s.files[n].vol.value in s.volRefs && s.pending == []
    requires f2.name == f1.name && f2.repoName == f1.repoName && f2.version != f1.version && f2.capacity != f1.capacity
    ensures ModifyFile(s, f1).Next? && ModifyFile(ModifyFile(s, f1).state, f2).Next?
    ensures var v, s2 := s.files[n].vol.value, ModifyFile(ModifyFile(s, f1).state, f2).state;
            && s2 == s.(files := s2.files, pending := s2.pending, submitted := s2.submitted, volRefs := s2.volRefs)
            && n in s2.files && s2.files[n].resource == Some(f2) && s2.volRefs[v] >= 2
            && |s2.pending| == 2 && s2.pending[0].Resize? && s2.pending[1].Resize?
            && s2.pending[0].vol == s2.pending[1].vol == v && s2.pending[0].size == f1.capacity
  {
    OneResize(s, f1, n);
    OneResize(ModifyFile(s, f1).state, f2, n);
  }

  lemma TakenOvertaken(s: State, v: nat, n: string, r1: Job, r2: Job) returns (labels: seq<Label>)
    requires |s.workers| >= 2 && s.workers[0].Idle? && s.workers[1].Idle? && s.pending == [r1, r2]
    requires r1.Resize? && r1.vol == v && r2.Resize? && r2.vol == v
    requires v in s.volName && s.volName[v] == n && n in s.storage && s.volRefs[v] >= 2
    ensures var o := Run(s, labels);
            && o.Next? && o.state.pending == [] && o.state.files == s.files
            && n in o.state.storage && o.state.storage[n] == r1.size
  {
    TwoTakes(s, v, n, r1, r2);
    LaterFirst(Run(s, [Take(0), Take(1)]).state, v, n, r1.size, r2.size);
    labels := [Take(0), Take(1)] + [Process(1, true), Process(0, true)];
    RunConcat(s, [Take(0), Take(1)], [Process(1, true), Process(0, true)]);
  }
}
