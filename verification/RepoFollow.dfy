// Whether the storage follows the files, with any number of workers, while files
// come, go and change: it does as long as no job is queued for a volume that has
// an outstanding one, and files are deleted only once their volumes are there.
module RepoFollow {
  import opened Common
  import opened RepoModel
  import opened RepoHandles
  import opened RepoInvariant
  import opened RepoDenotes
  import opened RepoQueues
  import opened RepoReconcile
  import opened RepoSequential
  import opened RepoOutstanding

  // Watch events, ticks, and the workers, with every job and update succeeding.
  predicate SteadyLabel(l: Label) {
    || l.Added? || l.Modified? || l.Deleted? || l.Tick? || l.FinishOne? || l.DrainEnd?
    || (l.Size? && l.update.Some?) || l.SizeDone? || l.Take? || l.Report? || (l.Process? && l.ok)
  }

  // A Deleted event for a known file.
  predicate DeletesFile(s: State, l: Label) {
    l.Deleted? && l.file.repoName == s.cfg.repoName && VolKey(s.cfg, l.file.name) in s.files
  }

  // A file is deleted only after its volume has been created.
  predicate Tidy(s: State, l: Label) {
    DeletesFile(s, l) ==> s.files[VolKey(s.cfg, l.file.name)].vol.Some?
  }

  // The volume that the files want under a name.
  function Want(s: State, n: string): Option<nat> {
    if n in s.files && s.files[n].resource.Some? then Some(s.files[n].resource.value.capacity) else None
  }

  // The outstanding jobs lead to a volume of that name exactly if the file is known.
  ghost predicate Placed(s: State, n: string) {
    exists v :: Due(s, n, v) && (v.Some? <==> n in s.files)
  }

  // And to the capacity that the file wants.
  ghost predicate Agrees(s: State, n: string) {
    Due(s, n, Want(s, n)) && (n in s.files ==> s.files[n].resource.Some?)
  }

  // ---- A step that queues nothing for a volume ----

  lemma DueWorker(s: State, l: Label, n: string, v: Option<nat>)
    requires Sound(s) && Solo(s) && WorkerLabel(l) && SteadyLabel(l) && Do(s, l).Next? && Due(s, n, v)
    ensures Due(Do(s, l).state, n, v)
  {
    var s' := Do(s, l).state;
    forall j | Out(s', j) && Target(s', j) == n ensures Effect(j) == v {
      WorkerOut(s, l, j);
      TargetStays(s, l, j);
    }
    if !Busy(s', n) { DueStored(s, l, n, v); }
  }

  // Once no job is outstanding for the volume it is there as due.
  lemma DueStored(s: State, l: Label, n: string, v: Option<nat>)
    requires Sound(s) && Solo(s) && WorkerLabel(l) && SteadyLabel(l) && Do(s, l).Next? && Due(s, n, v)
    requires !Busy(Do(s, l).state, n)
    ensures Lookup(Do(s, l).state.storage, n) == v
  {
    var s' := Do(s, l).state;
    if l.Process? {
      var job := s.workers[l.w].job;
      WorkerOut(s, l, job);
      ProcessStores(s, l.w);
      if Target(s, job) == n {
        assert Effect(job) == v;
      } else if Busy(s, n) {
        StillBusy(s, l, n);
      }
    } else {
      WorkerStores(s, l);
      if Busy(s, n) { StillBusy(s, l, n); }
    }
  }

  lemma WorkerStores(s: State, l: Label)
    requires (l.Take? || l.Report?) && Do(s, l).Next?
    ensures Do(s, l).state.storage == s.storage
  {
  }

  // A volume whose job is not processed keeps its job.
  lemma StillBusy(s: State, l: Label, n: string)
    requires Sound(s) && WorkerLabel(l) && Do(s, l).Next? && Busy(s, n)
    requires l.Process? && l.w < |s.workers| && s.workers[l.w].Holding? ==> Target(s, s.workers[l.w].job) != n
    ensures Busy(Do(s, l).state, n)
  {
    var j :| Out(s, j) && Target(s, j) == n;
    WorkerOut(s, l, j);
    TargetStays(s, l, j);
    assert Out(Do(s, l).state, j) && Target(Do(s, l).state, j) == n;
  }

  lemma DueMain(s: State, l: Label, n: string, v: Option<nat>)
    requires Sound(s) && !WorkerLabel(l) && Do(s, l).Next? && Due(s, n, v)
    requires Queues(s, l) ==> JobName(s, l) != n
    ensures Due(Do(s, l).state, n, v)
  {
    var s' := Do(s, l).state;
    QueuesExactly(s, l);
    MainKept(s, l);
    forall j | Out(s', j) && Target(s', j) == n ensures Effect(j) == v {
      MainOut(s, l, j);
      if Out(s, j) { TargetStays(s, l, j); }
    }
    if Busy(s, n) {
      var j :| Out(s, j) && Target(s, j) == n;
      MainOut(s, l, j);
      TargetStays(s, l, j);
      assert Out(s', j) && Target(s', j) == n;
    }
  }

  // A step that queues a job for a volume without one.
  lemma DueQueued(s: State, l: Label)
    requires Sound(s) && !WorkerLabel(l) && Do(s, l).Next? && Queues(s, l) && Calm(s, l)
    ensures var s' := Do(s, l).state;
            |s'.submitted| == |s.submitted| + 1 && Due(s', JobName(s, l), Effect(s'.submitted[|s.submitted|]))
  {
    var s', n := Do(s, l).state, JobName(s, l);
    QueuesExactly(s, l);
    var job := s'.submitted[|s.submitted|];
    MainOut(s, l, job);
    assert Out(s', job) && Target(s', job) == n;
    forall j | Out(s', j) && Target(s', j) == n ensures Effect(j) == Effect(job) {
      MainOut(s, l, j);
      if Out(s, j) { TargetStays(s, l, j); }
    }
  }

  // ---- What the files want ----

  predicate SameWant(s: State, s': State, n: string) {
    && (n in s'.files <==> n in s.files)
    && (n in s.files && s.files[n].resource.Some? ==>
          s'.files[n].resource.Some? && s'.files[n].resource.value.capacity == s.files[n].resource.value.capacity)
  }

  lemma WatchWant(s: State, l: Label, n: string)
    requires Sound(s) && (l.Added? || l.Modified? || l.Deleted?) && Tidy(s, l) && Do(s, l).Next?
    requires Queues(s, l) ==> JobName(s, l) != n
    ensures SameWant(s, Do(s, l).state, n)
  {
    match l {
      case Added(file, update) => AddWant(s, file, update, n);
      case Modified(file) => ModifyWant(s, file, n);
      case Deleted(file) =>
    }
  }

  lemma AddWant(s: State, file: Resource, update: Option<string>, n: string)
    requires AddFile(s, file, update).Next? && (Queues(s, Added(file, update)) ==> VolKey(s.cfg, file.name) != n)
    ensures SameWant(s, AddFile(s, file, update).state, n)
  {
  }

  lemma ModifyWant(s: State, file: Resource, n: string)
    requires ModifyFile(s, file).Next? && (Queues(s, Modified(file)) ==> VolKey(s.cfg, file.name) != n)
    ensures SameWant(s, ModifyFile(s, file).state, n)
  {
  }

  lemma OtherWant(s: State, l: Label, n: string)
    requires AllKnown(s) && SteadyLabel(l) && !l.Added? && !l.Modified? && !l.Deleted? && Do(s, l).Next?
    ensures SameWant(s, Do(s, l).state, n)
  {
    match l {
      case FinishOne => DrainCapacities(s);
      case Size(m, infoOk, update) => SizeCapacities(s, m, infoOk, update);
      case Take(_) => WorkerStep(s, l);
      case Process(_, _) => WorkerStep(s, l);
      case Report(_) => WorkerStep(s, l);
      case _ => TurnStep(s, l, s.nextVol);
    }
  }

  // The job that an event queues does what the file then wants.
  lemma QueuedWants(s: State, l: Label)
    requires (l.Added? || l.Modified? || l.Deleted?) && Queues(s, l) && Do(s, l).Next?
    ensures var s', n := Do(s, l).state, JobName(s, l);
            && |s'.submitted| == |s.submitted| + 1 && Effect(s'.submitted[|s.submitted|]) == Want(s', n)
            && (n in s'.files ==> s'.files[n].resource.Some?)
  {
    match l {
      case Added(file, update) => AddWants(s, file, update);
      case Modified(file) =>
      case Deleted(file) =>
    }
  }

  lemma AddWants(s: State, file: Resource, update: Option<string>)
    requires Queues(s, Added(file, update)) && AddFile(s, file, update).Next?
    ensures var s', n := AddFile(s, file, update).state, VolKey(s.cfg, file.name);
            && |s'.submitted| == |s.submitted| + 1 && Effect(s'.submitted[|s.submitted|]) == Want(s', n)
            && n in s'.files && s'.files[n].resource.Some?
  {
  }

  // ---- Agreement, once reached, is kept ----

  ghost predicate KeepsAt(s: State, s': State, n: string) {
    (Placed(s, n) ==> Placed(s', n)) && (Agrees(s, n) ==> Agrees(s', n))
  }

  ghost predicate Steady(s: State) {
    Inv(s) && AllKnown(s) && Sound(s) && Solo(s)
  }

  lemma SameKeeps(s: State, s': State, n: string)
    requires SameWant(s, s', n) && forall v :: Due(s, n, v) ==> Due(s', n, v)
    ensures KeepsAt(s, s', n)
  {
    if Placed(s, n) {
      var v :| Due(s, n, v) && (v.Some? <==> n in s.files);
      assert Due(s', n, v) && (v.Some? <==> n in s'.files);
    }
    if Agrees(s, n) { assert Due(s', n, Want(s, n)); }
  }

  lemma AgreesStep(s: State, l: Label, n: string)
    requires Steady(s) && SteadyLabel(l) && Calm(s, l) && Tidy(s, l) && Do(s, l).Next?
    ensures KeepsAt(s, Do(s, l).state, n)
  {
    var s' := Do(s, l).state;
    if WorkerLabel(l) {
      OtherWant(s, l, n);
      forall v | Due(s, n, v) ensures Due(s', n, v) { DueWorker(s, l, n, v); }
      SameKeeps(s, s', n);
    } else if Queues(s, l) && JobName(s, l) == n {
      DueQueued(s, l);
      QueuedWants(s, l);
    } else {
      if l.Added? || l.Modified? || l.Deleted? { WatchWant(s, l, n); } else { OtherWant(s, l, n); }
      forall v | Due(s, n, v) ensures Due(s', n, v) { DueMain(s, l, n, v); }
      SameKeeps(s, s', n);
    }
  }

  lemma SteadyStep(s: State, l: Label)
    requires Steady(s) && SteadyLabel(l) && Calm(s, l) && Do(s, l).Next?
    ensures Steady(Do(s, l).state)
  {
    StepKeepsInv(s, l);
    SoundStep(s, l);
    SoloStep(s, l);
    KnownStep(s, l);
  }

  // Deleting a file for whose volume no delete is queued leaves the volume that
  // is there or under way: the name stays placed exactly if the entry has its
  // volume.
  lemma DeletePlacedExactly(s: State, file: Resource)
    requires Steady(s) && DeletesFile(s, Deleted(file)) && DeleteFile(s, file).Next?
    requires Placed(s, VolKey(s.cfg, file.name)) && Calm(s, Deleted(file))
    ensures Placed(DeleteFile(s, file).state, VolKey(s.cfg, file.name)) <==> Tidy(s, Deleted(file))
  {
    var l, n, s' := Deleted(file), VolKey(s.cfg, file.name), DeleteFile(s, file).state;
    if Tidy(s, l) {
      AgreesStep(s, l, n);
    } else {
      var v :| Due(s, n, v) && (v.Some? <==> n in s.files);
      DueMain(s, l, n, v);
      assert n !in s'.files;
      forall u | Due(s', n, u) ensures u == v { DueUnique(s', n, u, v); }
    }
  }

  lemma DueUnique(s: State, n: string, u: Option<nat>, v: Option<nat>)
    requires Due(s, n, u) && Due(s, n, v)
    ensures u == v
  {
    if Busy(s, n) {
      var j :| Out(s, j) && Target(s, j) == n;
    }
  }

  // ---- Whole runs ----

  ghost predicate AllTidy(s: State, labels: seq<Label>) {
    forall i :: 0 <= i < |labels| ==> Run(s, labels[..i]).Next? ==> Tidy(Run(s, labels[..i]).state, labels[i])
  }

  lemma TidyPrefix(s: State, labels: seq<Label>)
    requires labels != [] && AllTidy(s, labels)
    ensures AllTidy(s, labels[..|labels| - 1])
    ensures Run(s, labels[..|labels| - 1]).Next? ==>
              Tidy(Run(s, labels[..|labels| - 1]).state, labels[|labels| - 1])
  {
    var k := |labels| - 1;
    assert forall i :: 0 <= i < k ==> labels[..k][..i] == labels[..i];
  }

  lemma {:induction false} AgreesOverRuns(s: State, labels: seq<Label>, n: string)
    requires Steady(s) && AllCalm(s, labels) && AllTidy(s, labels) && Run(s, labels).Next?
    requires forall i :: 0 <= i < |labels| ==> SteadyLabel(labels[i])
    ensures Steady(Run(s, labels).state) && KeepsAt(s, Run(s, labels).state, n)
  {
    if labels != [] {
      var k := |labels| - 1;
      CalmPrefix(s, labels);
      TidyPrefix(s, labels);
      AgreesOverRuns(s, labels[..k], n);
      SteadyStep(Run(s, labels[..k]).state, labels[k]);
      AgreesStep(Run(s, labels[..k]).state, labels[k], n);
    }
  }

  // No job is queued or held.
  predicate Idle(s: State) {
    s.pending == [] && forall w :: 0 <= w < |s.workers| ==> !s.workers[w].Holding?
  }

  lemma IdleDue(s: State, n: string, v: Option<nat>)
    requires Idle(s) && Due(s, n, v)
    ensures Lookup(s.storage, n) == v
  {
    assert forall j :: !Out(s, j);
  }

  // What an idle state shows of a volume that was placed, or agreed, before.
  predicate Shows(s: State, n: string, agreed: bool) {
    && (n in s.storage <==> n in s.files)
    && (agreed && n in s.files ==> s.files[n].resource.Some? && s.storage[n] == s.files[n].resource.value.capacity)
  }

  lemma IdleShows(s: State, n: string, agreed: bool)
    requires Idle(s) && Placed(s, n) && (agreed ==> Agrees(s, n))
    ensures Shows(s, n, agreed)
  {
    var v :| Due(s, n, v) && (v.Some? <==> n in s.files);
    IdleDue(s, n, v);
    if agreed { IdleDue(s, n, Want(s, n)); }
  }

  // With any number of workers, from any state that a run comes to with at most
  // one outstanding job for each volume: while files are added, resized and
  // deleted, no job being queued for a volume that has one outstanding and no
  // file being deleted before its volume is there, then as soon as no job is
  // outstanding a volume is there exactly if its file is known, and of the
  // capacity that the file wants, for each name for which the outstanding jobs
  // led there at first.
  lemma AnyWorkersFollowTheFiles(s: State, labels: seq<Label>, n: string)
    requires Reached(s) && AllKnown(s) && Solo(s) && Placed(s, n)
    requires AllCalm(s, labels) && AllTidy(s, labels) && Run(s, labels).Next?
    requires forall i :: 0 <= i < |labels| ==> SteadyLabel(labels[i])
    ensures Idle(Run(s, labels).state) ==> Shows(Run(s, labels).state, n, Agrees(s, n))
  {
    ReachedInv(s);
    ReachedDenotes(s);
    ReachedOrdered(s);
    AgreesOverRuns(s, labels, n);
    if Idle(Run(s, labels).state) { IdleShows(Run(s, labels).state, n, Agrees(s, n)); }
  }

  // ---- From a reconciliation on ----

  lemma OutJobOk(s: State, plan: Plan, j: Job)
    requires JobsOk(s, plan) && Out(s, j)
    ensures JobOk(s, plan, j)
  {
    if Holding(j) in s.workers {
      var w :| 0 <= w < |s.workers| && s.workers[w] == Holding(j);
    }
  }

  // Outstanding jobs are counted, each on its own.
  lemma CreatesTwo(s: State, n: string, j: Job, k: Job)
    requires Out(s, j) && Out(s, k) && j != k
    ensures CreatesName(j, n) + CreatesName(k, n) <= Creates(s, n)
  {
    if j in s.pending && k in s.pending {
      CountTwo(CreatesName, n, s.pending, j, k);
    } else if j in s.pending {
      CountIn(CreatesName, n, s.pending, j);
      CountIn(SlotCreates, n, s.workers, Holding(k));
    } else if k in s.pending {
      CountIn(CreatesName, n, s.pending, k);
      CountIn(SlotCreates, n, s.workers, Holding(j));
    } else {
      CountTwo(SlotCreates, n, s.workers, Holding(j), Holding(k));
    }
  }

  lemma DeletesTwo(s: State, plan: Plan, n: string, j: Job, k: Job)
    requires Out(s, j) && Out(s, k) && j != k && n in plan.named
    ensures DeletesVol(j, plan.named[n]) + DeletesVol(k, plan.named[n]) <= Deletes(s, plan, n)
  {
    var v: nat := plan.named[n];
    if j in s.pending && k in s.pending {
      CountTwo(DeletesVol, v, s.pending, j, k);
    } else if j in s.pending {
      CountIn(DeletesVol, v, s.pending, j);
      CountIn(SlotDeletes, v, s.workers, Holding(k));
    } else if k in s.pending {
      CountIn(DeletesVol, v, s.pending, k);
      CountIn(SlotDeletes, v, s.workers, Holding(j));
    } else {
      CountTwo(SlotDeletes, v, s.workers, Holding(j), Holding(k));
    }
  }

  lemma CountedOne(s: State, plan: Plan, n: string, j: Job)
    requires Out(s, j)
    ensures CreatesName(j, n) <= Creates(s, n)
    ensures n in plan.named ==> DeletesVol(j, plan.named[n]) <= Deletes(s, plan, n)
  {
    if j in s.pending {
      CountIn(CreatesName, n, s.pending, j);
      if n in plan.named { CountIn(DeletesVol, plan.named[n], s.pending, j); }
    } else {
      CountIn(SlotCreates, n, s.workers, Holding(j));
      if n in plan.named { CountIn(SlotDeletes, plan.named[n], s.workers, Holding(j)); }
    }
  }

  // What a batch job works on.
  lemma BatchTarget(s: State, plan: Plan, j: Job)
    requires Rec(s, plan) && Out(s, j)
    ensures j.Create? ==> CreatesName(j, Target(s, j)) == 1 && Target(s, j) in s.files
    ensures !j.Create? ==>
              && j.Delete? && Target(s, j) in plan.named && plan.named[Target(s, j)] == j.vol
              && DeletesVol(j, plan.named[Target(s, j)]) == 1 && Target(s, j) !in s.files
  {
    OutJobOk(s, plan, j);
    var n := Target(s, j);
    assert At(s, plan, n);
    CountedOne(s, plan, n, j);
  }

  lemma BatchSolo(s: State, plan: Plan)
    requires Rec(s, plan)
    ensures Solo(s)
  {
    forall j, k | Out(s, j) && Out(s, k) && Target(s, j) == Target(s, k) ensures j == k {
      var n := Target(s, j);
      assert At(s, plan, n);
      BatchTarget(s, plan, j);
      BatchTarget(s, plan, k);
      if j != k {
        CreatesTwo(s, n, j, k);
        if n in plan.named { DeletesTwo(s, plan, n, j, k); }
      }
    }
  }

  // What the batch makes of a name: kept volumes keep their capacity.
  function Intended(s: State, plan: Plan, n: string): Option<nat> {
    if n in s.files && n in plan.storage then Some(plan.storage[n]) else Want(s, n)
  }

  lemma SomeCreate(s: State, n: string)
    requires Creates(s, n) > 0
    ensures Busy(s, n)
  {
    if Count(CreatesName, n, s.pending) > 0 {
      var j := CountSome(CreatesName, n, s.pending);
      assert Out(s, j) && Target(s, j) == n;
    } else {
      var slot := CountSome(SlotCreates, n, s.workers);
      assert Out(s, slot.job) && Target(s, slot.job) == n;
    }
  }

  lemma SomeDelete(s: State, plan: Plan, n: string)
    requires HandlesOk(s, plan) && Deletes(s, plan, n) > 0
    ensures Busy(s, n)
  {
    var v: nat := plan.named[n];
    if Count(DeletesVol, v, s.pending) > 0 {
      var j := CountSome(DeletesVol, v, s.pending);
      assert Out(s, j) && Target(s, j) == n;
    } else {
      var slot := CountSome(SlotDeletes, v, s.workers);
      assert Out(s, slot.job) && Target(s, slot.job) == n;
    }
  }

  lemma BatchDue(s: State, plan: Plan, n: string)
    requires Rec(s, plan) && !Loading(s.ctl)
    ensures Due(s, n, Intended(s, plan, n))
  {
    assert At(s, plan, n);
    forall j | Out(s, j) && Target(s, j) == n ensures Effect(j) == Intended(s, plan, n) {
      BatchTarget(s, plan, j);
      OutJobOk(s, plan, j);
      CountedOne(s, plan, n, j);
    }
    if !Busy(s, n) {
      if Creates(s, n) > 0 { SomeCreate(s, n); }
      if Deletes(s, plan, n) > 0 { SomeDelete(s, plan, n); }
    }
  }

  lemma RecAgrees(s: State, plan: Plan, n: string)
    requires Rec(s, plan) && !Loading(s.ctl)
    ensures Solo(s) && Placed(s, n)
    ensures n !in plan.storage || n !in s.files || plan.storage[n] == s.files[n].resource.value.capacity ==>
              Agrees(s, n)
  {
    BatchSolo(s, plan);
    BatchDue(s, plan, n);
    assert Intended(s, plan, n).Some? <==> n in s.files;
  }

  // As soon as loading is over, jobs of the batch still outstanding, each name is
  // placed, and agrees unless an old volume of another capacity was kept.
  lemma BatchAgrees(s: State, listing: Listing, batch: seq<Label>, n: string)
    requires Reached(s) && Batch(s, listing, batch) && !Loading(BatchState(s, listing, batch).ctl)
    ensures var s1 := BatchState(s, listing, batch);
            && Reached(s1) && AllKnown(s1) && Solo(s1) && Placed(s1, n)
            && (n !in s.storage || n !in s.files || s.storage[n] == s.files[n].resource.value.capacity ==>
                  Agrees(s1, n))
  {
    ReachedBatch(s, listing, batch);
    BatchUnder(s, listing, batch);
    RecAgrees(BatchState(s, listing, batch), PlanOf(s, listing), n);
  }

  // So from the end of loading on, whatever is still outstanding, the storage
  // follows the files.
  lemma ReconcilesThenFollows(s: State, listing: Listing, batch: seq<Label>, labels: seq<Label>, n: string)
    requires Reached(s) && Batch(s, listing, batch) && !Loading(BatchState(s, listing, batch).ctl)
    requires forall i :: 0 <= i < |labels| ==> SteadyLabel(labels[i])
    requires var s1 := BatchState(s, listing, batch);
             AllCalm(s1, labels) && AllTidy(s1, labels) && Run(s1, labels).Next?
    ensures var s' := Run(BatchState(s, listing, batch), labels).state;
            var sameCapacity := n !in s.storage || n !in s.files || s.storage[n] == s.files[n].resource.value.capacity;
            Idle(s') ==> Shows(s', n, sameCapacity)
  {
    BatchAgrees(s, listing, batch, n);
    AnyWorkersFollowTheFiles(BatchState(s, listing, batch), labels, n);
  }
}
