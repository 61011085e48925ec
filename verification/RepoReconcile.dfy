// Reconciliation: the batch of jobs that loadVolumes queues makes the pool's
// volumes exactly the repository's files, or blocks the main loop for ever,
// and the size of the batch alone decides which.
module RepoReconcile {
  import opened Common
  import opened RepoModel
  import opened RepoHandles
  import opened RepoInvariant
  import opened RepoQueues
  import D = RepoDenotes

  // The volumes when the pool was listed, with their capacities and handles.
  datatype Plan = Plan(storage: map<string, nat>, named: map<string, nat>)

  // ---- Unprocessed jobs, by name ----

  function CreatesName(j: Job, n: string): nat { One(j.Create? && j.name == n) }

  function SlotCreates(slot: Slot, n: string): nat {
    if slot.Holding? then CreatesName(slot.job, n) else 0
  }

  function DeletesVol(j: Job, v: nat): nat { One(j.Delete? && j.vol == v) }

  function SlotDeletes(slot: Slot, v: nat): nat {
    if slot.Holding? then DeletesVol(slot.job, v) else 0
  }

  function Creates(s: State, n: string): nat {
    Count(CreatesName, n, s.pending) + Count(SlotCreates, n, s.workers)
  }

  function Deletes(s: State, plan: Plan, n: string): nat {
    if n !in plan.named then 0
    else Count(DeletesVol, plan.named[n], s.pending) + Count(SlotDeletes, plan.named[n], s.workers)
  }

  function Todo(s: State): set<string> {
    if s.ctl.Visiting? then s.ctl.todo else {}
  }

  function Listed(s: State): map<string, nat> { ListedOf(s.ctl) }

  // Where each name stands: a file still to be visited, a file visited and
  // either there or about to be created, or no file and then absent, about to
  // be deleted, or still to be swept.
  predicate At(s: State, plan: Plan, n: string) {
    && (n in Listed(s) ==> n in plan.named && Listed(s)[n] == plan.named[n])
    && (n in s.storage && n in plan.storage ==> s.storage[n] == plan.storage[n])
    && if n in s.files then
         Deletes(s, plan, n) == 0
         && if n in Todo(s) then
              Creates(s, n) == 0 && (n in s.storage <==> n in Listed(s)) && (n in Listed(s) <==> n in plan.named)
            else
              && n !in Listed(s)
              && Creates(s, n) == One(n !in s.storage)
              && (n in plan.named ==> n in s.storage)
              && (n in s.storage && n !in plan.named ==>
                    s.files[n].resource.Some? && s.storage[n] == s.files[n].resource.value.capacity)
       else
         && Creates(s, n) == 0
         && n !in Todo(s)
         && (n in Listed(s) ==> n in s.storage && Deletes(s, plan, n) == 0)
         && (n !in Listed(s) ==> Deletes(s, plan, n) == One(n in s.storage))
  }

  predicate JobOk(s: State, plan: Plan, job: Job) {
    match job
    case Create(_, _, name, _, _, capacity) =>
      name in s.files && s.files[name].resource.Some? && s.files[name].resource.value.capacity == capacity
    case Delete(_, vol) => vol in plan.named.Values
    case Resize(_, _, _, _) => false
  }

  predicate JobsOk(s: State, plan: Plan) {
    && (forall i :: 0 <= i < |s.pending| ==> JobOk(s, plan, s.pending[i]))
    && (forall w :: 0 <= w < |s.workers| && s.workers[w].Holding? ==> JobOk(s, plan, s.workers[w].job))
  }

  predicate HandlesOk(s: State, plan: Plan) {
    && plan.named.Keys == plan.storage.Keys
    && Distinct(plan.named)
    && (forall n :: n in plan.named ==>
          plan.named[n] < s.nextVol && plan.named[n] in s.volName && s.volName[plan.named[n]] == n)
  }

  predicate Phase(ctl: RepoModel.Control) {
    ctl.Visiting? || ctl.Sweeping? || ctl.Loaded? || ctl.Loop? || ctl.Draining? || ctl.Sizing?
  }

  ghost predicate Rec(s: State, plan: Plan) {
    && Inv(s) && AllKnown(s) && Phase(s.ctl) && HandlesOk(s, plan) && JobsOk(s, plan)
    && forall n :: At(s, plan, n)
  }

  // The steps of the batch, with all jobs and all updates of refreshSizes
  // succeeding: the two loops of loadVolumes, the workers, the Refresh that
  // follows, and every later one. A drain may end while jobs are outstanding.
  predicate BatchLabel(l: Label) {
    || l.Visit? || l.VisitDone? || l.Sweep? || l.SweepDone? || l.Saved?
    || l.Tick? || l.FinishOne? || l.DrainEnd? || (l.Size? && l.update.Some?) || l.SizeDone?
    || l.Take? || l.Report? || (l.Process? && l.ok)
  }

  // ---- Every step of the batch keeps the plan ----

  lemma CreateRec(s: State, s0: State, plan: Plan, m: string, update: Option<string>, n: string)
    requires At(s0, plan, n) && At(s0, plan, m)
    requires s0.ctl.Visiting? && m in s0.ctl.todo && m !in s0.ctl.listed && m in s0.files
    requires s == s0.(ctl := Visiting(s0.ctl.arm, s0.ctl.todo - {m}, s0.ctl.listed))
    requires CreateFileVolume(s, m, update).Next?
    ensures At(CreateFileVolume(s, m, update).state, plan, n)
  {
    var s' := CreateFileVolume(s, m, update).state;
    var job := s'.submitted[|s.submitted|];
    CountSnoc(CreatesName, n, s.pending, job);
    if n in plan.named { CountSnoc(DeletesVol, plan.named[n], s.pending, job); }
  }

  lemma VisitRec(s: State, plan: Plan, m: string, update: Option<string>, n: string)
    requires Rec(s, plan) && VisitOne(s, m, update).Next?
    ensures At(VisitOne(s, m, update).state, plan, n)
  {
    assert Indexed(s.cfg, m, s.files[m]);
    assert At(s, plan, n) && At(s, plan, m);
    if m !in s.ctl.listed {
      CreateRec(s.(ctl := Visiting(s.ctl.arm, s.ctl.todo - {m}, s.ctl.listed)), s, plan, m, update, n);
    }
  }

  lemma SweepRec(s: State, plan: Plan, m: string, n: string)
    requires Rec(s, plan) && SweepOne(s, m).Next?
    ensures At(SweepOne(s, m).state, plan, n)
  {
    assert At(s, plan, n) && At(s, plan, m);
    var job := Delete(|s.submitted|, s.ctl.listed[m]);
    CountSnoc(CreatesName, n, s.pending, job);
    if n in plan.named { CountSnoc(DeletesVol, plan.named[n], s.pending, job); }
  }

  // Finishing a completion touches at most the entry without a volume.
  lemma FinishEntry(s: State, d: Done, n: string)
    requires FinishJob(s, d).Next? && n in s.files && s.files[n].resource.Some?
    ensures var files' := FinishJob(s, d).state.files;
            && n in files' && files'[n].resource.Some?
            && files'[n].resource.value.capacity == s.files[n].resource.value.capacity
            && (s.files[n].vol.Some? ==> files'[n].vol == s.files[n].vol)
  {
  }

  lemma FinishRec(s: State, plan: Plan, n: string)
    requires Rec(s, plan) && DrainOne(s).Next?
    ensures At(DrainOne(s).state, plan, n)
  {
    assert At(s, plan, n);
    var d := s.completed[0];
    var s1 := s.(completed := s.completed[1..], finished := s.finished + [d]);
    FinishKept(s1, d);
    if n in s.files { FinishEntry(s1, d, n); }
  }

  lemma SizeFrame(s: State, m: string, infoOk: bool, update: Option<string>)
    requires SizeOne(s, m, infoOk, update).Next?
    ensures var s' := SizeOne(s, m, infoOk, update).state;
            && s'.ctl == Sizing(s.ctl.after, s.ctl.todo - {m}) && s.ctl.Sizing? && m in s.ctl.todo
            && s' == s.(files := s'.files, volRefs := s'.volRefs, ctl := s'.ctl)
  {
  }

  lemma SizeCapacities(s: State, m: string, infoOk: bool, update: Option<string>)
    requires SizeOne(s, m, infoOk, update).Next? && update.Some?
    ensures SameCapacities(s, SizeOne(s, m, infoOk, update).state)
  {
  }

  lemma SizeRec(s: State, plan: Plan, m: string, infoOk: bool, update: Option<string>, n: string)
    requires Rec(s, plan) && SizeOne(s, m, infoOk, update).Next? && update.Some?
    ensures At(SizeOne(s, m, infoOk, update).state, plan, n)
  {
    assert At(s, plan, n);
    SizeFrame(s, m, infoOk, update);
    SizeCapacities(s, m, infoOk, update);
  }

  lemma TakeRec(s: State, plan: Plan, w: nat, n: string)
    requires Rec(s, plan) && TakeJob(s, w).Next?
    ensures At(TakeJob(s, w).state, plan, n)
  {
    assert At(s, plan, n);
    CountUpdate(SlotCreates, n, s.workers, w, Holding(s.pending[0]));
    if n in plan.named { CountUpdate(SlotDeletes, plan.named[n], s.workers, w, Holding(s.pending[0])); }
  }

  lemma ReportRec(s: State, plan: Plan, w: nat, n: string)
    requires Rec(s, plan) && ReportJob(s, w).Next?
    ensures At(ReportJob(s, w).state, plan, n)
  {
    assert At(s, plan, n);
    CountUpdate(SlotCreates, n, s.workers, w, Idle);
    if n in plan.named { CountUpdate(SlotDeletes, plan.named[n], s.workers, w, Idle); }
  }

  // The name that a held job works on, and that it can succeed.
  lemma HeldTarget(s: State, plan: Plan, w: nat)
    requires Rec(s, plan) && w < |s.workers| && s.workers[w].Holding?
    ensures var job := s.workers[w].job;
            var m := TargetOf(s.volName, job);
            && MaySucceed(s.storage, job, m)
            && (if job.Create? then m in s.files
                else job.Delete? && m in plan.named && plan.named[m] == job.vol && m !in s.files && m !in Listed(s))
  {
    var job := s.workers[w].job;
    assert JobOk(s, plan, job);
    var m := TargetOf(s.volName, job);
    assert At(s, plan, m);
    if job.Create? {
      CountAt(SlotCreates, m, s.workers, w);
    } else {
      CountAt(SlotDeletes, job.vol, s.workers, w);
    }
  }

  // What processing does to the counts of a name.
  lemma ProcessCounts(s: State, s': State, plan: Plan, w: nat, n: string)
    requires w < |s.workers| && s.workers[w].Holding? && |s'.workers| == |s.workers| && s'.workers[w].Reporting?
    requires s'.workers == s.workers[w := s'.workers[w]] && s'.pending == s.pending
    ensures Creates(s', n) + CreatesName(s.workers[w].job, n) == Creates(s, n)
    ensures Deletes(s', plan, n) + (if n in plan.named then DeletesVol(s.workers[w].job, plan.named[n]) else 0)
         == Deletes(s, plan, n)
  {
    CountUpdate(SlotCreates, n, s.workers, w, s'.workers[w]);
    if n in plan.named { CountUpdate(SlotDeletes, plan.named[n], s.workers, w, s'.workers[w]); }
  }

  lemma CreatedAt(s: State, s': State, plan: Plan, job: Job, n: string)
    requires At(s, plan, n) && HandlesOk(s, plan) && job.Create? && JobOk(s, plan, job) && job.name !in s.storage
    requires s'.files == s.files && s'.ctl == s.ctl && s'.storage == s.storage[job.name := job.capacity]
    requires Creates(s', n) + CreatesName(job, n) == Creates(s, n) && Deletes(s', plan, n) == Deletes(s, plan, n)
    ensures At(s', plan, n)
  {
  }

  lemma DeletedAt(s: State, s': State, plan: Plan, job: Job, m: string, n: string)
    requires At(s, plan, n) && HandlesOk(s, plan) && job.Delete? && m in plan.named && plan.named[m] == job.vol
    requires m !in s.files && m in s.storage
    requires s'.files == s.files && s'.ctl == s.ctl && s'.storage == s.storage - {m}
    requires Creates(s', n) == Creates(s, n)
    requires Deletes(s', plan, n) + (if n in plan.named then DeletesVol(job, plan.named[n]) else 0)
          == Deletes(s, plan, n)
    requires m !in Listed(s)
    ensures At(s', plan, n)
  {
  }

  lemma ProcessRec(s: State, plan: Plan, w: nat, n: string)
    requires Rec(s, plan) && ProcessJob(s, w, true).Next?
    ensures At(ProcessJob(s, w, true).state, plan, n)
  {
    HeldTarget(s, plan, w);
    ProcessStep(s, w, true);
    var s' := ProcessJob(s, w, true).state;
    ProcessStores(s, w);
    ProcessCounts(s, s', plan, w, n);
    var job := s.workers[w].job;
    assert At(s, plan, n) && JobOk(s, plan, job);
    if job.Create? {
      CreatedAt(s, s', plan, job, n);
    } else {
      DeletedAt(s, s', plan, job, TargetOf(s.volName, job), n);
    }
  }

  lemma ProcessStores(s: State, w: nat)
    requires ProcessJob(s, w, true).Next?
    ensures ProcessJob(s, w, true).state.storage
         == Apply(s.storage, Processed(s.workers[w].job, TargetOf(s.volName, s.workers[w].job), true))
  {
  }

  lemma AtStep(s: State, plan: Plan, l: Label, n: string)
    requires Rec(s, plan) && BatchLabel(l) && Do(s, l).Next?
    ensures At(Do(s, l).state, plan, n)
  {
    match l {
      case Visit(m, update) => VisitRec(s, plan, m, update, n);
      case Sweep(m) => SweepRec(s, plan, m, n);
      case FinishOne => FinishRec(s, plan, n);
      case Size(m, infoOk, update) => SizeRec(s, plan, m, infoOk, update, n);
      case Take(w) => TakeRec(s, plan, w, n);
      case Process(w, ok) => ProcessRec(s, plan, w, n);
      case Report(w) => ReportRec(s, plan, w, n);
      case _ => TurnRec(s, plan, l, n);
    }
  }

  lemma TurnRec(s: State, plan: Plan, l: Label, n: string)
    requires Rec(s, plan) && Turn(l) && BatchLabel(l) && Do(s, l).Next?
    ensures At(Do(s, l).state, plan, n)
  {
    assert At(s, plan, n);
    TurnStep(s, l, s.nextVol);
    TurnTodo(s, l);
    TurnAt(s, Do(s, l).state, plan, n);
  }

  lemma TurnTodo(s: State, l: Label)
    requires Turn(l) && BatchLabel(l) && Do(s, l).Next?
    ensures Todo(Do(s, l).state) == Todo(s)
  {
    match l {
      case VisitDone =>
      case SweepDone =>
      case Saved(ok) => if !ok { ReleaseTodo(s, ReleasePool(s.ctl.arm)); }
      case Tick =>
      case DrainEnd(_) => ReleaseTodo(s, s.ctl.after);
      case SizeDone => ReleaseTodo(s, s.ctl.after);
    }
  }

  lemma ReleaseTodo(s: State, after: After)
    ensures Release(s, after).Next? ==> Todo(Release(s, after).state) == {}
  {
  }

  lemma TurnAt(s: State, s': State, plan: Plan, n: string)
    requires At(s, plan, n) && TurnFrame(s, s') && Todo(s') == Todo(s)
    ensures At(s', plan, n)
  {
  }

  // The file table keeps its keys and capacities.
  predicate SameCapacities(s: State, s': State) {
    && s'.files.Keys == s.files.Keys
    && forall n :: n in s.files && s.files[n].resource.Some? ==>
         s'.files[n].resource.Some? && s'.files[n].resource.value.capacity == s.files[n].resource.value.capacity
  }

  lemma VisitCapacities(s: State, m: string, update: Option<string>)
    requires Inv(s) && VisitOne(s, m, update).Next?
    ensures SameCapacities(s, VisitOne(s, m, update).state)
  {
    assert Indexed(s.cfg, m, s.files[m]);
  }

  lemma DrainCapacities(s: State)
    requires AllKnown(s) && DrainOne(s).Next?
    ensures SameCapacities(s, DrainOne(s).state)
  {
    var d := s.completed[0];
    var s1 := s.(completed := s.completed[1..], finished := s.finished + [d]);
    FinishKept(s1, d);
    forall n | n in s.files
      ensures var files' := DrainOne(s).state.files;
              files'[n].resource.Some? && files'[n].resource.value.capacity == s.files[n].resource.value.capacity
    {
      FinishEntry(s1, d, n);
    }
  }

  lemma CapacitiesStep(s: State, l: Label)
    requires Inv(s) && AllKnown(s) && BatchLabel(l) && Do(s, l).Next?
    ensures SameCapacities(s, Do(s, l).state)
  {
    match l {
      case Visit(m, update) => VisitCapacities(s, m, update);
      case FinishOne => DrainCapacities(s);
      case Size(m, infoOk, update) => SizeCapacities(s, m, infoOk, update);
      case Sweep(_) =>
      case _ => if WorkerLabel(l) { WorkerStep(s, l); } else { TurnStep(s, l, s.nextVol); }
    }
  }

  lemma JobStays(s: State, s': State, plan: Plan, job: Job)
    requires JobOk(s, plan, job) && SameCapacities(s, s')
    ensures JobOk(s', plan, job)
  {
  }

  lemma VisitJob(s: State, plan: Plan, m: string, update: Option<string>)
    requires Inv(s) && VisitOne(s, m, update).Next? && |VisitOne(s, m, update).state.submitted| == |s.submitted| + 1
    ensures var s' := VisitOne(s, m, update).state; JobOk(s', plan, s'.submitted[|s.submitted|])
  {
    assert Indexed(s.cfg, m, s.files[m]);
  }

  lemma NewJobOk(s: State, plan: Plan, l: Label)
    requires Rec(s, plan) && BatchLabel(l) && !WorkerLabel(l) && Do(s, l).Next?
    requires |Do(s, l).state.submitted| == |s.submitted| + 1
    ensures JobOk(Do(s, l).state, plan, Do(s, l).state.submitted[|s.submitted|])
  {
    match l {
      case Visit(m, update) => VisitJob(s, plan, m, update);
      case Sweep(m) => assert At(s, plan, m);
      case FinishOne => DrainFrame(s);
      case Size(m, infoOk, update) => SizeFrame(s, m, infoOk, update);
      case _ => TurnStep(s, l, s.nextVol);
    }
  }

  lemma JobsStep(s: State, plan: Plan, l: Label)
    requires Rec(s, plan) && BatchLabel(l) && Do(s, l).Next?
    ensures JobsOk(Do(s, l).state, plan)
  {
    var s' := Do(s, l).state;
    CapacitiesStep(s, l);
    forall job: Job | JobOk(s, plan, job) ensures JobOk(s', plan, job) { JobStays(s, s', plan, job); }
    if WorkerLabel(l) {
      WorkerStep(s, l);
      JobsMove(s, s', plan, l);
    } else {
      MainKept(s, l);
      if |s'.submitted| == |s.submitted| + 1 { NewJobOk(s, plan, l); }
    }
  }

  lemma JobsMove(s: State, s': State, plan: Plan, l: Label)
    requires JobsOk(s, plan) && WorkerMove(s, s', l)
    requires forall job: Job :: JobOk(s, plan, job) ==> JobOk(s', plan, job)
    ensures JobsOk(s', plan)
  {
  }

  lemma HandlesStep(s: State, plan: Plan, l: Label)
    requires HandlesOk(s, plan) && BatchLabel(l) && Do(s, l).Next?
    ensures HandlesOk(Do(s, l).state, plan)
  {
    D.NamesStep(s, l);
    HandlesFrame(s, Do(s, l).state, plan);
  }

  lemma HandlesFrame(s: State, s': State, plan: Plan)
    requires HandlesOk(s, plan) && D.NamesKept(s, s')
    ensures HandlesOk(s', plan)
  {
  }

  lemma RecStep(s: State, plan: Plan, l: Label)
    requires Rec(s, plan) && BatchLabel(l) && Do(s, l).Next?
    ensures Rec(Do(s, l).state, plan)
  {
    var s' := Do(s, l).state;
    StepKeepsInv(s, l);
    KnownStep(s, l);
    HandlesStep(s, plan, l);
    JobsStep(s, plan, l);
    PhaseStep(s, l);
    forall n ensures At(s', plan, n) { AtStep(s, plan, l, n); }
  }

  lemma PhaseStep(s: State, l: Label)
    requires Phase(s.ctl) && BatchLabel(l) && Do(s, l).Next?
    ensures Phase(Do(s, l).state.ctl)
  {
    match l {
      case FinishOne => DrainFrame(s);
      case Size(m, infoOk, update) => SizeFrame(s, m, infoOk, update);
      case Take(_) => WorkerStep(s, l);
      case Process(_, _) => WorkerStep(s, l);
      case Report(_) => WorkerStep(s, l);
      case _ =>
    }
  }

  // ---- The size of the batch, and why it ends ----

  // Sends that the two loops still have to make.
  function Remaining(s: State): nat {
    Difference(Todo(s), Listed(s).Keys)
  }

  predicate Loading(ctl: RepoModel.Control) {
    ctl.Visiting? || ctl.Sweeping?
  }

  function Stage(ctl: RepoModel.Control): nat {
    match ctl
    case Visiting(_, _, _) => 3
    case Sweeping(_, _) => 2
    case Loaded(_) => 1
    case _ => 0
  }

  // The steps that loading, the workers and finishing still have to make.
  function Productive(s: State): nat {
    Work(s) + 5 * Remaining(s) + |Todo(s)| + Stage(s.ctl)
  }

  // The steps until the Refresh in progress returns, if no job completes.
  function RefreshLeft(s: State): nat {
    match s.ctl
    case Draining(_) => |s.files| + 2
    case Sizing(_, todo) => |todo| + 1
    case _ => 0
  }

  // Sent and unsent jobs add up to the batch; once all are sent, it fitted.
  predicate Budget(s: State, total: nat) {
    if Loading(s.ctl) then Unfinished(s) + Remaining(s) == total else Unfinished(s) <= total <= Bound(s)
  }

  function Difference(todo: set<string>, listed: set<string>): nat {
    |todo - listed| + |listed - todo|
  }

  // A visited name leaves the difference exactly if it was not listed.
  lemma VisitedLeaves(todo: set<string>, listed: set<string>, m: string)
    requires m in todo
    ensures |todo - {m}| == |todo| - 1
    ensures Difference(todo, listed) == Difference(todo - {m}, listed - {m}) + (if m in listed then 0 else 1)
  {
    var todo', listed' := todo - {m}, listed - {m};
    assert listed' - todo' == listed - todo;
    if m in listed {
      assert todo' - listed' == todo - listed;
    } else {
      assert todo' - listed' == (todo - listed) - {m};
    }
  }

  predicate Visited(s: State, s': State, m: string) {
    && s.ctl.Visiting? && m in s.ctl.todo
    && s'.ctl.Visiting? && s'.workers == s.workers && s'.completed == s.completed
    && s'.ctl.todo == s.ctl.todo - {m} && s'.ctl.listed.Keys == s.ctl.listed.Keys - {m}
    && |s'.pending| == |s.pending| + (if m in s.ctl.listed then 0 else 1)
  }

  lemma VisitMoves(s: State, m: string, update: Option<string>)
    requires VisitOne(s, m, update).Next? && VolKey(s.cfg, s.files[m].resource.value.name) == m
    ensures Visited(s, VisitOne(s, m, update).state, m)
  {
  }

  lemma VisitRemaining(s: State, s': State, m: string)
    requires Visited(s, s', m)
    ensures Remaining(s') == Remaining(s) - (if m in s.ctl.listed then 0 else 1)
    ensures |Todo(s')| == |Todo(s)| - 1
  {
    VisitingRemains(s);
    VisitingRemains(s');
    VisitedLeaves(s.ctl.todo, s.ctl.listed.Keys, m);
  }

  lemma VisitingRemains(s: State)
    requires s.ctl.Visiting?
    ensures Todo(s) == s.ctl.todo && Remaining(s) == Difference(s.ctl.todo, s.ctl.listed.Keys)
  {
  }

  lemma VisitBudget(s: State, s': State, m: string)
    requires Visited(s, s', m)
    ensures Unfinished(s') + Remaining(s') == Unfinished(s) + Remaining(s) && Productive(s') < Productive(s)
  {
    VisitRemaining(s, s', m);
    var sent := if m in s.ctl.listed then 0 else 1;
    assert Work(s') == Work(s) + 4 * sent && Unfinished(s') == Unfinished(s) + sent;
  }

  lemma SweepBudget(s: State, m: string)
    requires SweepOne(s, m).Next?
    ensures var s' := SweepOne(s, m).state;
            && Unfinished(s') + Remaining(s') == Unfinished(s) + Remaining(s) && Productive(s') < Productive(s)
            && s'.ctl.Sweeping?
  {
    var s' := SweepOne(s, m).state;
    assert Listed(s').Keys - Todo(s') == (Listed(s).Keys - Todo(s)) - {m};
  }

  // Loading comes closer to its end, with every send made.
  predicate StageDown(s: State, s': State) {
    && Todo(s') == Todo(s) && Listed(s') == Listed(s) && Stage(s'.ctl) < Stage(s.ctl)
    && (Loading(s'.ctl) ==> Loading(s.ctl)) && (Loading(s.ctl) && !Loading(s'.ctl) ==> Remaining(s) == 0)
  }

  lemma LoadStage(s: State)
    ensures StartSweep(s).Next? ==> StageDown(s, StartSweep(s).state)
    ensures EndSweep(s).Next? ==> StageDown(s, EndSweep(s).state)
  {
  }

  lemma SaveStage(s: State, ok: bool)
    requires SaveRepo(s, ok).Next?
    ensures StageDown(s, SaveRepo(s, ok).state)
  {
  }

  // The labels of a Refresh that finishes nothing.
  predicate RefreshLabel(l: Label) {
    l.Tick? || l.DrainEnd? || l.Size? || l.SizeDone?
  }

  // What a step does to the two measures.
  predicate Spends(s: State, s': State, l: Label) {
    if RefreshLabel(l) then
      && Productive(s') == Productive(s)
      && (if l.Tick? then RefreshLeft(s) == 0 && RefreshLeft(s') == |s.files| + 2 else RefreshLeft(s') < RefreshLeft(s))
    else
      && Productive(s') < Productive(s)
      && (if l.Saved? then RefreshLeft(s) == 0 && RefreshLeft(s') <= |s.files| + 2
          else RefreshLeft(s') == RefreshLeft(s))
  }

  lemma StageBudget(s: State, s': State, total: nat)
    requires Shape(s) && Budget(s, total) && TurnFrame(s, s') && StageDown(s, s')
    ensures Budget(s', total) && Productive(s') < Productive(s)
  {
    WorkBound(s);
  }

  lemma LoadSpends(s: State, l: Label, total: nat)
    requires Shape(s) && Budget(s, total) && (l.VisitDone? || l.SweepDone?) && Do(s, l).Next?
    ensures Budget(Do(s, l).state, total) && Spends(s, Do(s, l).state, l)
  {
    TurnStep(s, l, s.nextVol);
    LoadStage(s);
    StageBudget(s, Do(s, l).state, total);
  }

  lemma SaveSpends(s: State, ok: bool, total: nat)
    requires Shape(s) && Budget(s, total) && SaveRepo(s, ok).Next?
    ensures Budget(SaveRepo(s, ok).state, total) && Spends(s, SaveRepo(s, ok).state, Saved(ok))
  {
    TurnStep(s, Saved(ok), s.nextVol);
    SaveStage(s, ok);
    StageBudget(s, SaveRepo(s, ok).state, total);
  }

  // Refreshing leaves everything but the files and the place in the loop.
  predicate RefreshFrame(s: State, s': State) {
    && s'.pending == s.pending && s'.workers == s.workers && s'.completed == s.completed
    && !Loading(s.ctl) && !Loading(s'.ctl) && Stage(s.ctl) == Stage(s'.ctl) == 0
  }

  lemma RefreshBudget(s: State, s': State, total: nat)
    requires Budget(s, total) && RefreshFrame(s, s')
    ensures Budget(s', total) && Productive(s') == Productive(s)
  {
  }

  lemma DrainEnds(s: State, infoOk: bool)
    requires EndDrain(s, infoOk).Next?
    ensures var s' := EndDrain(s, infoOk).state;
            && RefreshFrame(s, s') && s'.files == s.files && s.ctl.Draining?
            && (s'.ctl.Loop? || (s'.ctl.Sizing? && s'.ctl.todo == s.files.Keys))
  {
    if s.pool.None? || !infoOk { ReleaseMoves(s, s.ctl.after); }
  }

  lemma SizesEnd(s: State)
    requires EndSizes(s).Next?
    ensures var s' := EndSizes(s).state;
            RefreshFrame(s, s') && s'.files == s.files && s.ctl.Sizing? && s'.ctl.Loop?
  {
    ReleaseMoves(s, s.ctl.after);
  }

  lemma ReleaseMoves(s: State, after: After)
    requires Release(s, after).Next?
    ensures var s' := Release(s, after).state;
            && s'.pending == s.pending && s'.workers == s.workers && s'.completed == s.completed
            && s'.files == s.files && s'.ctl.Loop?
  {
  }

  lemma TickMoves(s: State, l: Label)
    requires (l.Tick? || l.DrainEnd? || l.SizeDone?) && Do(s, l).Next?
    ensures RefreshFrame(s, Do(s, l).state) && Do(s, l).state.files == s.files
    ensures var s' := Do(s, l).state;
            && (l.Tick? ==> s.ctl.Loop? && s'.ctl.Draining?)
            && (l.DrainEnd? ==> s.ctl.Draining? && (s'.ctl.Loop? || (s'.ctl.Sizing? && s'.ctl.todo == s.files.Keys)))
            && (l.SizeDone? ==> s.ctl.Sizing? && s'.ctl.Loop?)
  {
    match l {
      case Tick =>
      case DrainEnd(infoOk) => DrainEnds(s, infoOk);
      case SizeDone => SizesEnd(s);
    }
  }

  lemma TickSpends(s: State, l: Label, total: nat)
    requires Budget(s, total) && (l.Tick? || l.DrainEnd? || l.SizeDone?) && Do(s, l).Next?
    ensures Budget(Do(s, l).state, total) && Spends(s, Do(s, l).state, l)
  {
    TickMoves(s, l);
    RefreshBudget(s, Do(s, l).state, total);
    assert |s.files.Keys| == |s.files|;
  }

  lemma SizeSpends(s: State, m: string, infoOk: bool, update: Option<string>, total: nat)
    requires Budget(s, total) && SizeOne(s, m, infoOk, update).Next?
    ensures Budget(SizeOne(s, m, infoOk, update).state, total)
    ensures Spends(s, SizeOne(s, m, infoOk, update).state, Size(m, infoOk, update))
  {
    SizeFrame(s, m, infoOk, update);
    RefreshBudget(s, SizeOne(s, m, infoOk, update).state, total);
  }

  lemma VisitSpends(s: State, m: string, update: Option<string>, total: nat)
    requires Index(s) && Budget(s, total) && VisitOne(s, m, update).Next?
    ensures Budget(VisitOne(s, m, update).state, total)
    ensures Spends(s, VisitOne(s, m, update).state, Visit(m, update))
  {
    assert Indexed(s.cfg, m, s.files[m]);
    VisitMoves(s, m, update);
    VisitBudget(s, VisitOne(s, m, update).state, m);
  }

  lemma SweepSpends(s: State, m: string, total: nat)
    requires Budget(s, total) && SweepOne(s, m).Next?
    ensures Budget(SweepOne(s, m).state, total) && Spends(s, SweepOne(s, m).state, Sweep(m))
  {
    SweepBudget(s, m);
  }

  lemma FinishSpends(s: State, total: nat)
    requires Budget(s, total) && DrainOne(s).Next?
    ensures Budget(DrainOne(s).state, total) && Spends(s, DrainOne(s).state, FinishOne)
  {
    FinishWork(s);
    DrainFrame(s);
    assert |s.files.Keys| == |DrainOne(s).state.files.Keys|;
  }

  lemma WorkerSpends(s: State, l: Label, total: nat)
    requires Budget(s, total) && WorkerLabel(l) && Do(s, l).Next?
    ensures Budget(Do(s, l).state, total) && Spends(s, Do(s, l).state, l)
  {
    WorkerStepWork(s, l);
    WorkerStep(s, l);
  }

  lemma LoadBudget(s: State, l: Label, total: nat)
    requires Shape(s) && Index(s) && Budget(s, total) && Do(s, l).Next?
    requires l.Visit? || l.VisitDone? || l.Sweep? || l.SweepDone? || l.Saved?
    ensures Budget(Do(s, l).state, total) && Spends(s, Do(s, l).state, l)
  {
    match l {
      case Visit(m, update) => VisitSpends(s, m, update, total);
      case Sweep(m) => SweepSpends(s, m, total);
      case VisitDone => LoadSpends(s, l, total);
      case SweepDone => LoadSpends(s, l, total);
      case Saved(ok) => SaveSpends(s, ok, total);
    }
  }

  lemma BudgetStep(s: State, l: Label, total: nat)
    requires Shape(s) && Index(s) && Budget(s, total) && BatchLabel(l) && Do(s, l).Next?
    ensures Budget(Do(s, l).state, total) && Spends(s, Do(s, l).state, l)
  {
    match l {
      case FinishOne => FinishSpends(s, total);
      case Size(m, infoOk, update) => SizeSpends(s, m, infoOk, update, total);
      case Tick => TickSpends(s, l, total);
      case DrainEnd(_) => TickSpends(s, l, total);
      case SizeDone => TickSpends(s, l, total);
      case Take(_) => WorkerSpends(s, l, total);
      case Process(_, _) => WorkerSpends(s, l, total);
      case Report(_) => WorkerSpends(s, l, total);
      case Visit(_, _) => LoadBudget(s, l, total);
      case VisitDone => LoadBudget(s, l, total);
      case Sweep(_) => LoadBudget(s, l, total);
      case SweepDone => LoadBudget(s, l, total);
      case Saved(_) => LoadBudget(s, l, total);
    }
  }

  // ---- Whole batches ----

  function Ticks(labels: seq<Label>): nat {
    if labels == [] then 0 else Ticks(labels[..|labels| - 1]) + (if labels[|labels| - 1].Tick? then 1 else 0)
  }

  // The steps other than those of a Refresh that finishes nothing.
  function Moves(labels: seq<Label>): nat {
    if labels == [] then 0
    else Moves(labels[..|labels| - 1]) + (if RefreshLabel(labels[|labels| - 1]) then 0 else 1)
  }

  // The Refresh that SetPool is followed by.
  function FirstRefresh(s: State): nat {
    if Stage(s.ctl) > 0 then |s.files| + 2 else 0
  }

  // The steps left to the next tick.
  function Left(s: State): nat {
    Productive(s) + RefreshLeft(s) + FirstRefresh(s)
  }

  lemma LeftStep(s: State, s': State, l: Label)
    requires Spends(s, s', l) && |s'.files| == |s.files| && (Stage(s.ctl) == 0 ==> Stage(s'.ctl) == 0)
    requires l.Saved? ==> Stage(s.ctl) > 0 && Stage(s'.ctl) == 0
    ensures Left(s') + 1 <= Left(s) + (if l.Tick? then |s.files| + 3 else 0)
  {
  }

  lemma StageStep(s: State, l: Label)
    requires BatchLabel(l) && Do(s, l).Next?
    ensures Stage(s.ctl) == 0 ==> Stage(Do(s, l).state.ctl) == 0
    ensures l.Saved? ==> Stage(s.ctl) > 0 && Stage(Do(s, l).state.ctl) == 0
  {
    match l {
      case Visit(_, _) =>
      case Sweep(_) =>
      case FinishOne => DrainFrame(s);
      case Size(m, infoOk, update) => SizeFrame(s, m, infoOk, update);
      case Take(_) => WorkerStep(s, l);
      case Process(_, _) => WorkerStep(s, l);
      case Report(_) => WorkerStep(s, l);
      case _ =>
    }
  }

  lemma BatchStep(s: State, plan: Plan, total: nat, l: Label)
    requires Rec(s, plan) && Budget(s, total) && BatchLabel(l) && Do(s, l).Next?
    ensures var s' := Do(s, l).state;
            && Rec(s', plan) && Budget(s', total) && Spends(s, s', l)
            && SameCapacities(s, s') && |s'.files| == |s.files| && |s'.workers| == |s.workers|
            && Left(s') + 1 <= Left(s) + (if l.Tick? then |s.files| + 3 else 0)
  {
    var s' := Do(s, l).state;
    RecStep(s, plan, l);
    BudgetStep(s, l, total);
    CapacitiesStep(s, l);
    StageStep(s, l);
    if WorkerLabel(l) { WorkerStep(s, l); } else { MainKept(s, l); }
    assert |s'.files.Keys| == |s'.files| && |s.files.Keys| == |s.files|;
    LeftStep(s, s', l);
  }

  // What holds at every point of a batch that started in s.
  ghost predicate Under(s: State, plan: Plan, total: nat, labels: seq<Label>, s': State) {
    && Rec(s', plan) && Budget(s', total)
    && SameCapacities(s, s') && |s'.files| == |s.files| && |s'.workers| == |s.workers|
    && Productive(s') + Moves(labels) <= Productive(s)
    && Left(s') + |labels| <= Left(s) + (|s.files| + 3) * Ticks(labels)
  }

  lemma UnderStep(s: State, plan: Plan, total: nat, labels: seq<Label>, s0: State, l: Label)
    requires Under(s, plan, total, labels, s0) && BatchLabel(l) && Do(s0, l).Next?
    ensures Under(s, plan, total, labels + [l], Do(s0, l).state)
  {
    BatchStep(s0, plan, total, l);
    TicksSnoc(labels, l, |s.files| + 3);
  }

  lemma TicksSnoc(labels: seq<Label>, l: Label, f: nat)
    ensures f * Ticks(labels + [l]) == f * Ticks(labels) + (if l.Tick? then f else 0)
    ensures Moves(labels + [l]) == Moves(labels) + (if RefreshLabel(l) then 0 else 1)
  {
    assert (labels + [l])[..|labels|] == labels;
    assert f * (Ticks(labels) + 1) == f * Ticks(labels) + f;
  }

  lemma {:induction false} BatchRun(s: State, plan: Plan, total: nat, labels: seq<Label>)
    requires Rec(s, plan) && Budget(s, total)
    requires forall i :: 0 <= i < |labels| ==> BatchLabel(labels[i])
    requires Run(s, labels).Next?
    ensures Under(s, plan, total, labels, Run(s, labels).state)
  {
    if labels != [] {
      var n := |labels| - 1;
      BatchRun(s, plan, total, labels[..n]);
      UnderStep(s, plan, total, labels[..n], Run(s, labels[..n]).state, labels[n]);
      assert labels == labels[..n] + [labels[n]];
    }
  }

  // ---- Where a batch starts ----

  // Nothing is left of a batch.
  predicate Quiet(s: State) {
    s.pending == [] && s.completed == [] && forall w :: 0 <= w < |s.workers| ==> s.workers[w].Idle?
  }

  // The jobs that reconciling the files with the volumes takes: creates for the
  // files without a volume, deletes for the volumes without a file.
  function BatchSize(s: State): nat {
    Difference(s.files.Keys, s.storage.Keys)
  }

  predicate Restful(s: State) {
    s.ctl == RepoModel.Loop && s.connected && Quiet(s)
  }

  // A pool whose volumes can all be listed and named is received at rest.
  ghost predicate Starts(s: State, listing: Listing) {
    && Inv(s) && AllKnown(s) && Restful(s) && Handles(s, listing) && listing.unnamed == map[]
  }

  // The state after the listing, and what the batch has to do.
  ghost function Started(s: State, listing: Listing): State
    requires Starts(s, listing)
  {
    SetPool(s, Some(listing)).state
  }

  ghost function PlanOf(s: State, listing: Listing): Plan {
    Plan(s.storage, listing.named)
  }

  ghost predicate Batch(s: State, listing: Listing, labels: seq<Label>) {
    && Starts(s, listing)
    && (forall i :: 0 <= i < |labels| ==> BatchLabel(labels[i]))
    && Run(Started(s, listing), labels).Next?
  }

  ghost function BatchState(s: State, listing: Listing, labels: seq<Label>): State
    requires Batch(s, listing, labels)
  {
    Run(Started(s, listing), labels).state
  }

  lemma StartBatch(s: State, listing: Listing)
    requires Starts(s, listing)
    ensures Rec(Started(s, listing), PlanOf(s, listing)) && Budget(Started(s, listing), BatchSize(s))
  {
    StartSound(s, listing);
    StartHandles(s, listing);
    StartFrame(s, listing);
    StartRec(s, Started(s, listing), listing);
  }

  lemma StartSound(s: State, listing: Listing)
    requires Starts(s, listing)
    ensures Inv(Started(s, listing))
  {
    var l := PoolReady(Some(listing));
    assert Do(s, l) == SetPool(s, Some(listing));
    StepKeepsInv(s, l);
  }

  lemma StartRec(s: State, s1: State, listing: Listing)
    requires Inv(s1) && AllKnown(s) && HandlesOk(s1, PlanOf(s, listing))
    requires && Quiet(s1) && s1.files == s.files && s1.storage == s.storage && listing.named.Keys == s.storage.Keys
             && s1.ctl.Visiting? && s1.ctl.todo == s.files.Keys && s1.ctl.listed == listing.named
    ensures Rec(s1, PlanOf(s, listing)) && Budget(s1, BatchSize(s))
  {
    var plan := PlanOf(s, listing);
    forall n ensures At(s1, plan, n) { StartAt(s1, plan, n); }
    CountZero(SlotBusy, (), s1.workers);
  }

  lemma StartFrame(s: State, listing: Listing)
    requires Restful(s) && Handles(s, listing) && listing.unnamed == map[]
    ensures var s1 := SetPool(s, Some(listing)).state;
            && Quiet(s1) && s1.files == s.files && s1.storage == s.storage && listing.named.Keys == s.storage.Keys
            && s1.ctl.Visiting? && s1.ctl.todo == s.files.Keys && s1.ctl.listed == listing.named
            && s1.workers == s.workers
  {
    assert listing.named.Keys + listing.unnamed.Keys == listing.named.Keys;
  }

  lemma StartAt(s: State, plan: Plan, n: string)
    requires Quiet(s) && s.ctl.Visiting? && s.ctl.todo == s.files.Keys && s.ctl.listed == plan.named
    requires plan.named.Keys == s.storage.Keys && plan.storage == s.storage
    ensures At(s, plan, n)
  {
    CountZero(SlotCreates, n, s.workers);
    if n in plan.named { CountZero(SlotDeletes, plan.named[n], s.workers); }
  }

  lemma StartHandles(s: State, listing: Listing)
    requires s.ctl == RepoModel.Loop && s.connected && Handles(s, listing) && listing.unnamed == map[]
    ensures HandlesOk(SetPool(s, Some(listing)).state, PlanOf(s, listing))
  {
    var s1 := SetPool(s, Some(listing)).state;
    assert listing.named.Keys == s.storage.Keys;
    assert NamesOf(listing.unnamed).Keys == {};
    forall n | n in listing.named
      ensures listing.named[n] in s1.volName && s1.volName[listing.named[n]] == n
    {
      D.ListedName(listing.named, n);
    }
  }

  lemma BatchUnder(s: State, listing: Listing, labels: seq<Label>)
    requires Batch(s, listing, labels)
    ensures Under(Started(s, listing), PlanOf(s, listing), BatchSize(s), labels, BatchState(s, listing, labels))
    ensures SameCapacities(s, BatchState(s, listing, labels)) && |BatchState(s, listing, labels).workers| == |s.workers|
  {
    StartBatch(s, listing);
    StartFrame(s, listing);
    BatchRun(Started(s, listing), PlanOf(s, listing), BatchSize(s), labels);
  }

  // ---- Where a batch ends ----

  // The main loop waits at a send on a full channel.
  ghost predicate AtSend(s: State) {
    exists l: Label :: (l.Visit? || l.Sweep?) && Do(s, l).Blocked?
  }

  // No worker can take a step, and the main loop waits at a send or rests in its
  // select with nothing to drain.
  ghost predicate Ended(s: State) {
    WorkersStuck(s) && (if Loading(s.ctl) then AtSend(s) else s.ctl.Loop? && s.completed == [])
  }

  // A send that waits is one of those that remain.
  lemma SendRemains(s: State)
    requires Index(s) && AtSend(s)
    ensures |s.pending| >= CAPACITY && Remaining(s) > 0 && Loading(s.ctl)
  {
    var l: Label :| (l.Visit? || l.Sweep?) && Do(s, l).Blocked?;
    if l.Visit? {
      assert Indexed(s.cfg, l.name, s.files[l.name]);
      assert l.name in s.ctl.todo - s.ctl.listed.Keys;
    } else {
      assert l.name in Listed(s).Keys - Todo(s);
    }
  }

  lemma SettledQuiet(s: State)
    requires Shape(s) && Settled(s) && s.completed == []
    ensures Quiet(s)
  {
    forall w | 0 <= w < |s.workers| ensures s.workers[w].Idle? {
      assert !s.workers[w].Holding? && !s.workers[w].Reporting?;
    }
    assert s.workers[0].Idle?;
  }

  // Whenever nothing is outstanding after loading, the volumes are the files.
  lemma QuietStorage(s: State, plan: Plan)
    requires Rec(s, plan) && Quiet(s) && !Loading(s.ctl)
    ensures s.storage.Keys == s.files.Keys
    ensures forall n :: n in s.storage ==>
              s.storage[n] == if n in plan.storage then plan.storage[n] else s.files[n].resource.value.capacity
  {
    forall n: string ensures n in s.storage <==> n in s.files
            ensures n in s.storage && n !in plan.storage ==> s.storage[n] == s.files[n].resource.value.capacity
    {
      assert At(s, plan, n);
      CountZero(SlotCreates, n, s.workers);
      if n in plan.named { CountZero(SlotDeletes, plan.named[n], s.workers); }
    }
    forall n | n in s.storage && n in plan.storage ensures s.storage[n] == plan.storage[n] { assert At(s, plan, n); }
  }

  // The volumes are the files, kept ones untouched and new ones as wanted.
  predicate Converged(s: State, s': State) {
    && AllKnown(s') && s'.storage.Keys == s'.files.Keys
    && forall n :: n in s'.storage ==>
         s'.storage[n] == if n in s.storage then s.storage[n] else s'.files[n].resource.value.capacity
  }

  // From a repository with no outstanding jobs, whatever the order in which the
  // maps are iterated, the workers run and refreshes come and go, and with every
  // job succeeding: whenever no job is outstanding after loading, the volumes are
  // exactly the files.
  lemma QuietConverges(s: State, listing: Listing, labels: seq<Label>)
    requires Batch(s, listing, labels)
    requires Quiet(BatchState(s, listing, labels)) && !Loading(BatchState(s, listing, labels).ctl)
    ensures BatchState(s, listing, labels).files.Keys == s.files.Keys && Converged(s, BatchState(s, listing, labels))
  {
    BatchUnder(s, listing, labels);
    QuietStorage(BatchState(s, listing, labels), PlanOf(s, listing));
  }

  lemma EndedExactly(s: State, plan: Plan, total: nat)
    requires Rec(s, plan) && Budget(s, total) && Ended(s)
    ensures if total <= Bound(s) then !Loading(s.ctl) && s.ctl.Loop? && Quiet(s)
            else Loading(s.ctl) && |s.pending| == CAPACITY && Unfinished(s) == Bound(s)
  {
    StuckExactly(s);
    SettledRoom(s);
    WorkBound(s);
    if Loading(s.ctl) { SendRemains(s); } else { SettledQuiet(s); }
  }

  // And such a run ends, if anywhere, by its size: a batch of at most 200 + W
  // jobs with the main loop at rest, nothing outstanding and the volumes being
  // exactly the files; a larger one with the main loop at a send that nothing
  // will ever accept.
  lemma ReconcilesExactly(s: State, listing: Listing, labels: seq<Label>)
    requires Batch(s, listing, labels) && Ended(BatchState(s, listing, labels))
    ensures var s' := BatchState(s, listing, labels);
            && s'.files.Keys == s.files.Keys
            && (BatchSize(s) <= Bound(s) ==> s'.ctl.Loop? && Quiet(s') && Converged(s, s'))
            && (BatchSize(s) > Bound(s) ==> Loading(s'.ctl) && |s'.pending| == CAPACITY && Unfinished(s') == Bound(s'))
  {
    BatchUnder(s, listing, labels);
    EndedExactly(BatchState(s, listing, labels), PlanOf(s, listing), BatchSize(s));
    if BatchSize(s) <= Bound(s) { QuietConverges(s, listing, labels); }
  }

  // A batch that is too large never gets past loading.
  lemma OversizedNeverLoads(s: State, listing: Listing, labels: seq<Label>)
    requires Batch(s, listing, labels) && BatchSize(s) > Bound(s)
    ensures Loading(BatchState(s, listing, labels).ctl)
  {
    BatchUnder(s, listing, labels);
  }

  // A run of a batch is bounded, apart from the refreshes that keep coming: so
  // many steps besides them, and one refresh's worth of steps for each tick.
  lemma BatchTerminates(s: State, listing: Listing, labels: seq<Label>)
    requires Batch(s, listing, labels)
    ensures Moves(labels) <= 5 * BatchSize(s) + |s.files| + 3
    ensures |labels| <= 5 * BatchSize(s) + 2 * |s.files| + 5 + (|s.files| + 3) * Ticks(labels)
  {
    BatchUnder(s, listing, labels);
    StartFrame(s, listing);
    StartLeft(s, Started(s, listing));
  }

  lemma StartLeft(s: State, s1: State)
    requires Quiet(s1) && s1.ctl.Visiting? && s1.ctl.todo == s.files.Keys && s1.ctl.listed.Keys == s.storage.Keys
    requires s1.files == s.files
    ensures Productive(s1) == 5 * BatchSize(s) + |s.files| + 3 && Left(s1) == Productive(s1) + |s.files| + 2
  {
    CountZero(SlotWork, (), s1.workers);
    assert |s.files.Keys| == |s.files|;
  }

  // Each name gets at most one job: a create exactly for a file that had no
  // volume, a delete exactly for a volume that had no file.
  lemma BatchTouchesEachNameOnce(s: State, listing: Listing, labels: seq<Label>, n: string)
    requires Batch(s, listing, labels)
    ensures var s', plan := BatchState(s, listing, labels), PlanOf(s, listing);
            && Creates(s', n) + Deletes(s', plan, n) <= 1
            && (Creates(s', n) > 0 ==> n in s.files && n !in s.storage)
            && (Deletes(s', plan, n) > 0 ==> n in s.storage && n !in s.files)
  {
    BatchUnder(s, listing, labels);
    StartFrame(s, listing);
    assert At(BatchState(s, listing, labels), PlanOf(s, listing), n);
  }

  // In particular an oversized batch that is stuck stays stuck.
  lemma OversizedBlocksForEver(s: State, listing: Listing, labels: seq<Label>, more: seq<Label>, job: Job)
    requires Batch(s, listing, labels) && Ended(BatchState(s, listing, labels)) && BatchSize(s) > Bound(s)
    requires forall i :: 0 <= i < |more| ==> WorkerLabel(more[i])
    requires Run(BatchState(s, listing, labels), more).Next?
    ensures Send(Run(BatchState(s, listing, labels), more).state, job).Blocked?
  {
    ReconcilesExactly(s, listing, labels);
    BatchUnder(s, listing, labels);
    BlockedForEver(BatchState(s, listing, labels), more, job);
  }

  // ---- Every batch can come to its end ----

  // Some steps of the batch that bring it closer to its end.
  ghost predicate GoesOn(s: State, plan: Plan, total: nat, labels: seq<Label>, s1: State) {
    && (forall i :: 0 <= i < |labels| ==> BatchLabel(labels[i]))
    && Run(s, labels) == Next(s1) && Rec(s1, plan) && Budget(s1, total)
    && (Productive(s1) < Productive(s) || (Productive(s1) == Productive(s) && RefreshLeft(s1) < RefreshLeft(s)))
  }

  lemma OneStepOn(s: State, plan: Plan, total: nat, l: Label)
    requires Rec(s, plan) && Budget(s, total) && BatchLabel(l) && !l.Tick? && Do(s, l).Next?
    ensures GoesOn(s, plan, total, [l], Do(s, l).state)
  {
    BatchStep(s, plan, total, l);
    GoesOne(s, plan, total, l, Do(s, l).state);
  }

  lemma GoesOne(s: State, plan: Plan, total: nat, l: Label, s1: State)
    requires BatchLabel(l) && !l.Tick? && Do(s, l) == Next(s1) && Rec(s1, plan) && Budget(s1, total)
    requires Productive(s1) < Productive(s) || (Productive(s1) == Productive(s) && RefreshLeft(s1) < RefreshLeft(s))
    ensures GoesOn(s, plan, total, [l], s1)
  {
    RunOne(s, l);
  }

  // A worker that is not stuck makes a step of the batch.
  lemma WorkerGoesOn(s: State, plan: Plan, total: nat) returns (labels: seq<Label>, s1: State)
    requires Rec(s, plan) && Budget(s, total) && !WorkersStuck(s)
    ensures GoesOn(s, plan, total, labels, s1)
  {
    var l: Label :| WorkerLabel(l) && Do(s, l).Next?;
    if l.Process? {
      HeldTarget(s, plan, l.w);
      NoBadHandle(s, Process(l.w, true));
      l := Process(l.w, true);
    }
    OneStepOn(s, plan, total, l);
    labels, s1 := [l], Do(s, l).state;
  }

  lemma VisitGoes(s: State, m: string)
    requires Inv(s) && AllKnown(s) && s.ctl.Visiting? && m in s.ctl.todo
    ensures Do(s, Visit(m, None)).Next? || Do(s, Visit(m, None)).Blocked?
  {
    NoBadHandle(s, Visit(m, None));
    PanicsExactly(s, Visit(m, None));
  }

  // The next step of loading, unless it is a send that waits.
  lemma LoadingGoesOn(s: State) returns (l: Label)
    requires Inv(s) && AllKnown(s) && Loading(s.ctl) && !AtSend(s)
    ensures BatchLabel(l) && !l.Tick? && Do(s, l).Next?
  {
    if s.ctl.Visiting? && s.ctl.todo != {} {
      var m :| m in s.ctl.todo;
      VisitGoes(s, m);
      l := Visit(m, None);
    } else if s.ctl.Sweeping? && s.ctl.listed != map[] {
      var m :| m in s.ctl.listed;
      l := Sweep(m);
    } else {
      l := if s.ctl.Visiting? then VisitDone else SweepDone;
    }
  }

  lemma SizeGoes(s: State, m: string)
    requires Inv(s) && AllKnown(s) && s.ctl.Sizing? && m in s.ctl.todo
    ensures Do(s, Size(m, true, Some(""))).Next?
  {
    NoBadHandle(s, Size(m, true, Some("")));
    PanicsExactly(s, Size(m, true, Some("")));
  }

  lemma ReturnGoes(s: State)
    requires Inv(s)
    ensures s.ctl.Draining? && s.completed == [] ==> Do(s, DrainEnd(true)).Next?
    ensures s.ctl.Sizing? && s.ctl.todo == {} ==> Do(s, SizeDone).Next?
    ensures s.ctl.Loaded? ==> Do(s, Saved(true)).Next?
  {
    NoBadHandle(s, DrainEnd(true));
    NoBadHandle(s, SizeDone);
    PanicsExactly(s, DrainEnd(true));
    PanicsExactly(s, SizeDone);
  }

  lemma FinishGoes(s: State)
    requires Inv(s) && AllKnown(s) && s.ctl.Draining? && s.completed != []
    ensures Do(s, FinishOne).Next?
  {
    NoBadHandle(s, FinishOne);
    PanicsExactly(s, FinishOne);
  }

  // The next step of a Refresh.
  lemma RefreshGoesOn(s: State) returns (l: Label)
    requires Inv(s) && AllKnown(s) && (s.ctl.Loaded? || s.ctl.Draining? || s.ctl.Sizing?)
    ensures BatchLabel(l) && !l.Tick? && Do(s, l).Next?
  {
    ReturnGoes(s);
    if s.ctl.Loaded? {
      l := Saved(true);
    } else if s.ctl.Draining? {
      if s.completed != [] { FinishGoes(s); }
      l := if s.completed != [] then FinishOne else DrainEnd(true);
    } else if s.ctl.todo != {} {
      var m :| m in s.ctl.todo;
      SizeGoes(s, m);
      l := Size(m, true, Some(""));
    } else {
      l := SizeDone;
    }
  }

  // At rest with completions, a tick brings a Refresh that finishes one.
  lemma TickGoesOn(s: State, plan: Plan, total: nat) returns (labels: seq<Label>, s1: State)
    requires Rec(s, plan) && Budget(s, total) && s.ctl.Loop? && s.completed != []
    ensures GoesOn(s, plan, total, labels, s1)
  {
    BatchStep(s, plan, total, Tick);
    var s0 := Do(s, Tick).state;
    FinishGoes(s0);
    BatchStep(s0, plan, total, FinishOne);
    labels, s1 := [Tick] + [FinishOne], Do(s0, FinishOne).state;
    RunThen(s, Tick, [FinishOne]);
    RunOne(s0, FinishOne);
  }

  lemma BatchGoesOn(s: State, plan: Plan, total: nat) returns (labels: seq<Label>, s1: State)
    requires Rec(s, plan) && Budget(s, total) && !Ended(s)
    ensures GoesOn(s, plan, total, labels, s1)
  {
    if !WorkersStuck(s) {
      labels, s1 := WorkerGoesOn(s, plan, total);
    } else if s.ctl.Loop? {
      labels, s1 := TickGoesOn(s, plan, total);
    } else {
      var l;
      if Loading(s.ctl) { l := LoadingGoesOn(s); } else { l := RefreshGoesOn(s); }
      OneStepOn(s, plan, total, l);
      labels, s1 := [l], Do(s, l).state;
    }
  }

  // From every point of a batch it can be run to an end.
  lemma {:induction false} BatchSettles(s: State, plan: Plan, total: nat) returns (labels: seq<Label>)
    requires Rec(s, plan) && Budget(s, total)
    ensures forall i :: 0 <= i < |labels| ==> BatchLabel(labels[i])
    ensures Run(s, labels).Next? && Ended(Run(s, labels).state)
    decreases Productive(s), RefreshLeft(s)
  {
    if Ended(s) {
      labels := [];
    } else {
      var first, s1 := BatchGoesOn(s, plan, total);
      var rest := BatchSettles(s1, plan, total);
      labels := first + rest;
      RunConcat(s, first, rest);
    }
  }

  lemma BatchCanFinish(s: State, listing: Listing, labels: seq<Label>) returns (more: seq<Label>)
    requires Batch(s, listing, labels)
    ensures Batch(s, listing, labels + more) && Ended(BatchState(s, listing, labels + more))
  {
    BatchUnder(s, listing, labels);
    more := BatchSettles(BatchState(s, listing, labels), PlanOf(s, listing), BatchSize(s));
    RunConcat(Started(s, listing), labels, more);
  }

  // Where a batch leads is a state that a run comes to.
  lemma ReachedBatch(s: State, listing: Listing, labels: seq<Label>)
    requires Reached(s) && Batch(s, listing, labels)
    ensures Reached(BatchState(s, listing, labels))
  {
    var l := PoolReady(Some(listing));
    assert Do(s, l) == SetPool(s, Some(listing));
    RunThen(s, l, labels);
    ReachedOn(s, [l] + labels);
  }
}
