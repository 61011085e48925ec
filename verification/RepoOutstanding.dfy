// The jobs that are queued or held by a worker: what they will do to each
// volume, and when the interleaving of the workers cannot matter.
module RepoOutstanding {
  import opened Common
  import opened RepoModel
  import opened RepoHandles
  import opened RepoInvariant
  import opened RepoDenotes
  import opened RepoQueues
  import opened RepoSequential

  predicate Out(s: State, j: Job) {
    j in s.pending || Holding(j) in s.workers
  }

  function Target(s: State, j: Job): string {
    TargetOf(s.volName, j)
  }

  ghost predicate Busy(s: State, n: string) {
    exists j :: Out(s, j) && Target(s, j) == n
  }

  // At most one job is outstanding for each volume.
  ghost predicate Solo(s: State) {
    forall j, k :: Out(s, j) && Out(s, k) && Target(s, j) == Target(s, k) ==> j == k
  }

  // What a successful job leaves of its volume.
  function Effect(j: Job): Option<nat> {
    match j
    case Create(_, _, _, _, _, capacity) => Some(capacity)
    case Resize(_, _, size, _) => Some(size)
    case Delete(_, _) => None
  }

  // The last job on a volume that succeeded.
  function Latest(log: seq<Processed>, n: string): Option<Job> {
    if log == [] then None
    else
      var p := log[|log| - 1];
      if p.ok && p.name == n then Some(p.job) else Latest(log[..|log| - 1], n)
  }

  lemma {:induction false} ExecLatest(storage: map<string, nat>, log: seq<Processed>, n: string)
    ensures Lookup(ExecAll(storage, log), n)
         == match Latest(log, n) case None => Lookup(storage, n) case Some(job) => Effect(job)
  {
    if log != [] {
      ExecLatest(storage, log[..|log| - 1], n);
      ApplyEffect(ExecAll(storage, log[..|log| - 1]), log[|log| - 1], n);
    }
  }

  lemma ApplyEffect(storage: map<string, nat>, p: Processed, n: string)
    ensures Lookup(Apply(storage, p), n) == if p.ok && p.name == n then Effect(p.job) else Lookup(storage, n)
  {
  }

  // Over every run: a volume is as the last job on it that succeeded left it;
  // jobs that failed, and jobs on other volumes, leave it alone.
  lemma LatestJobDecides(s: State, labels: seq<Label>, n: string)
    requires Run(s, labels).Next?
    ensures var s' := Run(s, labels).state;
            && s.log <= s'.log
            && Lookup(s'.storage, n)
               == match Latest(s'.log[|s.log|..], n) case None => Lookup(s.storage, n) case Some(job) => Effect(job)
  {
    StorageReplaysLog(s, labels);
    ExecLatest(s.storage, Run(s, labels).state.log[|s.log|..], n);
  }

  // What the outstanding jobs will make of a volume, in whatever order.
  ghost predicate Due(s: State, n: string, v: Option<nat>) {
    && (forall j :: Out(s, j) && Target(s, j) == n ==> Effect(j) == v)
    && (!Busy(s, n) ==> Lookup(s.storage, n) == v)
  }

  // ---- Outstanding jobs are different, and older ones are held ----

  predicate PendingOrdered(s: State) {
    && (forall i, k :: 0 <= i < k < |s.pending| ==> s.pending[i].id < s.pending[k].id)
    && (forall i :: 0 <= i < |s.pending| ==> s.pending[i].id < |s.submitted|)
  }

  predicate HeldOrdered(s: State) {
    && (forall w :: 0 <= w < |s.workers| && s.workers[w].Holding? ==> s.workers[w].job.id < |s.submitted|)
    && (forall w, i :: 0 <= w < |s.workers| && s.workers[w].Holding? && 0 <= i < |s.pending| ==>
          s.workers[w].job.id < s.pending[i].id)
    && (forall v, w :: 0 <= v < w < |s.workers| && s.workers[v].Holding? && s.workers[w].Holding? ==>
          s.workers[v].job.id != s.workers[w].job.id)
  }

  predicate Ordered(s: State) {
    PendingOrdered(s) && HeldOrdered(s)
  }

  lemma OrderedMain(s: State, s': State)
    requires Ordered(s) && MainFrame(s, s')
    ensures Ordered(s')
  {
  }

  lemma OrderedWorker(s: State, s': State, l: Label)
    requires Ordered(s) && WorkerMove(s, s', l) && s'.submitted == s.submitted
    ensures Ordered(s')
  {
  }

  lemma OrderedStep(s: State, l: Label)
    requires Ordered(s) && Do(s, l).Next?
    ensures Ordered(Do(s, l).state)
  {
    if WorkerLabel(l) {
      WorkerStep(s, l);
      OrderedWorker(s, Do(s, l).state, l);
    } else {
      MainKept(s, l);
      OrderedMain(s, Do(s, l).state);
    }
  }

  lemma {:induction false} OrderedOverRuns(s: State, labels: seq<Label>)
    requires Ordered(s) && Run(s, labels).Next?
    ensures Ordered(Run(s, labels).state)
  {
    if labels != [] {
      OrderedOverRuns(s, labels[..|labels| - 1]);
      OrderedStep(Run(s, labels[..|labels| - 1]).state, labels[|labels| - 1]);
    }
  }

  lemma ReachedOrdered(s: State)
    requires Reached(s)
    ensures Ordered(s)
  {
    var cfg: Config, items: seq<Resource>, storage: map<string, nat>, labels: seq<Label>
      :| cfg.workers <= 255 && Run(Init(cfg, items, storage), labels) == Next(s);
    OrderedOverRuns(Init(cfg, items, storage), labels);
  }

  // ---- How a step changes what is outstanding ----

  lemma TakeOut(s: State, s': State, w: nat, j: Job)
    requires w < |s.workers| && s.workers[w].Idle? && s.pending != []
    requires s'.workers == s.workers[w := Holding(s.pending[0])] && s'.pending == s.pending[1..]
    ensures Out(s', j) <==> Out(s, j)
  {
    assert s.pending == [s.pending[0]] + s.pending[1..];
    if Holding(j) in s.workers {
      var v :| 0 <= v < |s.workers| && s.workers[v] == Holding(j);
      assert s'.workers[v] == Holding(j);
    }
    if j == s.pending[0] { assert s'.workers[w] == Holding(j); }
  }

  lemma ProcessOut(s: State, s': State, w: nat, j: Job)
    requires Ordered(s) && w < |s.workers| && s.workers[w].Holding?
    requires |s'.workers| == |s.workers| && s'.workers[w].Reporting?
    requires s'.workers == s.workers[w := s'.workers[w]] && s'.pending == s.pending
    ensures Out(s', j) <==> Out(s, j) && j != s.workers[w].job
  {
    if Holding(j) in s.workers && j != s.workers[w].job {
      var v :| 0 <= v < |s.workers| && s.workers[v] == Holding(j);
      assert s'.workers[v] == Holding(j);
    }
    if Holding(j) in s'.workers {
      var v :| 0 <= v < |s.workers| && s'.workers[v] == Holding(j);
      assert s.workers[v] == Holding(j) && v != w;
    }
  }

  lemma ReportOut(s: State, s': State, w: nat, j: Job)
    requires w < |s.workers| && s.workers[w].Reporting? && s'.workers == s.workers[w := Idle] && s'.pending == s.pending
    ensures Out(s', j) <==> Out(s, j)
  {
    if Holding(j) in s.workers {
      var v :| 0 <= v < |s.workers| && s.workers[v] == Holding(j);
      assert s'.workers[v] == Holding(j);
    }
  }

  // The job that a step of a worker processes.
  predicate Processes(s: State, l: Label, j: Job) {
    l.Process? && l.w < |s.workers| && s.workers[l.w] == Holding(j)
  }

  lemma WorkerOut(s: State, l: Label, j: Job)
    requires Ordered(s) && WorkerLabel(l) && Do(s, l).Next?
    ensures Out(Do(s, l).state, j) <==> Out(s, j) && !Processes(s, l, j)
    ensures Processes(s, l, j) ==> Out(s, j)
  {
    WorkerStep(s, l);
    match l {
      case Take(w) => TakeOut(s, Do(s, l).state, w, j);
      case Process(w, _) => ProcessOut(s, Do(s, l).state, w, j);
      case Report(w) => ReportOut(s, Do(s, l).state, w, j);
    }
  }

  predicate Sends(s: State, s': State, j: Job) {
    |s'.submitted| == |s.submitted| + 1 && s'.submitted[|s.submitted|] == j
  }

  lemma MainOut(s: State, l: Label, j: Job)
    requires !WorkerLabel(l) && Do(s, l).Next?
    ensures Out(Do(s, l).state, j) <==> Out(s, j) || Sends(s, Do(s, l).state, j)
  {
    MainKept(s, l);
  }

  // Known handles keep their names, so outstanding jobs keep their targets.
  lemma OutKnown(s: State, j: Job)
    requires QueuesOk(s) && Out(s, j)
    ensures OutstandingOk(s, j)
  {
    if Holding(j) in s.workers {
      var w :| 0 <= w < |s.workers| && s.workers[w] == Holding(j);
    }
  }

  lemma TargetStays(s: State, l: Label, j: Job)
    requires QueuesOk(s) && Out(s, j) && Do(s, l).Next?
    ensures Target(Do(s, l).state, j) == Target(s, j)
  {
    OutKnown(s, j);
    NamesStep(s, l);
  }

  // ---- Which steps queue a job, and for which volume ----

  predicate Queues(s: State, l: Label) {
    match l
    case Added(file, _) => file.repoName == s.cfg.repoName && VolKey(s.cfg, file.name) !in s.files
    case Modified(file) =>
      var n := VolKey(s.cfg, file.name);
      && file.repoName == s.cfg.repoName && n in s.files && s.files[n].resource.Some?
      && file.version != s.files[n].resource.value.version && file.capacity != s.files[n].resource.value.capacity
    case Deleted(file) =>
      var n := VolKey(s.cfg, file.name);
      file.repoName == s.cfg.repoName && n in s.files && s.files[n].vol.Some?
    case Visit(n, _) => n !in ListedOf(s.ctl)
    case Sweep(_) => true
    case _ => false
  }

  function JobName(s: State, l: Label): string {
    match l
    case Added(file, _) => VolKey(s.cfg, file.name)
    case Modified(file) => VolKey(s.cfg, file.name)
    case Deleted(file) => VolKey(s.cfg, file.name)
    case Visit(n, _) => n
    case Sweep(n) => n
    case _ => ""
  }

  // A step queues no job for a volume that has an outstanding one.
  ghost predicate Calm(s: State, l: Label) {
    Queues(s, l) ==> !Busy(s, JobName(s, l))
  }

  // The steps that queue a job are these, and the job is for that volume.
  predicate QueuesOne(s: State, s': State, l: Label) {
    && (|s'.submitted| == |s.submitted| + 1 <==> Queues(s, l))
    && (Queues(s, l) ==> Target(s', s'.submitted[|s.submitted|]) == JobName(s, l))
  }

  lemma AddQueues(s: State, file: Resource, update: Option<string>)
    requires AddFile(s, file, update).Next?
    ensures QueuesOne(s, AddFile(s, file, update).state, Added(file, update))
  {
  }

  lemma ModifyQueues(s: State, file: Resource)
    requires EntriesOk(s) && ModifyFile(s, file).Next?
    ensures QueuesOne(s, ModifyFile(s, file).state, Modified(file))
  {
  }

  lemma DeleteQueues(s: State, file: Resource)
    requires EntriesOk(s) && DeleteFile(s, file).Next?
    ensures QueuesOne(s, DeleteFile(s, file).state, Deleted(file))
  {
  }

  lemma VisitQueues(s: State, name: string, update: Option<string>)
    requires Index(s) && VisitOne(s, name, update).Next?
    ensures QueuesOne(s, VisitOne(s, name, update).state, Visit(name, update))
  {
    assert Indexed(s.cfg, name, s.files[name]);
  }

  lemma SweepQueues(s: State, name: string)
    requires ListedOk(s) && SweepOne(s, name).Next?
    ensures QueuesOne(s, SweepOne(s, name).state, Sweep(name))
  {
    assert Named(s, ListedOf(s.ctl)[name], name);
  }

  lemma OthersQueueNothing(s: State, l: Label)
    requires !WorkerLabel(l) && Do(s, l).Next?
    requires !l.Added? && !l.Modified? && !l.Deleted? && !l.Visit? && !l.Sweep?
    ensures QueuesOne(s, Do(s, l).state, l)
  {
    match l {
      case FinishOne => DrainFrame(s);
      case UnsetFile(name) =>
      case PoolReady(_) =>
      case Size(_, _, _) =>
      case _ => TurnStep(s, l, s.nextVol);
    }
  }

  lemma QueuesExactly(s: State, l: Label)
    requires Index(s) && Denotes(s) && !WorkerLabel(l) && Do(s, l).Next?
    ensures QueuesOne(s, Do(s, l).state, l)
  {
    match l {
      case Added(file, update) => AddQueues(s, file, update);
      case Modified(file) => ModifyQueues(s, file);
      case Deleted(file) => DeleteQueues(s, file);
      case Visit(name, update) => VisitQueues(s, name, update);
      case Sweep(name) => SweepQueues(s, name);
      case _ => OthersQueueNothing(s, l);
    }
  }

  // ---- One job for each volume ----

  predicate Sound(s: State) {
    Index(s) && Denotes(s) && Ordered(s)
  }

  lemma SoundStep(s: State, l: Label)
    requires Inv(s) && Sound(s) && Do(s, l).Next?
    ensures Sound(Do(s, l).state)
  {
    StepKeepsInv(s, l);
    DenotesStep(s, l);
    OrderedStep(s, l);
  }

  lemma SoloWorker(s: State, l: Label)
    requires Sound(s) && Solo(s) && WorkerLabel(l) && Do(s, l).Next?
    ensures Solo(Do(s, l).state)
  {
    var s' := Do(s, l).state;
    forall j, k | Out(s', j) && Out(s', k) && Target(s', j) == Target(s', k) ensures j == k {
      WorkerOut(s, l, j);
      WorkerOut(s, l, k);
      TargetStays(s, l, j);
      TargetStays(s, l, k);
    }
  }

  lemma SoloMain(s: State, l: Label)
    requires Sound(s) && Solo(s) && Calm(s, l) && !WorkerLabel(l) && Do(s, l).Next?
    ensures Solo(Do(s, l).state)
  {
    var s' := Do(s, l).state;
    QueuesExactly(s, l);
    forall j, k | Out(s', j) && Out(s', k) && Target(s', j) == Target(s', k) ensures j == k {
      MainOut(s, l, j);
      MainOut(s, l, k);
      if Out(s, j) { TargetStays(s, l, j); }
      if Out(s, k) { TargetStays(s, l, k); }
    }
  }

  lemma SoloStep(s: State, l: Label)
    requires Sound(s) && Solo(s) && Calm(s, l) && Do(s, l).Next?
    ensures Solo(Do(s, l).state)
  {
    if WorkerLabel(l) { SoloWorker(s, l); } else { SoloMain(s, l); }
  }

  // ---- Then the interleaving cannot matter ----

  ghost predicate AllCalm(s: State, labels: seq<Label>) {
    forall i :: 0 <= i < |labels| ==> Run(s, labels[..i]).Next? ==> Calm(Run(s, labels[..i]).state, labels[i])
  }

  lemma CalmPrefix(s: State, labels: seq<Label>)
    requires labels != [] && AllCalm(s, labels)
    ensures AllCalm(s, labels[..|labels| - 1])
    ensures Run(s, labels[..|labels| - 1]).Next? ==>
              Calm(Run(s, labels[..|labels| - 1]).state, labels[|labels| - 1])
  {
    var k := |labels| - 1;
    assert forall i :: 0 <= i < k ==> labels[..k][..i] == labels[..i];
  }

  // From position k on, jobs on a volume were processed in order, and those
  // outstanding for it are younger.
  ghost predicate InOrderSince(s: State, k: nat) {
    && k <= |s.log| && InOrder(s.log[k..])
    && (forall i :: k <= i < |s.log| ==> s.log[i].job.id < |s.submitted|)
    && forall i, j :: k <= i < |s.log| && Out(s, j) && Target(s, j) == s.log[i].name ==> s.log[i].job.id < j.id
  }

  lemma InOrderMain(s: State, l: Label, k: nat)
    requires Sound(s) && Shape(s) && InOrderSince(s, k) && !WorkerLabel(l) && Do(s, l).Next?
    ensures InOrderSince(Do(s, l).state, k)
  {
    var s' := Do(s, l).state;
    MainKept(s, l);
    forall i, j | k <= i < |s'.log| && Out(s', j) && Target(s', j) == s'.log[i].name ensures s'.log[i].job.id < j.id {
      MainOut(s, l, j);
      if Out(s, j) { TargetStays(s, l, j); }
    }
  }

  lemma InOrderLog(s: State, l: Label, k: nat)
    requires Sound(s) && Solo(s) && InOrderSince(s, k) && WorkerLabel(l) && Do(s, l).Next?
    ensures var s' := Do(s, l).state;
            && k <= |s'.log| && InOrder(s'.log[k..])
            && forall i :: k <= i < |s'.log| ==> s'.log[i].job.id < |s'.submitted|
  {
    var s' := Do(s, l).state;
    WorkerStep(s, l);
    if l.Process? {
      var job := s.workers[l.w].job;
      WorkerOut(s, l, job);
      assert s'.log[k..] == s.log[k..] + [s'.log[|s.log|]];
      assert forall i :: k <= i < |s.log| ==> s.log[k..][i - k] == s.log[i];
    }
  }

  lemma InOrderWorker(s: State, l: Label, k: nat)
    requires Sound(s) && Solo(s) && InOrderSince(s, k) && WorkerLabel(l) && Do(s, l).Next?
    ensures InOrderSince(Do(s, l).state, k)
  {
    var s' := Do(s, l).state;
    WorkerStep(s, l);
    InOrderLog(s, l, k);
    if l.Process? { WorkerOut(s, l, s.workers[l.w].job); }
    forall i, j | k <= i < |s'.log| && Out(s', j) && Target(s', j) == s'.log[i].name ensures s'.log[i].job.id < j.id {
      WorkerOut(s, l, j);
      TargetStays(s, l, j);
    }
  }

  lemma {:induction false} CalmOverRuns(s: State, labels: seq<Label>)
    requires Inv(s) && Sound(s) && Solo(s) && AllCalm(s, labels) && Run(s, labels).Next?
    ensures var s' := Run(s, labels).state;
            && Inv(s') && Sound(s') && Solo(s') && |s.log| <= |s'.log| && InOrderSince(s', |s.log|)
  {
    if labels != [] {
      var n := |labels| - 1;
      CalmPrefix(s, labels);
      CalmOverRuns(s, labels[..n]);
      var s0 := Run(s, labels[..n]).state;
      CalmStep(s0, labels[n], |s.log|);
    }
  }

  lemma CalmStep(s: State, l: Label, k: nat)
    requires Inv(s) && Sound(s) && Solo(s) && InOrderSince(s, k) && Calm(s, l) && Do(s, l).Next?
    ensures var s' := Do(s, l).state; Inv(s') && Sound(s') && Solo(s') && InOrderSince(s', k)
  {
    StepKeepsInv(s, l);
    SoundStep(s, l);
    SoloStep(s, l);
    if WorkerLabel(l) { InOrderWorker(s, l, k); } else { InOrderMain(s, l, k); }
  }

  // With any number of workers: as long as no job is queued for a volume that
  // has an outstanding one, the storage is what executing the processed jobs in
  // the order of submission leaves.
  lemma CalmRunsAreSequential(s: State, labels: seq<Label>)
    requires Reached(s) && Solo(s) && AllCalm(s, labels) && Run(s, labels).Next?
    ensures var s' := Run(s, labels).state;
            && s.log <= s'.log
            && s'.storage == ExecAll(s.storage, InSubmissionOrder(s'.submitted, s'.log[|s.log|..]))
  {
    ReachedInv(s);
    ReachedDenotes(s);
    ReachedOrdered(s);
    CalmOverRuns(s, labels);
    AnyInterleavingIsSequential(s, labels);
  }
}
