// The phases of the files during a reconciliation: a visited file is pending
// exactly while its create is under way, and in the end every file is available
// with a volume of its own name.
module RepoAvailable {
  import opened Common
  import opened RepoModel
  import opened RepoHandles
  import opened RepoInvariant
  import opened RepoQueues
  import opened RepoReconcile
  import opened RepoCompletions
  import D = RepoDenotes

  // ---- Creates under way, by the identity of their file ----

  function ForFile(j: Job, id: nat): nat { One(j.Create? && j.file == id) }

  function DoneFor(d: Done, id: nat): nat { ForFile(d.job, id) }

  function SlotFor(slot: Slot, id: nat): nat {
    match slot
    case Idle => 0
    case Holding(job) => ForFile(job, id)
    case Reporting(done) => DoneFor(done, id)
  }

  function Expected(s: State, id: nat): nat {
    Count(ForFile, id, s.pending) + Count(SlotFor, id, s.workers) + Count(DoneFor, id, s.completed)
  }

  // Every create that was processed has succeeded.
  predicate Succeeded(d: Done) {
    d.job.Create? ==> d.result.Some?
  }

  predicate DonesGood(s: State) {
    && (forall i :: 0 <= i < |s.completed| ==> Succeeded(s.completed[i]))
    && (forall w :: 0 <= w < |s.workers| && s.workers[w].Reporting? ==> Succeeded(s.workers[w].done))
  }

  predicate ServedEntry(e: Entry, todo: bool, expected: nat) {
    if todo then e.vol.None? && expected == 0
    else
      && e.resource.Some?
      && (e.vol.Some? ==> e.resource.value.phase.Available?)
      && (e.vol.None? ==> e.resource.value.phase.Pending? && expected > 0)
  }

  predicate Served(s: State, n: string) {
    n in s.files ==> ServedEntry(s.files[n], n in Todo(s), Expected(s, s.files[n].id))
  }

  ghost predicate Serving(s: State) {
    Index(s) && AllKnown(s) && DonesGood(s) && forall n :: Served(s, n)
  }

  // The information of every volume can be read.
  predicate Readable(l: Label) {
    l.Size? ==> l.infoOk
  }

  // ---- Steps of the batch ----

  lemma VisitServes(s: State, m: string, update: Option<string>, n: string)
    requires Index(s) && Served(s, n) && VisitOne(s, m, update).Next?
    ensures Served(VisitOne(s, m, update).state, n)
  {
    assert Indexed(s.cfg, m, s.files[m]);
    if n in s.files && m !in s.ctl.listed {
      var s' := VisitOne(s, m, update).state;
      CountSnoc(ForFile, s.files[n].id, s.pending, s'.submitted[|s.submitted|]);
    }
  }

  lemma SweepServes(s: State, m: string, n: string)
    requires Served(s, n) && SweepOne(s, m).Next?
    ensures Served(SweepOne(s, m).state, n)
  {
    if n in s.files {
      CountSnoc(ForFile, s.files[n].id, s.pending, Delete(|s.submitted|, s.ctl.listed[m]));
    }
  }

  lemma FinishServes(s: State, n: string)
    requires Serving(s) && DrainOne(s).Next?
    ensures Served(DrainOne(s).state, n)
  {
    DrainFrame(s);
    assert Served(s, n);
    if n in s.files {
      var d := s.completed[0];
      FinishOneEntry(s.(completed := s.completed[1..], finished := s.finished + [d]), d, n);
    }
  }

  lemma SizeServes(s: State, m: string, update: Option<string>, n: string)
    requires Served(s, n) && SizeOne(s, m, true, update).Next? && update.Some?
    ensures Served(SizeOne(s, m, true, update).state, n)
  {
    SizeFrame(s, m, true, update);
  }

  lemma WorkerServes(s: State, s': State, l: Label, n: string)
    requires Served(s, n) && WorkerMove(s, s', l) && WorkerFrame(s, s')
    ensures Served(s', n)
  {
    if n in s.files {
      var id: nat := s.files[n].id;
      CountUpdate(SlotFor, id, s.workers, l.w, s'.workers[l.w]);
      if l.Report? { CountSnoc(DoneFor, id, s.completed, s.workers[l.w].done); }
    }
  }

  lemma TurnServes(s: State, l: Label, n: string)
    requires Served(s, n) && Turn(l) && BatchLabel(l) && Do(s, l).Next?
    ensures Served(Do(s, l).state, n)
  {
    TurnStep(s, l, s.nextPool);
    TurnTodo(s, l);
  }

  lemma ServedStep(s: State, l: Label, n: string)
    requires Serving(s) && BatchLabel(l) && Readable(l) && Do(s, l).Next?
    ensures Served(Do(s, l).state, n)
  {
    assert Served(s, n);
    match l {
      case Visit(m, update) => VisitServes(s, m, update, n);
      case Sweep(m) => SweepServes(s, m, n);
      case FinishOne => FinishServes(s, n);
      case Size(m, infoOk, update) => SizeServes(s, m, update, n);
      case Take(_) => WorkerStep(s, l); WorkerServes(s, Do(s, l).state, l, n);
      case Process(_, _) => WorkerStep(s, l); WorkerServes(s, Do(s, l).state, l, n);
      case Report(_) => WorkerStep(s, l); WorkerServes(s, Do(s, l).state, l, n);
      case _ => TurnServes(s, l, n);
    }
  }

  lemma ProcessSucceeds(s: State, w: nat)
    requires ProcessJob(s, w, true).Next?
    ensures Succeeded(ProcessJob(s, w, true).state.workers[w].done)
  {
  }

  lemma DonesStep(s: State, l: Label)
    requires DonesGood(s) && BatchLabel(l) && Do(s, l).Next?
    ensures DonesGood(Do(s, l).state)
  {
    if WorkerLabel(l) {
      WorkerStep(s, l);
      if l.Process? { ProcessSucceeds(s, l.w); }
    } else {
      MainKept(s, l);
    }
  }

  lemma ServingStep(s: State, l: Label)
    requires Serving(s) && BatchLabel(l) && Readable(l) && Do(s, l).Next?
    ensures Serving(Do(s, l).state)
  {
    if WorkerLabel(l) { WorkerStep(s, l); WorkerFrameKeeps(s, Do(s, l).state); } else { MainKept(s, l); }
    KnownStep(s, l);
    DonesStep(s, l);
    forall n ensures Served(Do(s, l).state, n) { ServedStep(s, l, n); }
  }

  lemma {:induction false} ServingOverRuns(s: State, labels: seq<Label>)
    requires Serving(s) && Run(s, labels).Next?
    requires forall i :: 0 <= i < |labels| ==> BatchLabel(labels[i]) && Readable(labels[i])
    ensures Serving(Run(s, labels).state)
  {
    if labels != [] {
      var n := |labels| - 1;
      ServingOverRuns(s, labels[..n]);
      ServingStep(Run(s, labels[..n]).state, labels[n]);
    }
  }

  // ---- The whole batch ----

  predicate NoVolumes(s: State) {
    forall n :: n in s.files ==> s.files[n].vol.None?
  }

  lemma StartServing(s: State, s1: State)
    requires Index(s1) && AllKnown(s1) && NoVolumes(s) && Quiet(s1) && s1.files == s.files
    requires s1.ctl.Visiting? && s1.ctl.todo == s.files.Keys
    ensures Serving(s1)
  {
    forall n ensures Served(s1, n) {
      if n in s1.files { CountZero(SlotFor, s1.files[n].id, s1.workers); }
    }
  }

  // A batch that starts without volumes and in which every volume can be read.
  ghost predicate ReadableBatch(s: State, listing: Listing, labels: seq<Label>) {
    Batch(s, listing, labels) && NoVolumes(s) && forall i :: 0 <= i < |labels| ==> Readable(labels[i])
  }

  // At every point of it: a file still to be visited has no create under way, and
  // a visited one is pending while one is and available, with its volume,
  // afterwards.
  lemma PhasesDuringBatch(s: State, listing: Listing, labels: seq<Label>, n: string)
    requires ReadableBatch(s, listing, labels)
    ensures var s' := BatchState(s, listing, labels); Serving(s') && Served(s', n)
  {
    StartBatch(s, listing);
    StartFrame(s, listing);
    StartServing(s, Started(s, listing));
    ServingOverRuns(Started(s, listing), labels);
  }

  lemma QuietServed(s: State, n: string)
    requires Quiet(s) && Served(s, n) && Todo(s) == {} && n in s.files
    ensures s.files[n].resource.Some? && s.files[n].resource.value.phase.Available? && s.files[n].vol.Some?
  {
    CountZero(SlotFor, s.files[n].id, s.workers);
  }

  // Whenever no job is outstanding after loading, every file is available, with a
  // handle that denotes the volume of its name.
  lemma AllAvailable(s: State, listing: Listing, labels: seq<Label>, n: string)
    requires Reached(s) && ReadableBatch(s, listing, labels) && n in s.files
    requires Quiet(BatchState(s, listing, labels)) && !Loading(BatchState(s, listing, labels).ctl)
    ensures var s' := BatchState(s, listing, labels);
            && n in s'.files && s'.files[n].resource.Some? && s'.files[n].resource.value.phase.Available?
            && s'.files[n].vol.Some? && D.Named(s', s'.files[n].vol.value, n)
  {
    PhasesDuringBatch(s, listing, labels, n);
    QuietConverges(s, listing, labels);
    QuietServed(BatchState(s, listing, labels), n);
    ReachedBatch(s, listing, labels);
    D.ReachedDenotes(BatchState(s, listing, labels));
  }
}
