// What every step of the main loop and of the workers keeps, over all runs.
module RepoInvariant {
  import opened Common
  import opened RepoModel
  import opened RepoHandles

  // Channel bounds, worker count, and job identities in order of submission.
  predicate Shape(s: State) {
    && s.cfg.workers <= 255
    && |s.workers| == WorkerCount(s.cfg)
    && |s.pending| <= CAPACITY && |s.completed| <= CAPACITY
    && (forall i :: 0 <= i < |s.submitted| ==> s.submitted[i].id == i)
    && (forall i :: 0 <= i < |s.completed| ==> WellDone(s.completed[i]))
    && (forall w :: 0 <= w < |s.workers| && s.workers[w].Reporting? ==> WellDone(s.workers[w].done))
  }

  // A known resource belongs to this repository and has its entry's key.
  predicate Indexed(cfg: Config, name: string, e: Entry) {
    e.resource.Some? ==> VolKey(cfg, e.resource.value.name) == name && e.resource.value.repoName == cfg.repoName
  }

  // Every key is the volume name of its resource, and no two keys share an entry.
  predicate Index(s: State) {
    && (forall n :: n in s.files ==> Indexed(s.cfg, n, s.files[n]) && s.files[n].id < s.nextFile)
    && (forall m, n :: m in s.files && n in s.files && s.files[m].id == s.files[n].id ==> m == n)
  }

  predicate AfterOk(s: State, after: After) {
    match after
    case ToLoop => true
    case ReleasePool(p) => s.connected && s.pool == Some(p)
    case CloseConn => s.connected && s.pool.None?
  }

  // What holds at each point of the main loop; in particular a pool is held only
  // while connected.
  predicate Control(s: State) {
    && (s.pool.Some? ==> s.connected)
    && match s.ctl
       case Loop => true
       case Visiting(arm, todo, _) => s.connected && s.pool == Some(arm) && todo <= s.files.Keys
       case Sweeping(arm, _) => s.connected && s.pool == Some(arm)
       case Loaded(arm) => s.connected && s.pool == Some(arm)
       case Unsetting(todo) => s.connected && s.pool.None? && todo <= s.files.Keys
       case Draining(after) => AfterOk(s, after)
       case Sizing(after, todo) => AfterOk(s, after) && s.pool.Some? && todo <= s.files.Keys
  }

  ghost predicate Counted(s: State) {
    forall h: nat :: Accounted(s, h)
  }

  ghost predicate Inv(s: State) {
    Shape(s) && Index(s) && Control(s) && Counted(s)
  }

  lemma CountedStep(s: State, l: Label)
    requires Shape(s) && Counted(s) && Do(s, l).Next?
    ensures Counted(Do(s, l).state)
  {
    forall h: nat ensures Accounted(Do(s, l).state, h) {
      assert Accounted(s, h);
      AccountedStep(s, l, h);
    }
  }

  lemma AccountedStep(s: State, l: Label, h: nat)
    requires Shape(s) && Accounted(s, h) && Do(s, l).Next?
    ensures Accounted(Do(s, l).state, h)
  {
    match l {
      case Added(file, update) => AddKeeps(s, file, update, h);
      case Modified(file) => ModifyKeeps(s, file, h);
      case Deleted(file) => DeleteKeeps(s, file, h);
      case UnsetFile(name) => UnsetKeeps(s, name, h);
      case PoolReady(listing) => SetPoolKeeps(s, listing, h);
      case Visit(name, update) => VisitKeeps(s, name, update, h);
      case Sweep(name) => SweepKeeps(s, name, h);
      case FinishOne => DrainKeeps(s, h);
      case Size(name, infoOk, update) => SizeKeeps(s, name, infoOk, update, h);
      case Take(w) => TakeKeeps(s, w, h);
      case Process(w, ok) => ProcessKeeps(s, w, ok, h);
      case Report(w) => ReportKeeps(s, w, h);
      case ConnReady => TurnKeeps(s, l, h);
      case ConnFailed => TurnKeeps(s, l, h);
      case UnsetDone => TurnKeeps(s, l, h);
      case VisitDone => TurnKeeps(s, l, h);
      case SweepDone => TurnKeeps(s, l, h);
      case Saved(ok) => TurnKeeps(s, l, h);
      case Tick => TurnKeeps(s, l, h);
      case DrainEnd(infoOk) => TurnKeeps(s, l, h);
      case SizeDone => TurnKeeps(s, l, h);
    }
  }

  // The labels that only move the main loop on, freeing a pool at most.
  predicate Turn(l: Label) {
    l.ConnReady? || l.ConnFailed? || l.UnsetDone? || l.VisitDone? || l.SweepDone? || l.Saved? || l.Tick?
        || l.DrainEnd? || l.SizeDone?
  }

  predicate TurnFrame(s: State, s': State) {
    && s' == s.(connected := s'.connected, pool := s'.pool, poolRefs := s'.poolRefs, ctl := s'.ctl)
    && ListedOf(s'.ctl) == ListedOf(s.ctl)
  }

  // The pool references that the main loop gives up are the ones it frees.
  predicate TurnPools(s: State, s': State, p: nat) {
    s.poolRefs[p] + One(s'.pool == Some(p)) + ArmHolds(s'.ctl, p)
        == s'.poolRefs[p] + One(s.pool == Some(p)) + ArmHolds(s.ctl, p)
  }

  lemma ReleaseTurn(s: State, after: After, p: nat)
    requires Release(s, after).Next? && ArmHolds(s.ctl, p) == AfterHolds(after, p) && ListedOf(s.ctl) == map[]
    ensures TurnFrame(s, Release(s, after).state) && TurnPools(s, Release(s, after).state, p)
  {
  }

  lemma TurnStep(s: State, l: Label, p: nat)
    requires Turn(l) && Do(s, l).Next?
    ensures TurnFrame(s, Do(s, l).state) && TurnPools(s, Do(s, l).state, p)
  {
    match l {
      case Saved(ok) => SaveTurn(s, ok, p);
      case DrainEnd(infoOk) => EndTurn(s, infoOk, p);
      case SizeDone => ReleaseTurn(s, s.ctl.after, p);
      case ConnFailed => UnsetTurn(s, p);
      case VisitDone => SweepTurn(s, p);
      case SweepDone => SweepTurn(s, p);
      case ConnReady =>
      case UnsetDone =>
      case Tick =>
    }
  }

  lemma SaveTurn(s: State, ok: bool, p: nat)
    requires SaveRepo(s, ok).Next?
    ensures TurnFrame(s, SaveRepo(s, ok).state) && TurnPools(s, SaveRepo(s, ok).state, p)
  {
    if !ok { ReleaseTurn(s, ReleasePool(s.ctl.arm), p); }
  }

  lemma EndTurn(s: State, infoOk: bool, p: nat)
    requires EndDrain(s, infoOk).Next?
    ensures TurnFrame(s, EndDrain(s, infoOk).state) && TurnPools(s, EndDrain(s, infoOk).state, p)
  {
    if s.pool.None? || !infoOk { ReleaseTurn(s, s.ctl.after, p); }
  }

  lemma SweepTurn(s: State, p: nat)
    ensures StartSweep(s).Next? ==> TurnFrame(s, StartSweep(s).state) && TurnPools(s, StartSweep(s).state, p)
    ensures EndSweep(s).Next? ==> TurnFrame(s, EndSweep(s).state) && TurnPools(s, EndSweep(s).state, p)
  {
  }

  lemma UnsetTurn(s: State, p: nat)
    requires StartUnset(s).Next?
    ensures TurnFrame(s, StartUnset(s).state) && TurnPools(s, StartUnset(s).state, p)
  {
  }

  lemma TurnKeeps(s: State, l: Label, h: nat)
    requires Accounted(s, h) && Turn(l) && Do(s, l).Next?
    ensures Accounted(Do(s, l).state, h)
  {
    TurnStep(s, l, h);
    FrameKeeps(s, Do(s, l).state, h);
  }

  lemma FrameKeeps(s: State, s': State, h: nat)
    requires Accounted(s, h) && TurnFrame(s, s') && TurnPools(s, s', h)
    ensures Accounted(s', h)
  {
  }

  // ---- What a step of the main loop may change ----

  // It sends at most one job, takes at most one completion, and leaves the
  // workers, the storage and the log alone.
  predicate MainFrame(s: State, s': State) {
    && s'.cfg == s.cfg && s'.workers == s.workers && s'.storage == s.storage && s'.log == s.log
    && (|| (s'.completed == s.completed && s'.finished == s.finished)
        || (s.completed != [] && s'.completed == s.completed[1..] && s'.finished == s.finished + [s.completed[0]]))
    && (|| (s'.pending == s.pending && s'.submitted == s.submitted)
        || (&& |s.pending| < CAPACITY
            && |s'.submitted| == |s.submitted| + 1
            && s'.submitted[|s.submitted|].id == |s.submitted|
            && s'.submitted == s.submitted + [s'.submitted[|s.submitted|]]
            && s'.pending == s.pending + [s'.submitted[|s.submitted|]]))
  }

  // Every entry has its resource.
  predicate AllKnown(s: State) {
    forall n :: n in s.files ==> s.files[n].resource.Some?
  }

  // Everything kept at once, apart from the counts.
  predicate Kept(s: State, s': State) {
    MainFrame(s, s') && (Index(s) ==> Index(s')) && (Control(s) ==> Control(s'))
  }

  lemma IndexUpdate(s: State, n: string, e: Entry, s': State)
    requires n in s.files && e.id == s.files[n].id && (Indexed(s.cfg, n, s.files[n]) ==> Indexed(s.cfg, n, e))
    requires s'.cfg == s.cfg && s'.nextFile == s.nextFile && s'.files == s.files[n := e]
    ensures Index(s) ==> Index(s')
    ensures AllKnown(s) && e.resource.Some? ==> AllKnown(s')
  {
  }

  lemma CreateKept(s: State, name: string, update: Option<string>)
    requires CreateFileVolume(s, name, update).Next?
    ensures Kept(s, CreateFileVolume(s, name, update).state)
    ensures AllKnown(s) ==> AllKnown(CreateFileVolume(s, name, update).state)
  {
    var s' := CreateFileVolume(s, name, update).state;
    IndexUpdate(s, name, s'.files[name], s');
    assert s'.files.Keys == s.files.Keys;
  }

  lemma AddKept(s: State, file: Resource, update: Option<string>)
    requires AddFile(s, file, update).Next?
    ensures Kept(s, AddFile(s, file, update).state)
    ensures AllKnown(s) ==> AllKnown(AddFile(s, file, update).state)
  {
    var name := VolKey(s.cfg, file.name);
    if file.repoName == s.cfg.repoName && name !in s.files {
      EntryAdded(s, file);
      var s1 := s.(files := s.files[name := Entry(s.nextFile, Some(file), None)], nextFile := s.nextFile + 1);
      CreateKept(s1, name, update);
    }
  }

  lemma EntryAdded(s: State, file: Resource)
    requires s.ctl == RepoModel.Loop && file.repoName == s.cfg.repoName && VolKey(s.cfg, file.name) !in s.files
    ensures var e := Entry(s.nextFile, Some(file), None);
            var s1 := s.(files := s.files[VolKey(s.cfg, file.name) := e], nextFile := s.nextFile + 1);
            && (Index(s) ==> Index(s1)) && (Control(s) ==> Control(s1)) && (AllKnown(s) ==> AllKnown(s1))
  {
  }

  lemma ModifyKept(s: State, file: Resource)
    requires ModifyFile(s, file).Next?
    ensures Kept(s, ModifyFile(s, file).state)
    ensures AllKnown(s) ==> AllKnown(ModifyFile(s, file).state)
  {
    var s' := ModifyFile(s, file).state;
    var n := VolKey(s.cfg, file.name);
    if s'.files != s.files { IndexUpdate(s, n, s'.files[n], s'); }
  }

  lemma DeleteKept(s: State, file: Resource)
    requires DeleteFile(s, file).Next?
    ensures Kept(s, DeleteFile(s, file).state)
  {
    if s.files != DeleteFile(s, file).state.files { EntryRemoved(s, VolKey(s.cfg, file.name)); }
  }

  lemma EntryRemoved(s: State, n: string)
    requires s.ctl == RepoModel.Loop
    ensures var s1 := s.(files := s.files - {n});
            (Index(s) ==> Index(s1)) && (Control(s) ==> Control(s1))
  {
  }

  // A loop over the files moves on.
  predicate MovesOn(c: RepoModel.Control, c': RepoModel.Control) {
    || c' == c
    || (c.Unsetting? && c'.Unsetting? && c'.todo <= c.todo)
    || (c.Sizing? && c'.Sizing? && c'.after == c.after && c'.todo <= c.todo)
  }

  lemma ControlMovesOn(s: State, s': State)
    requires s'.pool == s.pool && s'.connected == s.connected && s'.files.Keys == s.files.Keys && MovesOn(s.ctl, s'.ctl)
    ensures Control(s) ==> Control(s')
  {
  }

  lemma UnsetKept(s: State, name: string)
    requires UnsetOne(s, name).Next?
    ensures Kept(s, UnsetOne(s, name).state)
    ensures AllKnown(s) ==> AllKnown(UnsetOne(s, name).state)
  {
    var s' := UnsetOne(s, name).state;
    ControlMovesOn(s, s');
    if s.files[name].vol.Some? { IndexUpdate(s, name, s.files[name].(vol := None), s'); }
  }

  lemma SetPoolKept(s: State, listing: Option<Listing>)
    requires SetPool(s, listing).Next?
    ensures Kept(s, SetPool(s, listing).state)
  {
  }

  lemma VisitKept(s: State, name: string, update: Option<string>)
    requires VisitOne(s, name, update).Next?
    ensures Kept(s, VisitOne(s, name, update).state)
    ensures AllKnown(s) ==> AllKnown(VisitOne(s, name, update).state)
  {
    if VolKey(s.cfg, s.files[name].resource.value.name) in s.ctl.listed {
      MatchKept(s, name, update);
    } else {
      MissKept(s, name, update);
    }
  }

  lemma MatchKept(s: State, name: string, update: Option<string>)
    requires VisitOne(s, name, update).Next? && VolKey(s.cfg, s.files[name].resource.value.name) in s.ctl.listed
    ensures Kept(s, VisitOne(s, name, update).state)
    ensures AllKnown(s) ==> AllKnown(VisitOne(s, name, update).state)
  {
    var s' := VisitOne(s, name, update).state;
    IndexUpdate(s, name, s'.files[name], s');
    assert s'.files.Keys == s.files.Keys;
  }

  lemma MissKept(s: State, name: string, update: Option<string>)
    requires VisitOne(s, name, update).Next? && VolKey(s.cfg, s.files[name].resource.value.name) !in s.ctl.listed
    ensures Kept(s, VisitOne(s, name, update).state)
    ensures AllKnown(s) ==> AllKnown(VisitOne(s, name, update).state)
  {
    var s1 := s.(ctl := Visiting(s.ctl.arm, s.ctl.todo - {name}, s.ctl.listed));
    CreateKept(s1, VolKey(s.cfg, s.files[name].resource.value.name), update);
  }

  lemma SweepKept(s: State, name: string)
    requires SweepOne(s, name).Next?
    ensures Kept(s, SweepOne(s, name).state)
  {
  }

  lemma FinishKept(s: State, d: Done)
    requires FinishJob(s, d).Next?
    ensures var s' := FinishJob(s, d).state;
            && s' == s.(files := s'.files, volRefs := s'.volRefs, volLost := s'.volLost)
            && s'.files.Keys == s.files.Keys
            && (Index(s) ==> Index(s'))
            && (AllKnown(s) ==> AllKnown(s'))
  {
    FinishFrame(s, d);
    var s' := FinishJob(s, d).state;
    if s'.files != s.files {
      var n := OwnerOf(s.files, d.job.file);
      IndexUpdate(s, n, s'.files[n], s');
    }
  }

  lemma FinishFrame(s: State, d: Done)
    requires FinishJob(s, d).Next?
    ensures var s' := FinishJob(s, d).state;
            && s' == s.(files := s'.files, volRefs := s'.volRefs, volLost := s'.volLost)
            && (s'.files == s.files
                || (&& Owns(s.files, d.job.file) && s.files[OwnerOf(s.files, d.job.file)].resource.Some?
                    && s'.files == FinishCreate(s.files, OwnerOf(s.files, d.job.file), d.result)))
  {
  }

  // Finishing a completion moves it to the history and touches only the entries
  // and the counts of volumes.
  lemma DrainFrame(s: State)
    requires DrainOne(s).Next?
    ensures s.completed != []
    ensures var s' := DrainOne(s).state;
            && s' == s.(completed := s.completed[1..], finished := s.finished + [s.completed[0]],
                        files := s'.files, volRefs := s'.volRefs, volLost := s'.volLost)
            && s'.files.Keys == s.files.Keys
  {
    var d := s.completed[0];
    FinishKept(s.(completed := s.completed[1..], finished := s.finished + [d]), d);
  }

  lemma DrainKept(s: State)
    requires DrainOne(s).Next?
    ensures Kept(s, DrainOne(s).state)
    ensures AllKnown(s) ==> AllKnown(DrainOne(s).state)
  {
    var d := s.completed[0];
    var s1 := s.(completed := s.completed[1..], finished := s.finished + [d]);
    FinishKept(s1, d);
    assert Index(s) ==> Index(s1);
    ControlMovesOn(s, DrainOne(s).state);
  }

  lemma SizeKept(s: State, name: string, infoOk: bool, update: Option<string>)
    requires SizeOne(s, name, infoOk, update).Next?
    ensures Kept(s, SizeOne(s, name, infoOk, update).state)
    ensures AllKnown(s) && update.Some? ==> AllKnown(SizeOne(s, name, infoOk, update).state)
  {
    var s' := SizeOne(s, name, infoOk, update).state;
    ControlMovesOn(s, s');
    if s.files[name].vol.Some? {
      assert s'.files == s.files[name := s'.files[name]];
      IndexUpdate(s, name, s'.files[name], s');
    }
  }

  lemma ReleaseKept(s: State, after: After)
    requires Release(s, after).Next?
    ensures var s' := Release(s, after).state;
            MainFrame(s, s') && (Index(s) ==> Index(s')) && (Control(s) && AfterOk(s, after) ==> Control(s'))
  {
  }

  lemma UnsetKeepsAll(s: State)
    requires StartUnset(s).Next?
    ensures Kept(s, StartUnset(s).state)
  {
  }

  lemma LoadTurns(s: State)
    ensures StartSweep(s).Next? ==> Kept(s, StartSweep(s).state)
    ensures EndSweep(s).Next? ==> Kept(s, EndSweep(s).state)
  {
  }

  lemma TurnKept(s: State, l: Label)
    requires Turn(l) && Do(s, l).Next?
    ensures Kept(s, Do(s, l).state)
  {
    match l {
      case Saved(ok) => SaveKept(s, ok);
      case DrainEnd(infoOk) => EndKept(s, infoOk);
      case SizeDone => SizesKept(s);
      case ConnFailed => UnsetKeepsAll(s);
      case VisitDone => LoadTurns(s);
      case SweepDone => LoadTurns(s);
      case ConnReady =>
      case UnsetDone =>
      case Tick =>
    }
  }

  lemma SaveKept(s: State, ok: bool)
    requires SaveRepo(s, ok).Next?
    ensures Kept(s, SaveRepo(s, ok).state)
  {
    if !ok { ReleaseKept(s, ReleasePool(s.ctl.arm)); }
  }

  lemma EndKept(s: State, infoOk: bool)
    requires EndDrain(s, infoOk).Next?
    ensures Kept(s, EndDrain(s, infoOk).state)
  {
    if s.pool.None? || !infoOk { ReleaseKept(s, s.ctl.after); }
  }

  lemma SizesKept(s: State)
    requires EndSizes(s).Next?
    ensures Kept(s, EndSizes(s).state)
  {
    ReleaseKept(s, s.ctl.after);
  }

  lemma MainKept(s: State, l: Label)
    requires !WorkerLabel(l) && Do(s, l).Next?
    ensures Kept(s, Do(s, l).state)
  {
    match l {
      case Added(file, update) => AddKept(s, file, update);
      case Modified(file) => ModifyKept(s, file);
      case Deleted(file) => DeleteKept(s, file);
      case UnsetFile(name) => UnsetKept(s, name);
      case PoolReady(listing) => SetPoolKept(s, listing);
      case Visit(name, update) => VisitKept(s, name, update);
      case Sweep(name) => SweepKept(s, name);
      case FinishOne => DrainKept(s);
      case Size(name, infoOk, update) => SizeKept(s, name, infoOk, update);
      case _ => TurnKept(s, l);
    }
  }

  // A worker touches neither the files nor the main loop's place.
  predicate WorkerFrame(s: State, s': State) {
    && s'.cfg == s.cfg && s'.files == s.files && s'.pool == s.pool && s'.connected == s.connected
    && s'.ctl == s.ctl && s'.nextFile == s.nextFile && s'.submitted == s.submitted && s'.finished == s.finished
  }

  // The three moves of a worker.
  predicate WorkerMove(s: State, s': State, l: Label) {
    && WorkerLabel(l) && l.w < |s.workers|
    && match l
       case Take(w) =>
         && s.pending != [] && s.workers[w].Idle?
         && s'.workers == s.workers[w := Holding(s.pending[0])]
         && s'.pending == s.pending[1..] && s'.completed == s.completed && s'.log == s.log
       case Process(w, ok) =>
         && s.workers[w].Holding? && |s'.workers| == |s.workers| && s'.workers[w].Reporting?
         && s'.workers[w].done.job == s.workers[w].job && WellDone(s'.workers[w].done)
         && s'.workers == s.workers[w := s'.workers[w]]
         && s'.log == s.log + [Processed(s.workers[w].job, TargetOf(s.volName, s.workers[w].job), ok)]
         && s'.pending == s.pending && s'.completed == s.completed
       case Report(w) =>
         && s.workers[w].Reporting? && |s.completed| < CAPACITY
         && s'.workers == s.workers[w := Idle]
         && s'.completed == s.completed + [s.workers[w].done] && s'.pending == s.pending && s'.log == s.log
       case _ => false
  }

  lemma WorkerStep(s: State, l: Label)
    requires WorkerLabel(l) && Do(s, l).Next?
    ensures WorkerFrame(s, Do(s, l).state) && WorkerMove(s, Do(s, l).state, l)
  {
    match l {
      case Take(w) =>
      case Process(w, ok) => ProcessStep(s, w, ok);
      case Report(w) =>
    }
  }

  lemma ProcessStep(s: State, w: nat, ok: bool)
    requires ProcessJob(s, w, ok).Next?
    ensures WorkerFrame(s, ProcessJob(s, w, ok).state) && WorkerMove(s, ProcessJob(s, w, ok).state, Process(w, ok))
  {
    ProcessSlot(s, w, ok);
  }

  lemma ProcessSlot(s: State, w: nat, ok: bool)
    requires ProcessJob(s, w, ok).Next?
    ensures var s' := ProcessJob(s, w, ok).state;
            var job := s.workers[w].job;
            && s'.workers == s.workers[w := Reporting(Done(job, if job.Create? && ok then Some(s.nextVol) else None))]
            && s'.log == s.log + [Processed(job, TargetOf(s.volName, job), ok)]
            && s'.pending == s.pending && s'.completed == s.completed
  {
  }

  lemma WorkerShape(s: State, s': State, l: Label)
    requires WorkerMove(s, s', l) && WorkerFrame(s, s') && Shape(s)
    ensures Shape(s')
  {
  }

  lemma WorkerKept(s: State, l: Label)
    requires WorkerLabel(l) && Do(s, l).Next? && Shape(s)
    ensures Shape(Do(s, l).state) && (Index(s) ==> Index(Do(s, l).state)) && (Control(s) ==> Control(Do(s, l).state))
  {
    WorkerStep(s, l);
    WorkerShape(s, Do(s, l).state, l);
    WorkerFrameKeeps(s, Do(s, l).state);
  }

  lemma WorkerFrameKeeps(s: State, s': State)
    requires WorkerFrame(s, s')
    ensures (Index(s) ==> Index(s')) && (Control(s) ==> Control(s'))
  {
  }

  // Every step keeps the invariant.
  lemma StepKeepsInv(s: State, l: Label)
    requires Inv(s) && Do(s, l).Next?
    ensures Inv(Do(s, l).state)
  {
    CountedStep(s, l);
    if WorkerLabel(l) {
      WorkerKept(s, l);
    } else {
      MainKept(s, l);
    }
  }

  // A freshly loaded file table.
  predicate FreshTable(cfg: Config, files: map<string, Entry>, bound: nat) {
    && (forall n :: n in files ==>
          Indexed(cfg, n, files[n]) && files[n].id < bound && files[n].vol.None? && files[n].resource.Some?)
    && (forall m, n :: m in files && n in files && files[m].id == files[n].id ==> m == n)
  }

  lemma {:induction false} LoadedFiles(cfg: Config, items: seq<Resource>)
    ensures FreshTable(cfg, LoadFiles(cfg, items), |items|)
  {
    if items != [] {
      var k := |items| - 1;
      LoadedFiles(cfg, items[..k]);
      assert FreshTable(cfg, LoadFiles(cfg, items[..k]), k);
      if items[k].repoName == cfg.repoName {
        var e := Entry(k, Some(items[k]), None);
        assert LoadFiles(cfg, items) == LoadFiles(cfg, items[..k])[VolKey(cfg, items[k].name) := e];
      }
    }
  }

  lemma InitInv(cfg: Config, items: seq<Resource>, storage: map<string, nat>)
    requires cfg.workers <= 255
    ensures Inv(Init(cfg, items, storage)) && AllKnown(Init(cfg, items, storage))
  {
    var s := Init(cfg, items, storage);
    LoadedFiles(cfg, items);
    assert FreshTable(cfg, s.files, |items|);
    forall h: nat ensures Accounted(s, h) {
      CountMapZero(EntryHolds, h, s.files);
      CountZero(SlotHolds, h, s.workers);
      CountZero(SlotHoldsPool, h, s.workers);
    }
  }

  // ---- No dead handle is used or freed ----

  lemma FileHandleLives(s: State, n: string)
    requires Counted(s) && n in s.files && s.files[n].vol.Some?
    ensures s.files[n].vol.value in s.volRefs
  {
    var h: nat := s.files[n].vol.value;
    assert Accounted(s, h);
    CountMapRemove(EntryHolds, h, s.files, n);
  }

  lemma ResultHandleLives(s: State)
    requires Counted(s) && s.completed != [] && s.completed[0].result.Some?
    ensures s.completed[0].result.value in s.volRefs
  {
    var h: nat := s.completed[0].result.value;
    assert Accounted(s, h);
  }

  lemma WorkerHandleLives(s: State, w: nat)
    requires Counted(s) && w < |s.workers| && s.workers[w].Holding?
    ensures var job := s.workers[w].job;
            if job.Create? then job.pool in s.poolRefs else job.vol in s.volRefs
  {
    var job := s.workers[w].job;
    var h: nat := if job.Create? then job.pool else job.vol;
    assert Accounted(s, h);
    CountAt(SlotHolds, h, s.workers, w);
    CountAt(SlotHoldsPool, h, s.workers, w);
  }

  lemma PoolHandleLives(s: State, p: nat)
    requires Counted(s) && (s.pool == Some(p) || ArmHolds(s.ctl, p) > 0)
    ensures p in s.poolRefs
  {
    assert Accounted(s, p);
  }

  lemma FileStepLives(s: State, n: string)
    requires Counted(s)
    ensures forall infoOk, update :: !SizeOne(s, n, infoOk, update).BadHandle?
    ensures !UnsetOne(s, n).BadHandle?
  {
    if n in s.files { FileMayLive(s, n); }
  }

  lemma ModifyLives(s: State, file: Resource)
    requires Counted(s)
    ensures !ModifyFile(s, file).BadHandle?
  {
    if VolKey(s.cfg, file.name) in s.files { FileMayLive(s, VolKey(s.cfg, file.name)); }
  }

  lemma CreateLives(s: State)
    requires Counted(s)
    ensures forall file, update :: !AddFile(s, file, update).BadHandle?
    ensures forall name, update :: !VisitOne(s, name, update).BadHandle?
    ensures !StartUnset(s).BadHandle?
  {
    if s.pool.Some? { PoolHandleLives(s, s.pool.value); }
  }

  lemma DrainLives(s: State)
    requires Counted(s)
    ensures !DrainOne(s).BadHandle?
  {
    if s.completed != [] && s.completed[0].result.Some? { ResultHandleLives(s); }
  }

  lemma ProcessLives(s: State, w: nat, ok: bool)
    requires Counted(s)
    ensures !ProcessJob(s, w, ok).BadHandle?
  {
    if w < |s.workers| && s.workers[w].Holding? { WorkerHandleLives(s, w); }
  }

  lemma TurnLives(s: State)
    requires Inv(s)
    ensures forall ok :: !SaveRepo(s, ok).BadHandle?
    ensures forall infoOk :: !EndDrain(s, infoOk).BadHandle?
    ensures !EndSizes(s).BadHandle?
  {
    if s.ctl.Loaded? { PoolHandleLives(s, s.ctl.arm); }
    ReleaseLives(s);
  }

  lemma NoBadHandle(s: State, l: Label)
    requires Inv(s)
    ensures !Do(s, l).BadHandle?
  {
    match l {
      case Added(_, _) => CreateLives(s);
      case Modified(file) => ModifyLives(s, file);
      case ConnFailed => CreateLives(s);
      case UnsetFile(name) => FileStepLives(s, name);
      case Visit(_, _) => CreateLives(s);
      case Size(name, _, _) => FileStepLives(s, name);
      case FinishOne => DrainLives(s);
      case Process(w, ok) => ProcessLives(s, w, ok);
      case Saved(_) => TurnLives(s);
      case DrainEnd(_) => TurnLives(s);
      case SizeDone => TurnLives(s);
      case _ =>
    }
  }

  lemma FileMayLive(s: State, n: string)
    requires Counted(s) && n in s.files
    ensures s.files[n].vol.Some? ==> s.files[n].vol.value in s.volRefs
  {
    if s.files[n].vol.Some? { FileHandleLives(s, n); }
  }

  lemma ReleaseLives(s: State)
    requires Inv(s)
    ensures (s.ctl.Draining? || s.ctl.Sizing?) && s.ctl.after.ReleasePool? ==> s.ctl.after.pool in s.poolRefs
  {
    if (s.ctl.Draining? || s.ctl.Sizing?) && s.ctl.after.ReleasePool? { PoolHandleLives(s, s.ctl.after.pool); }
  }

  // ---- Nil dereferences ----

  // A known entry that has lost its resource to a failed update.
  predicate Nil(s: State, n: string) {
    n in s.files && s.files[n].resource.None?
  }

  // The one condition for a nil dereference at each kind of step.
  ghost predicate PanicsAt(s: State, l: Label) {
    match l
    case Added(file, _) =>
      s.ctl == Loop && file.repoName == s.cfg.repoName && VolKey(s.cfg, file.name) !in s.files && s.pool.None?
    case Modified(file) =>
      var n := VolKey(s.cfg, file.name);
      && s.ctl == Loop && file.repoName == s.cfg.repoName && n in s.files
      && (|| Nil(s, n)
          || (file.version != s.files[n].resource.value.version
              && file.capacity != s.files[n].resource.value.capacity
              && s.files[n].vol.None?))
    case ConnFailed => s.ctl == Loop && s.pool.None?
    case Visit(n, _) => s.ctl.Visiting? && n in s.ctl.todo && Nil(s, n)
    case Size(n, _, _) => s.ctl.Sizing? && n in s.ctl.todo && Nil(s, n) && s.files[n].vol.Some?
    case FinishOne =>
      && s.ctl.Draining? && s.completed != [] && s.completed[0].job.Create?
      && exists n :: && n in s.files && s.files[n].id == s.completed[0].job.file
                     && s.files[n].vol.None? && s.files[n].resource.None?
    case _ => false
  }

  // In particular the lookup of createFileVolume during loadVolumes always
  // hits, and the Close after a failed connection never meets nil.
  lemma PanicsExactly(s: State, l: Label)
    requires Inv(s)
    ensures Do(s, l).Panic? <==> PanicsAt(s, l)
  {
    NoBadHandle(s, l);
    match l {
      case Modified(file) => if VolKey(s.cfg, file.name) in s.files { FileMayLive(s, VolKey(s.cfg, file.name)); }
      case Size(name, _, _) => if name in s.files { FileMayLive(s, name); }
      case FinishOne => FinishPanics(s);
      case _ =>
    }
  }

  lemma FinishPanics(s: State)
    requires Inv(s)
    ensures DrainOne(s).Panic? <==> PanicsAt(s, FinishOne)
  {
    if s.ctl.Draining? && s.completed != [] && s.completed[0].job.Create? {
      var id := s.completed[0].job.file;
      if Owns(s.files, id) {
        var n := OwnerOf(s.files, id);
        assert forall m :: m in s.files && s.files[m].id == id ==> m == n;
      }
    }
  }

  // ---- Whole runs ----

  // Over every run from a loaded repository, whatever the answers and whatever
  // the interleaving: the invariant holds and no dead handle is touched.
  lemma {:induction false} RunsAreSafe(s: State, labels: seq<Label>)
    requires Inv(s)
    ensures !Run(s, labels).BadHandle?
    ensures Run(s, labels).Next? ==> Inv(Run(s, labels).state)
  {
    if labels != [] {
      var n := |labels| - 1;
      RunsAreSafe(s, labels[..n]);
      var o := Run(s, labels[..n]);
      if o.Next? {
        NoBadHandle(o.state, labels[n]);
        if Do(o.state, labels[n]).Next? { StepKeepsInv(o.state, labels[n]); }
      }
    }
  }

  lemma InitRunsAreSafe(cfg: Config, items: seq<Resource>, storage: map<string, nat>, labels: seq<Label>)
    requires cfg.workers <= 255
    ensures !Run(Init(cfg, items, storage), labels).BadHandle?
    ensures Run(Init(cfg, items, storage), labels).Next? ==> Inv(Run(Init(cfg, items, storage), labels).state)
  {
    InitInv(cfg, items, storage);
    RunsAreSafe(Init(cfg, items, storage), labels);
  }

  // A state that some run from the start comes to.
  ghost predicate Reached(s: State) {
    exists cfg: Config, items: seq<Resource>, storage: map<string, nat>, labels: seq<Label> ::
      cfg.workers <= 255 && Run(Init(cfg, items, storage), labels) == Next(s)
  }

  lemma ReachedInv(s: State)
    requires Reached(s)
    ensures Inv(s)
  {
    var cfg: Config, items: seq<Resource>, storage: map<string, nat>, labels: seq<Label>
      :| cfg.workers <= 255 && Run(Init(cfg, items, storage), labels) == Next(s);
    InitRunsAreSafe(cfg, items, storage, labels);
  }

  lemma ReachedOn(s: State, labels: seq<Label>)
    requires Reached(s) && Run(s, labels).Next?
    ensures Reached(Run(s, labels).state)
  {
    var cfg: Config, items: seq<Resource>, storage: map<string, nat>, before: seq<Label>
      :| cfg.workers <= 255 && Run(Init(cfg, items, storage), before) == Next(s);
    RunConcat(Init(cfg, items, storage), before, labels);
  }

  // Resources stay known as long as no update in refreshSizes fails.
  predicate SizeUpdateFails(l: Label) {
    l.Size? && l.update.None?
  }

  lemma KnownStep(s: State, l: Label)
    requires AllKnown(s) && Do(s, l).Next? && !SizeUpdateFails(l)
    ensures AllKnown(Do(s, l).state)
  {
    match l {
      case Added(file, update) => AddKept(s, file, update);
      case Modified(file) => ModifyKept(s, file);
      case UnsetFile(name) => UnsetKept(s, name);
      case Visit(name, update) => VisitKept(s, name, update);
      case FinishOne => DrainKept(s);
      case Size(name, infoOk, update) => SizeKept(s, name, infoOk, update);
      case Deleted(file) =>
      case PoolReady(listing) =>
      case Sweep(name) =>
      case _ => if WorkerLabel(l) { WorkerStep(s, l); } else { TurnStep(s, l, 0); }
    }
  }

  // Then every key of a run is the volume name of its resource, and only three
  // kinds of step can panic.
  lemma {:induction false} IndexOverRuns(s: State, labels: seq<Label>)
    requires Inv(s) && AllKnown(s)
    requires forall i :: 0 <= i < |labels| ==> !SizeUpdateFails(labels[i])
    requires Run(s, labels).Next?
    ensures var s' := Run(s, labels).state;
            && AllKnown(s')
            && (forall n :: n in s'.files ==>
                  var r := s'.files[n].resource.value;
                  VolKey(s'.cfg, r.name) == n && r.repoName == s'.cfg.repoName)
            && (forall m, n :: m in s'.files && n in s'.files && s'.files[m].id == s'.files[n].id ==> m == n)
            && (forall l: Label :: Do(s', l).Panic? ==> l.Added? || l.Modified? || l.ConnFailed?)
  {
    KnownOverRuns(s, labels);
    RunsAreSafe(s, labels);
    var s' := Run(s, labels).state;
    assert forall n :: n in s'.files ==> Indexed(s'.cfg, n, s'.files[n]);
    forall l: Label | Do(s', l).Panic? ensures l.Added? || l.Modified? || l.ConnFailed? {
      PanicsExactly(s', l);
    }
  }

  lemma {:induction false} KnownOverRuns(s: State, labels: seq<Label>)
    requires AllKnown(s) && Run(s, labels).Next?
    requires forall i :: 0 <= i < |labels| ==> !SizeUpdateFails(labels[i])
    ensures AllKnown(Run(s, labels).state)
  {
    if labels != [] {
      var n := |labels| - 1;
      KnownOverRuns(s, labels[..n]);
      KnownStep(Run(s, labels[..n]).state, labels[n]);
    }
  }
}
