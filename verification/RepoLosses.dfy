// When references are lost: the exact conditions under which a step drops a
// handle without freeing it, and the exact counts over runs that avoid them.
module RepoLosses {
  import opened Common
  import opened RepoModel
  import opened RepoHandles
  import opened RepoInvariant

  // A pool arrives while none is held, and every listed volume tells its name.
  predicate FrugalPool(s: State, listing: Option<Listing>) {
    s.connected ==> s.pool.None? && (listing.Some? ==> listing.value.unnamed == map[])
  }

  // A listed volume is not stored over another handle.
  predicate FrugalVisit(s: State, name: string) {
    s.ctl.Visiting? && name in s.files && s.files[name].resource.Some?
    && VolKey(s.cfg, s.files[name].resource.value.name) in s.ctl.listed
    ==> s.files[name].vol.None?
  }

  // A created volume does not come for an entry that has one.
  ghost predicate FrugalFinish(s: State) {
    s.completed != [] && s.completed[0].job.Create? && s.completed[0].result.Some?
        && Owns(s.files, s.completed[0].job.file)
    ==> s.files[OwnerOf(s.files, s.completed[0].job.file)].vol.None?
  }

  ghost predicate Frugal(s: State, l: Label) {
    match l
    case PoolReady(listing) => FrugalPool(s, listing)
    case Visit(name, _) => FrugalVisit(s, name)
    case FinishOne => FrugalFinish(s)
    case _ => true
  }

  predicate NothingLost(s: State, s': State) {
    s'.volLost == s.volLost && s'.poolDropped == s.poolDropped
  }

  lemma PoolLosses(s: State, listing: Option<Listing>)
    requires SetPool(s, listing).Next?
    ensures NothingLost(s, SetPool(s, listing).state) <==> FrugalPool(s, listing)
  {
    var s' := SetPool(s, listing).state;
    if s.connected && s.pool.Some? {
      assert s'.poolDropped[s.pool.value] == s.poolDropped[s.pool.value] + 1;
    } else if s.connected && listing.Some? {
      if n :| n in listing.value.unnamed {
        var v := listing.value.unnamed[n];
        assert v in listing.value.unnamed.Values;
        assert s'.volLost[v] == s.volLost[v] + 1;
      } else {
        assert listing.value.unnamed == map[];
        assert HandleBag(map[]) == multiset{};
      }
    }
  }

  lemma VisitLosses(s: State, name: string, update: Option<string>)
    requires VisitOne(s, name, update).Next?
    ensures NothingLost(s, VisitOne(s, name, update).state) <==> FrugalVisit(s, name)
  {
    var s' := VisitOne(s, name, update).state;
    if !FrugalVisit(s, name) {
      var v := s.files[name].vol.value;
      assert s'.volLost[v] == s.volLost[v] + 1;
    }
  }

  lemma FinishLosses(s: State)
    requires DrainOne(s).Next? && WellDone(s.completed[0])
    ensures NothingLost(s, DrainOne(s).state) <==> FrugalFinish(s)
  {
    var s' := DrainOne(s).state;
    if !FrugalFinish(s) {
      var v := s.completed[0].result.value;
      assert s'.volLost[v] == s.volLost[v] + 1;
    }
  }

  lemma OthersLoseNothing(s: State, l: Label)
    requires !l.PoolReady? && !l.Visit? && !l.FinishOne? && Do(s, l).Next?
    ensures NothingLost(s, Do(s, l).state)
  {
    match l {
      case Added(file, update) => AddLosesNothing(s, file, update);
      case Modified(_) =>
      case Deleted(_) =>
      case UnsetFile(_) =>
      case Sweep(_) =>
      case Size(name, infoOk, update) => SizeLosesNothing(s, name, infoOk, update);
      case Take(_) =>
      case Process(w, ok) => ProcessLosesNothing(s, w, ok);
      case Report(_) =>
      case _ => TurnStep(s, l, s.nextPool);
    }
  }

  lemma AddLosesNothing(s: State, file: Resource, update: Option<string>)
    requires AddFile(s, file, update).Next?
    ensures NothingLost(s, AddFile(s, file, update).state)
  {
  }

  lemma SizeLosesNothing(s: State, name: string, infoOk: bool, update: Option<string>)
    requires SizeOne(s, name, infoOk, update).Next?
    ensures NothingLost(s, SizeOne(s, name, infoOk, update).state)
  {
  }

  lemma ProcessLosesNothing(s: State, w: nat, ok: bool)
    requires ProcessJob(s, w, ok).Next?
    ensures NothingLost(s, ProcessJob(s, w, ok).state)
  {
  }

  // A step drops a reference without freeing it exactly in these cases.
  lemma LossesExactly(s: State, l: Label)
    requires Inv(s) && Do(s, l).Next?
    ensures NothingLost(s, Do(s, l).state) <==> Frugal(s, l)
  {
    match l {
      case PoolReady(listing) => PoolLosses(s, listing);
      case Visit(name, update) => VisitLosses(s, name, update);
      case FinishOne => FinishLosses(s);
      case _ => OthersLoseNothing(s, l);
    }
  }

  ghost predicate AllFrugal(s: State, labels: seq<Label>) {
    forall i :: 0 <= i < |labels| ==> Run(s, labels[..i]).Next? ==> Frugal(Run(s, labels[..i]).state, labels[i])
  }

  lemma {:induction false} NothingLostOverRuns(s: State, labels: seq<Label>)
    requires Inv(s) && AllFrugal(s, labels) && Run(s, labels).Next?
    ensures NothingLost(s, Run(s, labels).state)
  {
    if labels != [] {
      var n := |labels| - 1;
      assert AllFrugal(s, labels[..n]) by {
        assert forall i :: 0 <= i < n ==> labels[..n][..i] == labels[..i];
      }
      NothingLostOverRuns(s, labels[..n]);
      RunsAreSafe(s, labels[..n]);
      assert Frugal(Run(s, labels[..n]).state, labels[n]);
      LossesExactly(Run(s, labels[..n]).state, labels[n]);
    }
  }

  // Over runs without these cases a volume's count is the number of its holders,
  // and a pool's is one while the repository holds it, one while the main loop
  // owes one, and one for each create that is not yet processed or has failed.
  lemma CountsExactOverRuns(cfg: Config, items: seq<Resource>, storage: map<string, nat>, labels: seq<Label>, h: nat)
    requires cfg.workers <= 255 && AllFrugal(Init(cfg, items, storage), labels)
    requires Run(Init(cfg, items, storage), labels).Next?
    ensures var s := Run(Init(cfg, items, storage), labels).state;
            && s.volRefs[h] == VolHolders(s, h)
            && s.poolRefs[h] == One(s.pool == Some(h)) + ArmHolds(s.ctl, h) + Count(JobHoldsPool, h, s.pending)
                                + Count(SlotHoldsPool, h, s.workers) + Count(FailedHoldsPool, h, s.log)
  {
    InitInv(cfg, items, storage);
    NothingLostOverRuns(Init(cfg, items, storage), labels);
    RunsAreSafe(Init(cfg, items, storage), labels);
    assert Accounted(Run(Init(cfg, items, storage), labels).state, h);
  }

  // ---- Jobs are made as the repository is configured ----

  predicate Configured(cfg: Config, job: Job) {
    match job
    case Create(_, _, _, _, allocation, capacity) => allocation == if cfg.preallocate then capacity else 0
    case Resize(_, _, _, allocate) => allocate == cfg.preallocate
    case Delete(_, _) => true
  }

  lemma NewJobConfigured(s: State, l: Label)
    requires !WorkerLabel(l) && Do(s, l).Next?
    ensures var s' := Do(s, l).state;
            |s'.submitted| == |s.submitted| + 1 ==> Configured(s.cfg, s'.submitted[|s.submitted|])
  {
    match l {
      case Added(file, update) => AddConfigured(s, file, update);
      case Visit(name, update) => VisitConfigured(s, name, update);
      case FinishOne => DrainFrame(s);
      case Modified(_) =>
      case Deleted(_) =>
      case Sweep(_) =>
      case UnsetFile(_) =>
      case PoolReady(_) =>
      case Size(_, _, _) =>
      case _ => TurnStep(s, l, s.nextPool);
    }
  }

  lemma AddConfigured(s: State, file: Resource, update: Option<string>)
    requires AddFile(s, file, update).Next?
    ensures var s' := AddFile(s, file, update).state;
            |s'.submitted| == |s.submitted| + 1 ==> Configured(s.cfg, s'.submitted[|s.submitted|])
  {
  }

  lemma VisitConfigured(s: State, name: string, update: Option<string>)
    requires VisitOne(s, name, update).Next?
    ensures var s' := VisitOne(s, name, update).state;
            |s'.submitted| == |s.submitted| + 1 ==> Configured(s.cfg, s'.submitted[|s.submitted|])
  {
  }

  // Every job ever submitted allocates in advance exactly if the repository does.
  lemma {:induction false} JobsConfiguredOverRuns(s: State, labels: seq<Label>)
    requires forall i :: 0 <= i < |s.submitted| ==> Configured(s.cfg, s.submitted[i])
    requires Run(s, labels).Next?
    ensures var s' := Run(s, labels).state;
            && s'.cfg == s.cfg
            && forall i :: 0 <= i < |s'.submitted| ==> Configured(s.cfg, s'.submitted[i])
  {
    if labels != [] {
      var n := |labels| - 1;
      JobsConfiguredOverRuns(s, labels[..n]);
      var s0 := Run(s, labels[..n]).state;
      if WorkerLabel(labels[n]) {
        WorkerStep(s0, labels[n]);
      } else {
        MainKept(s0, labels[n]);
        NewJobConfigured(s0, labels[n]);
      }
    }
  }
}
