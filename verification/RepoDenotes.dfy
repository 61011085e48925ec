// What a handle denotes: over every run, the handle in a file's entry, in a job
// queued for it, and in the result of its creation denotes the volume of that
// file's name, so no job ever touches another file's volume.
module RepoDenotes {
  import opened Common
  import opened RepoModel
  import opened RepoHandles
  import opened RepoInvariant
  import opened RepoCompletions

  predicate Named(s: State, v: nat, n: string) {
    v in s.volName && v < s.nextVol && s.volName[v] == n
  }

  // The entry that a create job remembers has the job's name.
  predicate CreateOk(s: State, job: Job) {
    job.Create? ==>
      && job.file < s.nextFile
      && forall n :: n in s.files && s.files[n].id == job.file ==> n == job.name
  }

  predicate OutstandingOk(s: State, job: Job) {
    CreateOk(s, job) && (!job.Create? ==> job.vol in s.volName && job.vol < s.nextVol)
  }

  predicate DoneOk(s: State, d: Done) {
    CreateOk(s, d.job) && (d.job.Create? && d.result.Some? ==> Named(s, d.result.value, d.job.name))
  }

  predicate EntriesOk(s: State) {
    forall n :: n in s.files && s.files[n].vol.Some? ==> Named(s, s.files[n].vol.value, n)
  }

  predicate ListedOk(s: State) {
    forall n :: n in ListedOf(s.ctl) ==> Named(s, ListedOf(s.ctl)[n], n)
  }

  predicate QueuesOk(s: State) {
    && (forall i :: 0 <= i < |s.pending| ==> OutstandingOk(s, s.pending[i]))
    && (forall i :: 0 <= i < |s.completed| ==> DoneOk(s, s.completed[i]))
    && (forall w :: 0 <= w < |s.workers| && s.workers[w].Holding? ==> OutstandingOk(s, s.workers[w].job))
    && (forall w :: 0 <= w < |s.workers| && s.workers[w].Reporting? ==> DoneOk(s, s.workers[w].done))
  }

  predicate Denotes(s: State) {
    EntriesOk(s) && ListedOk(s) && QueuesOk(s)
  }

  // Known handles keep their names.
  predicate NamesKept(s: State, s': State) {
    && s.nextVol <= s'.nextVol
    && forall v :: v in s.volName && v < s.nextVol ==> v in s'.volName && s'.volName[v] == s.volName[v]
  }

  // ---- Every step keeps it ----

  lemma ProcessNames(s: State, w: nat, ok: bool)
    requires ProcessJob(s, w, ok).Next?
    ensures NamesKept(s, ProcessJob(s, w, ok).state)
  {
  }

  lemma SetPoolNames(s: State, listing: Option<Listing>)
    requires SetPool(s, listing).Next?
    ensures NamesKept(s, SetPool(s, listing).state) && ListedOk(SetPool(s, listing).state)
  {
    if s.connected && listing.Some? { ListingNames(s, s.nextPool, listing.value); }
  }

  lemma ListingNames(s: State, p: nat, l: Listing)
    requires Handles(s, l)
    ensures NamesKept(s, HoldListing(HoldPool(s), p, l)) && ListedOk(HoldListing(HoldPool(s), p, l))
  {
    ListingMerges(s, l);
    HeldFields(s, p, l);
    HeldNames(s, HoldListing(HoldPool(s), p, l), l);
  }

  lemma HeldFields(s: State, p: nat, l: Listing)
    ensures var s' := HoldListing(HoldPool(s), p, l);
            s'.volName == AllNames(s.volName, l) && s'.nextVol == l.next && ListedOf(s'.ctl) == l.named
  {
  }

  lemma HeldNames(s: State, s': State, l: Listing)
    requires s'.volName == AllNames(s.volName, l) && s'.nextVol == l.next && ListedOf(s'.ctl) == l.named
            && s.nextVol <= l.next
    requires forall v :: v in s.volName && v < s.nextVol ==>
               v in AllNames(s.volName, l) && AllNames(s.volName, l)[v] == s.volName[v]
    requires forall n :: n in l.named ==>
               l.named[n] in AllNames(s.volName, l) && l.named[n] < l.next && AllNames(s.volName, l)[l.named[n]] == n
    ensures NamesKept(s, s') && ListedOk(s')
  {
  }

  ghost function AllNames(volName: map<nat, string>, l: Listing): map<nat, string> {
    volName + NamesOf(l.named) + NamesOf(l.unnamed)
  }

  lemma ListingMerges(s: State, l: Listing)
    requires Handles(s, l)
    ensures forall v :: v in s.volName && v < s.nextVol ==>
               v in AllNames(s.volName, l) && AllNames(s.volName, l)[v] == s.volName[v]
    ensures forall n :: n in l.named ==>
              l.named[n] in AllNames(s.volName, l) && l.named[n] < l.next && AllNames(s.volName, l)[l.named[n]] == n
  {
    NewNames(s, l.named);
    NewNames(s, l.unnamed);
    MergedNames(s.volName, NamesOf(l.named), NamesOf(l.unnamed), s.nextVol);
    forall n | n in l.named
      ensures l.named[n] in AllNames(s.volName, l) && AllNames(s.volName, l)[l.named[n]] == n
    {
      ListedName(l.named, n);
      assert l.named[n] in l.named.Values && l.named[n] !in l.unnamed.Values;
    }
  }

  lemma ListedName(handles: map<string, nat>, n: string)
    requires Distinct(handles) && n in handles
    ensures handles[n] in NamesOf(handles) && NamesOf(handles)[handles[n]] == n
  {
    assert handles[n] in handles.Values;
    assert NamesOf(handles)[handles[n]] == NameOf(handles, handles[n]);
  }

  lemma MergedNames(a: map<nat, string>, b: map<nat, string>, c: map<nat, string>, bound: nat)
    requires forall v :: v in b ==> v >= bound
    requires forall v :: v in c ==> v >= bound
    ensures forall v :: v in a && v < bound ==> v in a + b + c && (a + b + c)[v] == a[v]
    ensures forall v :: v in b && v !in c ==> v in a + b + c && (a + b + c)[v] == b[v]
  {
  }

  lemma NewNames(s: State, handles: map<string, nat>)
    requires forall n :: n in handles ==> handles[n] >= s.nextVol
    ensures forall v :: v in NamesOf(handles) ==> v >= s.nextVol
  {
  }

  // Only processing and listing give out handles.
  predicate SameNames(s: State, s': State) {
    s'.volName == s.volName && s'.nextVol == s.nextVol
  }

  lemma MainNames(s: State, l: Label)
    requires !WorkerLabel(l) && !l.PoolReady? && Do(s, l).Next?
    ensures SameNames(s, Do(s, l).state)
  {
    match l {
      case Added(file, update) => AddNames(s, file, update);
      case Visit(name, update) => VisitNames(s, name, update);
      case FinishOne => DrainFrame(s);
      case Modified(file) => WatchListed(s, file);
      case Deleted(file) => WatchListed(s, file);
      case Sweep(name) => SweepListed(s, name);
      case Size(name, infoOk, update) => SizeListed(s, name, infoOk, update);
      case UnsetFile(name) => UnsetListed(s, name);
      case _ => TurnStep(s, l, s.nextVol);
    }
  }

  lemma AddNames(s: State, file: Resource, update: Option<string>)
    requires AddFile(s, file, update).Next?
    ensures SameNames(s, AddFile(s, file, update).state)
  {
  }

  lemma VisitNames(s: State, name: string, update: Option<string>)
    requires VisitOne(s, name, update).Next?
    ensures SameNames(s, VisitOne(s, name, update).state)
  {
  }

  lemma TakeNames(s: State, w: nat)
    ensures TakeJob(s, w).Next? ==> SameNames(s, TakeJob(s, w).state)
    ensures ReportJob(s, w).Next? ==> SameNames(s, ReportJob(s, w).state)
  {
  }

  lemma NamesStep(s: State, l: Label)
    requires Do(s, l).Next?
    ensures NamesKept(s, Do(s, l).state)
  {
    if l.PoolReady? {
      SetPoolNames(s, l.listing);
    } else if !WorkerLabel(l) {
      MainNames(s, l);
    } else if l.Process? {
      ProcessNames(s, l.w, l.ok);
    } else {
      TakeNames(s, l.w);
    }
  }

  lemma JobStaysOk(s: State, s': State, job: Job)
    requires NamesKept(s, s') && Fresh(s, s')
    ensures CreateOk(s, job) ==> CreateOk(s', job)
    ensures OutstandingOk(s, job) ==> OutstandingOk(s', job)
  {
  }

  lemma QueuesMain(s: State, s': State)
    requires QueuesOk(s) && MainFrame(s, s') && NamesKept(s, s') && Fresh(s, s')
    requires |s'.submitted| == |s.submitted| + 1 ==> OutstandingOk(s', s'.submitted[|s.submitted|])
    ensures QueuesOk(s')
  {
    forall job: Job ensures CreateOk(s, job) ==> CreateOk(s', job)
            ensures OutstandingOk(s, job) ==> OutstandingOk(s', job) { JobStaysOk(s, s', job); }
  }

  lemma QueuesWorker(s: State, s': State, l: Label)
    requires QueuesOk(s) && WorkerMove(s, s', l) && NamesKept(s, s') && Fresh(s, s')
    requires l.Process? ==> DoneOk(s', s'.workers[l.w].done)
    ensures QueuesOk(s')
  {
    forall job: Job ensures CreateOk(s, job) ==> CreateOk(s', job)
            ensures OutstandingOk(s, job) ==> OutstandingOk(s', job) { JobStaysOk(s, s', job); }
  }

  lemma ProcessDone(s: State, w: nat, ok: bool)
    requires w < |s.workers| && s.workers[w].Holding? && OutstandingOk(s, s.workers[w].job)
            && ProcessJob(s, w, ok).Next?
    ensures var s' := ProcessJob(s, w, ok).state; DoneOk(s', s'.workers[w].done)
  {
  }

  lemma NewJob(s: State, l: Label)
    requires Index(s) && Denotes(s) && !WorkerLabel(l) && Do(s, l).Next?
    ensures var s' := Do(s, l).state;
            |s'.submitted| == |s.submitted| + 1 ==> OutstandingOk(s', s'.submitted[|s.submitted|])
  {
    match l {
      case Added(file, update) => AddJob(s, file, update);
      case Visit(name, update) => VisitJob(s, name, update);
      case Modified(_) =>
      case Deleted(_) =>
      case Sweep(name) => SweepJob(s, name);
      case FinishOne => DrainFrame(s);
      case Size(_, _, _) =>
      case UnsetFile(_) =>
      case PoolReady(_) =>
      case _ => TurnStep(s, l, s.nextVol);
    }
  }

  lemma AddJob(s: State, file: Resource, update: Option<string>)
    requires Index(s) && AddFile(s, file, update).Next?
    ensures var s' := AddFile(s, file, update).state;
            |s'.submitted| == |s.submitted| + 1 ==> OutstandingOk(s', s'.submitted[|s.submitted|])
  {
  }

  lemma SweepJob(s: State, name: string)
    requires ListedOk(s) && SweepOne(s, name).Next?
    ensures var s' := SweepOne(s, name).state; OutstandingOk(s', s'.submitted[|s.submitted|])
  {
    assert Named(s, ListedOf(s.ctl)[name], name);
  }

  lemma VisitJob(s: State, name: string, update: Option<string>)
    requires Index(s) && VisitOne(s, name, update).Next?
    ensures var s' := VisitOne(s, name, update).state;
            |s'.submitted| == |s.submitted| + 1 ==> OutstandingOk(s', s'.submitted[|s.submitted|])
  {
    assert Indexed(s.cfg, name, s.files[name]);
  }

  // Each entry's handle is the old one, or none, or one that denotes its name.
  predicate EntriesMove(s: State, s': State) {
    forall n :: n in s'.files && s'.files[n].vol.Some? ==>
      (n in s.files && s'.files[n].vol == s.files[n].vol) || Named(s, s'.files[n].vol.value, n)
  }

  lemma AddMoves(s: State, file: Resource, update: Option<string>)
    requires AddFile(s, file, update).Next?
    ensures EntriesMove(s, AddFile(s, file, update).state)
  {
  }

  lemma ModifyMoves(s: State, file: Resource)
    requires ModifyFile(s, file).Next?
    ensures EntriesMove(s, ModifyFile(s, file).state)
  {
  }

  lemma SizeMoves(s: State, name: string, infoOk: bool, update: Option<string>)
    requires SizeOne(s, name, infoOk, update).Next?
    ensures EntriesMove(s, SizeOne(s, name, infoOk, update).state)
  {
  }

  lemma VisitMoves(s: State, name: string, update: Option<string>)
    requires Index(s) && ListedOk(s) && VisitOne(s, name, update).Next?
    ensures EntriesMove(s, VisitOne(s, name, update).state)
  {
    assert Indexed(s.cfg, name, s.files[name]);
    if name in s.ctl.listed { assert Named(s, ListedOf(s.ctl)[name], name); }
  }

  lemma UnsetMoves(s: State, name: string)
    requires UnsetOne(s, name).Next?
    ensures EntriesMove(s, UnsetOne(s, name).state)
  {
  }

  lemma FinishMoves(s: State)
    requires Index(s) && QueuesOk(s) && DrainOne(s).Next?
    ensures EntriesMove(s, DrainOne(s).state)
  {
    var d := s.completed[0];
    assert DoneOk(s, d);
  }

  lemma EntriesStep(s: State, l: Label)
    requires Index(s) && Denotes(s) && Do(s, l).Next?
    ensures EntriesMove(s, Do(s, l).state)
  {
    match l {
      case FinishOne => FinishMoves(s);
      case Added(file, update) => AddMoves(s, file, update);
      case Modified(file) => ModifyMoves(s, file);
      case Visit(name, update) => VisitMoves(s, name, update);
      case UnsetFile(name) => UnsetMoves(s, name);
      case Size(name, infoOk, update) => SizeMoves(s, name, infoOk, update);
      case Deleted(_) =>
      case Sweep(_) =>
      case PoolReady(_) =>
      case Take(_) => WorkerStep(s, l);
      case Process(_, _) => WorkerStep(s, l);
      case Report(_) => WorkerStep(s, l);
      case _ => TurnStep(s, l, s.nextVol);
    }
  }

  predicate Shrinks(m: map<string, nat>, m': map<string, nat>) {
    forall n :: n in m' ==> n in m && m'[n] == m[n]
  }

  lemma AddListed(s: State, file: Resource, update: Option<string>)
    requires AddFile(s, file, update).Next?
    ensures AddFile(s, file, update).state.ctl == s.ctl
  {
  }

  lemma VisitListed(s: State, name: string, update: Option<string>)
    requires VisitOne(s, name, update).Next?
    ensures Shrinks(ListedOf(s.ctl), ListedOf(VisitOne(s, name, update).state.ctl))
  {
  }

  lemma WatchListed(s: State, file: Resource)
    ensures var o := ModifyFile(s, file); o.Next? ==> o.state.ctl == s.ctl && SameNames(s, o.state)
    ensures var o := DeleteFile(s, file); o.Next? ==> o.state.ctl == s.ctl && SameNames(s, o.state)
  {
  }

  lemma SweepListed(s: State, name: string)
    requires SweepOne(s, name).Next?
    ensures Shrinks(ListedOf(s.ctl), ListedOf(SweepOne(s, name).state.ctl)) && SameNames(s, SweepOne(s, name).state)
  {
  }

  lemma UnsetListed(s: State, name: string)
    requires UnsetOne(s, name).Next?
    ensures ListedOf(UnsetOne(s, name).state.ctl) == map[] && SameNames(s, UnsetOne(s, name).state)
  {
  }

  lemma SizeListed(s: State, name: string, infoOk: bool, update: Option<string>)
    requires SizeOne(s, name, infoOk, update).Next?
    ensures ListedOf(SizeOne(s, name, infoOk, update).state.ctl) == map[]
    ensures SameNames(s, SizeOne(s, name, infoOk, update).state)
  {
  }

  lemma ListedStep(s: State, l: Label)
    requires !l.PoolReady? && Do(s, l).Next?
    ensures Shrinks(ListedOf(s.ctl), ListedOf(Do(s, l).state.ctl))
  {
    match l {
      case FinishOne => DrainFrame(s);
      case Added(file, update) => AddListed(s, file, update);
      case Visit(name, update) => VisitListed(s, name, update);
      case Modified(file) => WatchListed(s, file);
      case Deleted(file) => WatchListed(s, file);
      case Sweep(name) => SweepListed(s, name);
      case UnsetFile(name) => UnsetListed(s, name);
      case Size(name, infoOk, update) => SizeListed(s, name, infoOk, update);
      case Take(_) => WorkerStep(s, l);
      case Process(_, _) => WorkerStep(s, l);
      case Report(_) => WorkerStep(s, l);
      case _ => TurnStep(s, l, s.nextVol);
    }
  }

  lemma DenotesStep(s: State, l: Label)
    requires Index(s) && Denotes(s) && Do(s, l).Next?
    ensures Denotes(Do(s, l).state)
  {
    var s' := Do(s, l).state;
    NamesStep(s, l);
    FreshStep(s, l);
    EntriesStep(s, l);
    if l.PoolReady? { SetPoolNames(s, l.listing); } else { ListedStep(s, l); }
    if WorkerLabel(l) {
      WorkerStep(s, l);
      if l.Process? { ProcessDone(s, l.w, l.ok); }
      QueuesWorker(s, s', l);
    } else {
      MainKept(s, l);
      NewJob(s, l);
      QueuesMain(s, s');
    }
  }

  lemma {:induction false} DenotesOverRuns(s: State, labels: seq<Label>)
    requires Inv(s) && Denotes(s) && Run(s, labels).Next?
    ensures Denotes(Run(s, labels).state)
  {
    if labels != [] {
      var n := |labels| - 1;
      DenotesOverRuns(s, labels[..n]);
      RunsAreSafe(s, labels[..n]);
      DenotesStep(Run(s, labels[..n]).state, labels[n]);
    }
  }

  // In every state that a run comes to, handles denote the volumes of their files.
  lemma ReachedDenotes(s: State)
    requires Reached(s)
    ensures Denotes(s)
  {
    var cfg: Config, items: seq<Resource>, storage: map<string, nat>, labels: seq<Label>
      :| cfg.workers <= 255 && Run(Init(cfg, items, storage), labels) == Next(s);
    InitInv(cfg, items, storage);
    LoadedFiles(cfg, items);
    assert FreshTable(cfg, LoadFiles(cfg, items), |items|);
    DenotesOverRuns(Init(cfg, items, storage), labels);
  }
}
