// Reference counts: every step keeps each count equal to its holders plus the
// references that were dropped, so no step frees or uses a dead handle.
module RepoHandles {
  import opened Common
  import opened RepoModel

  // ---- Who holds a volume handle ----

  function One(b: bool): nat { if b then 1 else 0 }

  function EntryHolds(e: Entry, h: nat): nat { One(e.vol == Some(h)) }

  function ListedHolds(v: nat, h: nat): nat { One(v == h) }

  function JobHolds(j: Job, h: nat): nat { One(!j.Create? && j.vol == h) }

  function DoneHolds(d: Done, h: nat): nat { One(d.result == Some(h)) }

  function SlotHolds(slot: Slot, h: nat): nat {
    match slot
    case Idle => 0
    case Holding(job) => JobHolds(job, h)
    case Reporting(done) => DoneHolds(done, h)
  }

  function ListedOf(ctl: Control): map<string, nat> {
    match ctl
    case Visiting(_, _, listed) => listed
    case Sweeping(_, listed) => listed
    case _ => map[]
  }

  // File entries, listed volumes not yet dealt with, resize and delete jobs not
  // yet processed, and results of creates not yet finished.
  ghost function VolHolders(s: State, h: nat): nat {
    CountMap(EntryHolds, h, s.files) + CountMap(ListedHolds, h, ListedOf(s.ctl)) + Count(JobHolds, h, s.pending)
    + Count(SlotHolds, h, s.workers) + Count(DoneHolds, h, s.completed)
  }

  // ---- Who holds a pool handle ----

  function JobHoldsPool(j: Job, p: nat): nat { One(j.Create? && j.pool == p) }

  function SlotHoldsPool(slot: Slot, p: nat): nat {
    if slot.Holding? then JobHoldsPool(slot.job, p) else 0
  }

  // The reference that a failed create never frees.
  function FailedHoldsPool(x: Processed, p: nat): nat {
    if x.ok then 0 else JobHoldsPool(x.job, p)
  }

  function AfterHolds(after: After, p: nat): nat { One(after == ReleasePool(p)) }

  // The reference that the main loop received and has not yet given back.
  function ArmHolds(ctl: Control, p: nat): nat {
    match ctl
    case Visiting(arm, _, _) => One(arm == p)
    case Sweeping(arm, _) => One(arm == p)
    case Loaded(arm) => One(arm == p)
    case Draining(after) => AfterHolds(after, p)
    case Sizing(after, _) => AfterHolds(after, p)
    case _ => 0
  }

  // The repository, the main loop, create jobs not yet processed, and creates
  // that failed.
  function PoolHolders(s: State, p: nat): nat {
    One(s.pool == Some(p)) + ArmHolds(s.ctl, p) + Count(JobHoldsPool, p, s.pending)
    + Count(SlotHoldsPool, p, s.workers) + Count(FailedHoldsPool, p, s.log)
  }

  ghost predicate VolAccounted(s: State, h: nat) {
    s.volRefs[h] == VolHolders(s, h) + s.volLost[h]
  }

  ghost predicate PoolAccounted(s: State, p: nat) {
    s.poolRefs[p] == PoolHolders(s, p) + s.poolDropped[p]
  }

  ghost predicate Accounted(s: State, h: nat) {
    VolAccounted(s, h) && PoolAccounted(s, h)
  }

  // Only creates have results.
  predicate WellDone(d: Done) {
    d.result.Some? ==> d.job.Create?
  }

  // ---- Steps of the main loop ----

  lemma SendCounts(s: State, job: Job, h: nat)
    ensures Count(JobHolds, h, s.pending + [job]) == Count(JobHolds, h, s.pending) + JobHolds(job, h)
    ensures Count(JobHoldsPool, h, s.pending + [job]) == Count(JobHoldsPool, h, s.pending) + JobHoldsPool(job, h)
  {
    CountSnoc(JobHolds, h, s.pending, job);
    CountSnoc(JobHoldsPool, h, s.pending, job);
  }

  lemma CreateKeeps(s: State, name: string, update: Option<string>, h: nat)
    requires Accounted(s, h) && CreateFileVolume(s, name, update).Next?
    ensures Accounted(CreateFileVolume(s, name, update).state, h)
  {
    var s' := CreateFileVolume(s, name, update).state;
    CountMapUpdate(EntryHolds, h, s.files, name, s'.files[name]);
    SendCounts(s, s'.submitted[|s.submitted|], h);
  }

  lemma AddKeeps(s: State, file: Resource, update: Option<string>, h: nat)
    requires Accounted(s, h) && AddFile(s, file, update).Next?
    ensures Accounted(AddFile(s, file, update).state, h)
  {
    var name := VolKey(s.cfg, file.name);
    if file.repoName == s.cfg.repoName && name !in s.files {
      var e := Entry(s.nextFile, Some(file), None);
      CountMapUpdate(EntryHolds, h, s.files, name, e);
      CreateKeeps(s.(files := s.files[name := e], nextFile := s.nextFile + 1), name, update, h);
    }
  }

  lemma ModifyKeeps(s: State, file: Resource, h: nat)
    requires Accounted(s, h) && ModifyFile(s, file).Next?
    ensures Accounted(ModifyFile(s, file).state, h)
  {
    var name := VolKey(s.cfg, file.name);
    if file.repoName == s.cfg.repoName && name in s.files {
      var e := s.files[name];
      if file.version != e.resource.value.version {
        CountMapUpdate(EntryHolds, h, s.files, name, e.(resource := Some(file)));
        if file.capacity != e.resource.value.capacity {
          SendCounts(s, Resize(|s.submitted|, e.vol.value, file.capacity, s.cfg.preallocate), h);
        }
      }
    }
  }

  lemma DeleteKeeps(s: State, file: Resource, h: nat)
    requires Accounted(s, h) && DeleteFile(s, file).Next?
    ensures Accounted(DeleteFile(s, file).state, h)
  {
    var name := VolKey(s.cfg, file.name);
    if file.repoName == s.cfg.repoName && name in s.files {
      CountMapRemove(EntryHolds, h, s.files, name);
      if s.files[name].vol.Some? {
        SendCounts(s, Delete(|s.submitted|, s.files[name].vol.value), h);
      }
    }
  }

  lemma UnsetKeeps(s: State, name: string, h: nat)
    requires Accounted(s, h) && UnsetOne(s, name).Next?
    ensures Accounted(UnsetOne(s, name).state, h)
  {
    var e := s.files[name];
    if e.vol.Some? {
      CountMapUpdate(EntryHolds, h, s.files, name, e.(vol := None));
      assert UnsetOne(s, name).state.volRefs[h] + One(e.vol == Some(h)) == s.volRefs[h];
    }
  }

  lemma VisitKeeps(s: State, name: string, update: Option<string>, h: nat)
    requires Accounted(s, h) && VisitOne(s, name, update).Next?
    ensures Accounted(VisitOne(s, name, update).state, h)
  {
    var key := VolKey(s.cfg, s.files[name].resource.value.name);
    if key in s.ctl.listed {
      var s' := VisitOne(s, name, update).state;
      CountMapUpdate(EntryHolds, h, s.files, name, s'.files[name]);
      CountMapRemove(ListedHolds, h, s.ctl.listed, key);
    } else {
      CreateKeeps(s.(ctl := Visiting(s.ctl.arm, s.ctl.todo - {name}, s.ctl.listed)), key, update, h);
    }
  }

  lemma SweepKeeps(s: State, name: string, h: nat)
    requires Accounted(s, h) && SweepOne(s, name).Next?
    ensures Accounted(SweepOne(s, name).state, h)
  {
    CountMapRemove(ListedHolds, h, s.ctl.listed, name);
    SendCounts(s, Delete(|s.submitted|, s.ctl.listed[name]), h);
  }

  lemma StoreKeeps(s: State, n: string, result: Option<nat>, h: nat)
    requires n in s.files && s.files[n].resource.Some? && s.files[n].vol.None?
    ensures CountMap(EntryHolds, h, FinishCreate(s.files, n, result))
         == CountMap(EntryHolds, h, s.files) + One(result == Some(h))
  {
    CountMapUpdate(EntryHolds, h, s.files, n, FinishCreate(s.files, n, result)[n]);
  }

  lemma FinishKeeps(s: State, d: Done, h: nat)
    requires FinishJob(s, d).Next? && WellDone(d)
    ensures var s' := FinishJob(s, d).state;
            && s' == s.(files := s'.files, volRefs := s'.volRefs, volLost := s'.volLost)
            && s'.volRefs[h] + CountMap(EntryHolds, h, s.files) + s.volLost[h] + DoneHolds(d, h)
               == s.volRefs[h] + CountMap(EntryHolds, h, s'.files) + s'.volLost[h]
  {
    assert DoneHolds(d, h) == Bag(d.result)[h];
    if d.job.Create? && Owns(s.files, d.job.file) {
      var n := OwnerOf(s.files, d.job.file);
      if s.files[n].vol.None? { StoreKeeps(s, n, d.result, h); }
    }
  }

  lemma DrainKeeps(s: State, h: nat)
    requires Accounted(s, h) && DrainOne(s).Next? && WellDone(s.completed[0])
    ensures Accounted(DrainOne(s).state, h)
  {
    var d := s.completed[0];
    FinishKeeps(s.(completed := s.completed[1..], finished := s.finished + [d]), d, h);
  }

  lemma SizeKeeps(s: State, name: string, infoOk: bool, update: Option<string>, h: nat)
    requires Accounted(s, h) && SizeOne(s, name, infoOk, update).Next?
    ensures Accounted(SizeOne(s, name, infoOk, update).state, h)
  {
    var e := s.files[name];
    if e.vol.Some? {
      CountMapUpdate(EntryHolds, h, s.files, name, SizeOne(s, name, infoOk, update).state.files[name]);
    }
  }

  // The handles of a listing are all different, so each counts once.
  lemma {:induction false} ListedCount(handles: map<string, nat>, h: nat)
    requires Distinct(handles)
    ensures CountMap(ListedHolds, h, handles) == HandleBag(handles)[h]
  {
    if n :| n in handles && handles[n] == h {
      CountMapRemove(ListedHolds, h, handles, n);
      CountMapZero(ListedHolds, h, handles - {n});
    } else {
      CountMapZero(ListedHolds, h, handles);
    }
  }

  lemma HoldPoolKeeps(s: State, h: nat)
    requires Accounted(s, h) && s.ctl == Loop
    ensures VolAccounted(HoldPool(s), h)
    ensures forall ctl: Control :: ArmHolds(ctl, h) == One(s.nextPool == h) ==>
              PoolAccounted(HoldPool(s).(ctl := ctl), h)
  {
    var s' := HoldPool(s);
    assert s'.poolRefs[h] == s.poolRefs[h] + One(s.nextPool == h) + One(s.nextPool == h);
    assert s'.poolDropped[h] == s.poolDropped[h] + One(s.pool == Some(h));
  }

  lemma HoldListingKeeps(s: State, p: nat, l: Listing, h: nat)
    requires VolAccounted(s, h) && s.ctl == Loop
    requires CountMap(ListedHolds, h, l.named) == HandleBag(l.named)[h]
    ensures VolAccounted(HoldListing(s, p, l), h)
  {
    var s' := HoldListing(s, p, l);
    assert ListedOf(s'.ctl) == l.named;
    assert CountMap(ListedHolds, h, ListedOf(s.ctl)) == 0;
    assert s'.volRefs[h] == s.volRefs[h] + HandleBag(l.named)[h] + HandleBag(l.unnamed)[h];
  }

  lemma SetPoolKeeps(s: State, listing: Option<Listing>, h: nat)
    requires Accounted(s, h) && SetPool(s, listing).Next?
    ensures Accounted(SetPool(s, listing).state, h)
  {
    if s.connected {
      HoldPoolKeeps(s, h);
      var ctl := SetPool(s, listing).state.ctl;
      assert PoolAccounted(HoldPool(s).(ctl := ctl), h);
      if listing.Some? {
        ListedCount(listing.value.named, h);
        HoldListingKeeps(HoldPool(s), s.nextPool, listing.value, h);
      }
    }
  }

  // ---- Steps of the workers ----

  lemma TakeKeeps(s: State, w: nat, h: nat)
    requires Accounted(s, h) && TakeJob(s, w).Next?
    ensures Accounted(TakeJob(s, w).state, h)
  {
    var slot := Holding(s.pending[0]);
    CountUpdate(SlotHolds, h, s.workers, w, slot);
    CountUpdate(SlotHoldsPool, h, s.workers, w, slot);
  }

  lemma ProcessKeeps(s: State, w: nat, ok: bool, h: nat)
    requires Accounted(s, h) && ProcessJob(s, w, ok).Next?
    ensures Accounted(ProcessJob(s, w, ok).state, h)
  {
    ProcessKeepsVol(s, w, ok, h);
    ProcessKeepsPool(s, w, ok, h);
  }

  lemma ProcessKeepsVol(s: State, w: nat, ok: bool, h: nat)
    requires VolAccounted(s, h) && ProcessJob(s, w, ok).Next?
    ensures VolAccounted(ProcessJob(s, w, ok).state, h)
  {
    var job := s.workers[w].job;
    var slot := Reporting(Done(job, if job.Create? && ok then Some(s.nextVol) else None));
    CountUpdate(SlotHolds, h, s.workers, w, slot);
    var s' := ProcessJob(s, w, ok).state;
    assert s'.workers == s.workers[w := slot];
    if job.Create? {
      assert s'.volRefs[h] == s.volRefs[h] + One(ok && s.nextVol == h);
    } else {
      assert s'.volRefs[h] == s.volRefs[h] - One(job.vol == h);
    }
  }

  lemma ProcessKeepsPool(s: State, w: nat, ok: bool, p: nat)
    requires PoolAccounted(s, p) && ProcessJob(s, w, ok).Next?
    ensures PoolAccounted(ProcessJob(s, w, ok).state, p)
  {
    var job := s.workers[w].job;
    var slot := Reporting(Done(job, if job.Create? && ok then Some(s.nextVol) else None));
    CountUpdate(SlotHoldsPool, p, s.workers, w, slot);
    var s' := ProcessJob(s, w, ok).state;
    assert s'.workers == s.workers[w := slot];
    CountSnoc(FailedHoldsPool, p, s.log, Processed(job, TargetOf(s.volName, job), ok));
    assert s'.poolRefs[p] == s.poolRefs[p] - One(ok && job.Create? && job.pool == p);
  }

  lemma ReportKeeps(s: State, w: nat, h: nat)
    requires Accounted(s, h) && ReportJob(s, w).Next?
    ensures Accounted(ReportJob(s, w).state, h)
  {
    CountUpdate(SlotHolds, h, s.workers, w, Idle);
    CountUpdate(SlotHoldsPool, h, s.workers, w, Idle);
    CountSnoc(DoneHolds, h, s.completed, s.workers[w].done);
  }
}
