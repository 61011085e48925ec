// The Repository object itself: its methods, with the loops and the in-place
// updates of the program, each tied to the steps of the model.
//
// A call that waits at a send on a full channel is shown as not yet begun, as in
// the step model, where a send and what goes with it are one step: the method
// says that it waits, and can be called again when a worker has taken a job.
module RepositoryObject {
  import opened Common
  import opened RepoModel
  import opened RepoHandles
  import opened RepoInvariant
  import R = RepoReconcile

  // One file; id stands for the address that create jobs remember.
  class RepositoryFile {
    const id: nat
    var resource: Option<Resource>
    var vol: Option<nat>

    constructor (id: nat, resource: Resource)
      ensures this.id == id && this.resource == Some(resource) && this.vol == None
    {
      this.id := id;
      this.resource := Some(resource);
      this.vol := None;
    }
  }

  function FileView(file: RepositoryFile): Entry
    reads file
  {
    Entry(file.id, file.resource, file.vol)
  }

  ghost function TableView(files: map<string, RepositoryFile>): map<string, Entry>
    reads files.Values
  {
    map n | n in files :: FileView(files[n])
  }

  // A call that neither panics nor is out of place: it goes through, or waits.
  predicate Goes(o: Outcome) {
    o.Next? || o.Blocked?
  }

  // What such a call does to the state.
  predicate Took(s: State, o: Outcome, waits: bool, s': State) {
    if o.Blocked? then waits && s' == s else !waits && o == Next(s')
  }

  class Repository {
    const cfg: Config
    var files: map<string, RepositoryFile>
    var pool: Option<nat>
    var pendingJobs: seq<Job>
    var completedJobs: seq<Done>
    var nextFile: nat
    var jobCount: nat
    // Everything outside the object: the workers, libvirt, the place in the main
    // loop, and the history.
    ghost var world: State

    ghost predicate Valid()
      reads this
    {
      && world.cfg == cfg
      && jobCount == |world.submitted|
      && forall m, n :: m in files && n in files && files[m] == files[n] ==> m == n
    }

    ghost function View(): State
      reads this, files.Values
    {
      world.(files := TableView(files), pool := pool, pending := pendingJobs, completed := completedJobs,
          nextFile := nextFile)
    }

    // CreateRepository: empty channels and idle workers.
    constructor (cfg: Config, storage: map<string, nat>)
      ensures Valid() && this.cfg == cfg && View() == Init(cfg, [], storage)
    {
      this.cfg, files, pool, pendingJobs, completedJobs := cfg, map[], None, [], [];
      nextFile, jobCount, world := 0, 0, Init(cfg, [], storage);
      new;
      assert TableView(files) == map[];
    }

    // loadFileResources, before anything else has happened.
    method LoadFileResources(items: seq<Resource>)
      requires Valid() && files == map[] && nextFile == 0
      modifies this`files, this`nextFile
      ensures Valid() && fresh(files.Values)
      ensures View() == old(View()).(files := LoadFiles(cfg, items), nextFile := |items|)
    {
      ghost var before := View();
      assert TableView(files) == map[];
      for i := 0 to |items|
        invariant Valid() && fresh(files.Values) && nextFile == i
        invariant View() == before.(files := LoadFiles(cfg, items[..i]), nextFile := i)
      {
        LoadedNext(cfg, items, i);
        nextFile := i + 1;
        if items[i].repoName == cfg.repoName {
          StoreFile(VolKey(cfg, items[i].name), i, items[i]);
        }
      }
      assert items[..|items|] == items;
    }

    method StoreFile(name: string, id: nat, file: Resource)
      requires Valid()
      modifies this`files
      ensures Valid() && fresh(files.Values - old(files.Values))
      ensures View() == old(View()).(files := old(View()).files[name := Entry(id, Some(file), None)])
    {
      ghost var before := View();
      var entry := new RepositoryFile(id, file);
      files := files[name := entry];
      assert TableView(files) == before.files[name := FileView(entry)];
    }

    // An entry of its own for a file that was not there.
    method StoreNew(name: string, file: Resource)
      requires Valid()
      modifies this`files, this`nextFile
      ensures Valid() && fresh(files.Values - old(files.Values))
      ensures var s := old(View());
              View() == s.(files := s.files[name := Entry(s.nextFile, Some(file), None)], nextFile := s.nextFile + 1)
    {
      StoreFile(name, nextFile, file);
      nextFile := nextFile + 1;
    }

    // A send on pendingJobs that finds room.
    method Enqueue(job: Job)
      requires Valid() && |pendingJobs| < CAPACITY
      modifies this`pendingJobs, this`jobCount, this`world
      ensures Valid() && Send(old(View()), job) == Next(View())
    {
      pendingJobs := pendingJobs + [job];
      jobCount := jobCount + 1;
      world := world.(submitted := world.submitted + [job]);
    }

    method CreateFileVolume(name: string, update: Option<string>) returns (waits: bool)
      requires Valid() && Goes(RepoModel.CreateFileVolume(View(), name, update))
      modifies this`pendingJobs, this`jobCount, this`world, files.Values
      ensures Valid() && Took(old(View()), RepoModel.CreateFileVolume(old(View()), name, update), waits, View())
    {
      if |pendingJobs| >= CAPACITY { return true; }
      var file := files[name];
      var r := file.resource.value.(phase := Pending);
      EnqueueCreate(file.id, name, r.capacity);
      StoreResource(name, if update.Some? then r.(version := update.value) else r);
      return false;
    }

    // Take a reference to the pool for the job and send it.
    method EnqueueCreate(file: nat, name: string, capacity: nat)
      requires Valid() && |pendingJobs| < CAPACITY && pool.Some?
      modifies this`pendingJobs, this`jobCount, this`world
      ensures Valid()
      ensures var s, p := old(View()), pool.value;
              var job := Create(|s.submitted|, file, name, p, if cfg.preallocate then capacity else 0, capacity);
              View() == s.(pending := s.pending + [job], submitted := s.submitted + [job],
                           poolRefs := s.poolRefs + multiset{p})
    {
      world := world.(poolRefs := world.poolRefs + multiset{pool.value});
      Enqueue(Create(jobCount, file, name, pool.value, if cfg.preallocate then capacity else 0, capacity));
    }

    method StoreResource(name: string, r: Resource)
      requires Valid() && name in files
      modifies files[name]
      ensures Valid()
      ensures View() == old(View()).(files := old(View()).files[name := old(View()).files[name].(resource := Some(r))])
    {
      ghost var before := View();
      files[name].resource := Some(r);
      assert TableView(files) == before.files[name := before.files[name].(resource := Some(r))];
    }

    method AddFile(file: Resource, update: Option<string>) returns (waits: bool)
      requires Valid() && Goes(RepoModel.AddFile(View(), file, update))
      modifies this, files.Values
      ensures Valid() && Took(old(View()), RepoModel.AddFile(old(View()), file, update), waits, View())
    {
      if file.repoName != cfg.repoName { return false; }
      var name := VolKey(cfg, file.name);
      if name in files { return false; }
      if |pendingJobs| >= CAPACITY { return true; }
      StoreNew(name, file);
      waits := CreateFileVolume(name, update);
    }

    method ModifyFile(file: Resource) returns (waits: bool)
      requires Valid() && Goes(RepoModel.ModifyFile(View(), file))
      modifies this`pendingJobs, this`jobCount, this`world, files.Values
      ensures Valid() && Took(old(View()), RepoModel.ModifyFile(old(View()), file), waits, View())
    {
      if file.repoName != cfg.repoName { return false; }
      var name := VolKey(cfg, file.name);
      if name !in files { return false; }
      var entry := files[name];
      if file.version == entry.resource.value.version { return false; }
      if file.capacity != entry.resource.value.capacity {
        if |pendingJobs| >= CAPACITY { return true; }
        EnqueueResize(entry.vol.value, file.capacity);
      }
      StoreResource(name, file);
      return false;
    }

    // Take a reference for the job and send it.
    method EnqueueResize(vol: nat, size: nat)
      requires Valid() && |pendingJobs| < CAPACITY
      modifies this`pendingJobs, this`jobCount, this`world
      ensures Valid()
      ensures var s, job := old(View()), Resize(old(jobCount), vol, size, cfg.preallocate);
              View() == s.(pending := s.pending + [job], submitted := s.submitted + [job],
                           volRefs := s.volRefs + multiset{vol})
    {
      world := world.(volRefs := world.volRefs + multiset{vol});
      Enqueue(Resize(jobCount, vol, size, cfg.preallocate));
    }

    method DeleteFile(file: Resource) returns (waits: bool)
      requires Valid() && Goes(RepoModel.DeleteFile(View(), file))
      modifies this, files.Values
      ensures Valid() && Took(old(View()), RepoModel.DeleteFile(old(View()), file), waits, View())
    {
      if file.repoName != cfg.repoName { return false; }
      var name := VolKey(cfg, file.name);
      if name !in files { return false; }
      var entry := files[name];
      if entry.vol.Some? {
        if |pendingJobs| >= CAPACITY { return true; }
        Enqueue(Delete(jobCount, entry.vol.value));
      }
      ForgetFile(name);
      return false;
    }

    method ForgetFile(name: string)
      requires Valid() && name in files
      modifies this`files, files[name]
      ensures Valid() && View() == old(View()).(files := old(View()).files - {name})
    {
      ghost var before := View();
      files[name].vol := None;
      files := files - {name};
      assert TableView(files) == before.files - {name};
    }

    // ---- SetPool and loadVolumes ----

    // The branch for a file whose volume is listed.
    method KeepVolume(name: string, key: string, vols: map<string, nat>, update: Option<string>)
      requires Valid() && world.ctl.Visiting? && world.ctl.listed == vols && VisitOne(View(), name, update).Next?
      requires key == VolKey(cfg, files[name].resource.value.name) && key in vols
      modifies this`world, files.Values
      ensures Valid() && VisitOne(old(View()), name, update) == Next(View()) && world.ctl.listed == vols - {key}
    {
      ghost var before := View();
      var file := files[name];
      world := world.(volLost := world.volLost + Bag(file.vol),
                      ctl := Visiting(world.ctl.arm, world.ctl.todo - {name}, vols - {key}));
      file.vol := Some(vols[key]);
      var r := file.resource.value.(phase := Available);
      file.resource := Some(if update.Some? then r.(version := update.value) else r);
      assert TableView(files) == before.files[name := FileView(file)];
    }

    // The branch for a file whose volume is not listed.
    method MissVolume(name: string, key: string, vols: map<string, nat>, update: Option<string>)
      requires Valid() && world.ctl.Visiting? && world.ctl.listed == vols && VisitOne(View(), name, update).Next?
      requires key == VolKey(cfg, files[name].resource.value.name) && key !in vols
      modifies this`pendingJobs, this`jobCount, this`world, files.Values
      ensures Valid() && VisitOne(old(View()), name, update) == Next(View())
      ensures world.ctl.Visiting? && world.ctl.listed == vols
    {
      world := world.(ctl := Visiting(world.ctl.arm, world.ctl.todo - {name}, vols));
      var _ := CreateFileVolume(key, update);
    }

    method VisitFile(name: string, vols: map<string, nat>, update: Option<string>)
      returns (rest: map<string, nat>, waits: bool)
      requires Valid() && world.ctl.Visiting? && world.ctl.listed == vols && Goes(VisitOne(View(), name, update))
      modifies this`pendingJobs, this`jobCount, this`world, files.Values
      ensures Valid() && Took(old(View()), VisitOne(old(View()), name, update), waits, View())
      ensures world.ctl.Visiting? && rest == world.ctl.listed
    {
      var key := VolKey(cfg, files[name].resource.value.name);
      rest, waits := vols, false;
      if key in vols {
        rest := vols - {key};
        KeepVolume(name, key, vols, update);
      } else if |pendingJobs| >= CAPACITY {
        waits := true;
      } else {
        MissVolume(name, key, vols, update);
      }
    }

    // The first loop of loadVolumes, in any order of iteration; an update of the
    // API server succeeds for the names in updates, with that version. It ends, or
    // waits at a send, and what is sent and still to be sent stays the same.
    method VisitFiles(listed: map<string, nat>, updates: map<string, string>)
      returns (vols: map<string, nat>, waits: bool, ghost steps: seq<Label>)
      requires Valid() && Reached(View()) && AllKnown(View())
      requires world.ctl.Visiting? && world.ctl.todo == files.Keys && world.ctl.listed == listed
      modifies this`pendingJobs, this`jobCount, this`world, files.Values
      ensures Valid() && Run(old(View()), steps) == Next(View())
      ensures world.ctl.Visiting? && world.ctl.listed == vols
      ensures if waits then R.AtSend(View()) else world.ctl.todo == {}
      ensures Total(View()) == Total(old(View()))
    {
      ghost var start := View();
      steps, waits := [], false;
      var todo := files.Keys;
      vols := listed;
      while todo != {}
        invariant Valid() && world.ctl.Visiting? && world.ctl.todo == todo && world.ctl.listed == vols
        invariant Visits(start, steps, View())
        decreases todo
      {
        var name :| name in todo;
        var update := if name in updates then Some(updates[name]) else None;
        vols, waits := VisitNext(start, steps, name, vols, update);
        if waits { return; }
        steps := steps + [Visit(name, update)];
        todo := todo - {name};
      }
    }

    // One iteration, as a step of the run.
    method VisitNext(ghost start: State, ghost steps: seq<Label>, name: string, vols: map<string, nat>,
                     update: Option<string>)
      returns (rest: map<string, nat>, waits: bool)
      requires Valid() && Reached(start) && AllKnown(start) && Visits(start, steps, View())
      requires world.ctl.Visiting? && world.ctl.listed == vols && name in world.ctl.todo
      modifies this`pendingJobs, this`jobCount, this`world, files.Values
      ensures Valid() && world.ctl.Visiting? && rest == world.ctl.listed
      ensures if waits then View() == old(View()) && R.AtSend(View())
              else && Visits(start, steps + [Visit(name, update)], View())
                   && world.ctl.todo == old(world.ctl.todo) - {name}
    {
      VisitGoesOn(start, steps, View(), name, update);
      rest, waits := VisitFile(name, vols, update);
    }

    method DeleteVolume(name: string, vols: map<string, nat>) returns (rest: map<string, nat>, waits: bool)
      requires Valid() && world.ctl.Sweeping? && world.ctl.listed == vols && Goes(SweepOne(View(), name))
      modifies this`pendingJobs, this`jobCount, this`world
      ensures Valid() && Took(old(View()), SweepOne(old(View()), name), waits, View())
      ensures world.ctl.Sweeping? && rest == world.ctl.listed
    {
      if |pendingJobs| >= CAPACITY { return vols, true; }
      rest, waits := vols - {name}, false;
      world := world.(ctl := Sweeping(world.ctl.arm, rest));
      Enqueue(Delete(jobCount, vols[name]));
    }

    // The second loop of loadVolumes.
    method DeleteVolumes(listed: map<string, nat>) returns (waits: bool, ghost steps: seq<Label>)
      requires Valid() && world.ctl.Sweeping? && world.ctl.listed == listed
      modifies this`pendingJobs, this`jobCount, this`world
      ensures Valid() && Run(old(View()), steps) == Next(View()) && world.ctl.Sweeping?
      ensures if waits then R.AtSend(View()) else world.ctl.listed == map[]
      ensures Total(View()) == Total(old(View()))
    {
      ghost var start := View();
      steps, waits := [], false;
      var vols := listed;
      while vols != map[]
        invariant Valid() && world.ctl.Sweeping? && world.ctl.listed == vols
        invariant Run(start, steps) == Next(View()) && Total(View()) == Total(start)
        decreases |vols|
      {
        var name :| name in vols;
        ghost var before := View();
        SweepGoesOn(start, steps, before, name);
        vols, waits := DeleteVolume(name, vols);
        if waits { return; }
        steps := steps + [Sweep(name)];
      }
    }

    // loadVolumes after the listing: its two loops, one after the other. It ends
    // without waiting exactly if the channel has room for every job it sends: one
    // for each file without a volume and each volume without a file.
    method LoadVolumes(listed: map<string, nat>, updates: map<string, string>)
      returns (waits: bool, ghost steps: seq<Label>)
      requires Valid() && Reached(View()) && AllKnown(View())
      requires world.ctl.Visiting? && world.ctl.todo == files.Keys && world.ctl.listed == listed
      modifies this`pendingJobs, this`jobCount, this`world, files.Values
      ensures Valid() && Run(old(View()), steps) == Next(View())
      ensures if waits then R.AtSend(View()) else world.ctl.Loaded?
      ensures waits <==> Total(old(View())) > CAPACITY
    {
      ghost var start := View();
      var vols;
      vols, waits, steps := KeepOrCreate(listed, updates);
      ghost var toSweep := View();
      LoadBounds(start, steps, toSweep);
      if waits { return; }
      ghost var sweeps;
      waits, sweeps := DeleteRest(vols);
      TwoRuns(start, steps, toSweep, sweeps, View());
      steps := steps + sweeps;
      LoadBounds(start, steps, View());
    }

    method KeepOrCreate(listed: map<string, nat>, updates: map<string, string>)
      returns (vols: map<string, nat>, waits: bool, ghost steps: seq<Label>)
      requires Valid() && Reached(View()) && AllKnown(View())
      requires world.ctl.Visiting? && world.ctl.todo == files.Keys && world.ctl.listed == listed
      modifies this`pendingJobs, this`jobCount, this`world, files.Values
      ensures Valid() && Run(old(View()), steps) == Next(View())
      ensures if waits then R.AtSend(View()) else world.ctl.Sweeping? && world.ctl.listed == vols
      ensures Total(View()) == Total(old(View()))
    {
      ghost var start := View();
      vols, waits, steps := VisitFiles(listed, updates);
      if waits { return; }
      ghost var visited := View();
      TurnTo(Sweeping(world.ctl.arm, vols));
      VisitedAll(start, steps, visited, View());
      steps := steps + [VisitDone];
    }

    method DeleteRest(vols: map<string, nat>) returns (waits: bool, ghost steps: seq<Label>)
      requires Valid() && world.ctl.Sweeping? && world.ctl.listed == vols
      modifies this`pendingJobs, this`jobCount, this`world
      ensures Valid() && Run(old(View()), steps) == Next(View())
      ensures if waits then R.AtSend(View()) else world.ctl.Loaded?
      ensures Total(View()) == Total(old(View()))
    {
      ghost var start := View();
      waits, steps := DeleteVolumes(vols);
      if waits { return; }
      ghost var swept := View();
      TurnTo(Loaded(world.ctl.arm));
      SweptAll(start, steps, swept, View());
      steps := steps + [SweepDone];
    }

    // SetPool, from the receipt of the pool to saveRepo: hold the pool, list its
    // volumes and, if that succeeds, load them.
    method SetPool(p: nat, listing: Option<Listing>, updates: map<string, string>)
      returns (waits: bool, ghost steps: seq<Label>)
      requires Valid() && Reached(View()) && world.ctl == Loop && world.connected && p == world.nextPool
      requires listing.Some? ==> AllKnown(View()) && Handles(View(), listing.value)
      modifies this`pool, this`pendingJobs, this`jobCount, this`world, files.Values
      ensures Valid() && pool == Some(p)
      ensures Run(old(View()), [PoolReady(listing)] + steps) == Next(View())
      ensures if waits then R.AtSend(View()) else world.ctl.Loaded?
      ensures listing.None? ==> !waits && steps == [] && pendingJobs == old(pendingJobs)
      ensures listing.Some? ==>
                (waits <==> |old(pendingJobs)| + R.Difference(files.Keys, listing.value.named.Keys) > CAPACITY)
      // One job for each file without a volume and each volume without a file.
    {
      steps, waits := [], false;
      ghost var before := View();
      HoldReceived(p, listing);
      ghost var held := View();
      HeldFacts(before, listing, held);
      assert TableView(files).Keys == files.Keys;
      if listing.Some? {
        waits, steps := LoadVolumes(listing.value.named, updates);
      }
      TwoRuns(before, [PoolReady(listing)], held, steps, View());
    }

    method HoldReceived(p: nat, listing: Option<Listing>)
      requires Valid() && Reached(View()) && world.ctl == Loop && world.connected && p == world.nextPool
      requires listing.Some? ==> Handles(View(), listing.value)
      modifies this`pool, this`world
      ensures Valid() && pool == Some(p)
      ensures Run(old(View()), [PoolReady(listing)]) == Next(View()) && Reached(View())
      ensures HeldFrame(old(View()), listing, View())
    {
      ghost var before := View();
      pool := Some(p);
      ghost var held := PoolHeld(before, listing);
      BecomeHeld(before, listing, held);
    }

    // Whatever else changed outside the object when the pool was held.
    ghost method BecomeHeld(before: State, listing: Option<Listing>, held: State)
      requires Valid() && View() == before.(pool := Some(before.nextPool)) && HeldFrame(before, listing, held)
      modifies this`world
      ensures Valid() && View() == held && world.ctl == held.ctl
    {
      world := held;
      assert View() == held;
    }

    // The main loop moves on to its next part.
    ghost method TurnTo(ctl: RepoModel.Control)
      requires Valid()
      modifies this`world
      ensures Valid() && View() == old(View()).(ctl := ctl) && world.ctl == ctl
    {
      world := world.(ctl := ctl);
    }

    // ---- UnsetPool ----

    method UnsetFileVolume(name: string)
      requires Valid() && world.ctl.Unsetting? && UnsetOne(View(), name).Next?
      modifies this`world, files.Values
      ensures Valid() && UnsetOne(old(View()), name) == Next(View())
    {
      ghost var before := View();
      var file := files[name];
      world := world.(ctl := Unsetting(world.ctl.todo - {name}));
      if file.vol.Some? {
        world := world.(volRefs := world.volRefs - multiset{file.vol.value});
        file.vol := None;
        assert TableView(files) == before.files[name := FileView(file)];
      }
    }

    method UnsetFiles() returns (ghost steps: seq<Label>)
      requires Valid() && Reached(View()) && world.ctl == Unsetting(files.Keys)
      modifies this`world, files.Values
      ensures Valid() && Run(old(View()), steps) == Next(View())
      ensures forall i :: 0 <= i < |steps| ==> steps[i].UnsetFile?
      ensures world.ctl == Unsetting({})
      ensures EmptyBut(View().files, {})
    {
      ghost var start := View();
      steps := [];
      var todo := files.Keys;
      while todo != {}
        invariant Valid() && world.ctl == Unsetting(todo) && todo <= files.Keys
        invariant Run(start, steps) == Next(View())
        invariant forall i :: 0 <= i < |steps| ==> steps[i].UnsetFile?
        invariant EmptyBut(View().files, todo)
        decreases todo
      {
        var name :| name in todo;
        ghost var before := View();
        UnsetNext(start, steps, name);
        EmptyStep(before.files, View().files, todo, name);
        steps := steps + [UnsetFile(name)];
        todo := todo - {name};
      }
    }

    // One iteration, as a step of the run.
    method UnsetNext(ghost start: State, ghost steps: seq<Label>, name: string)
      requires Valid() && Reached(start) && Run(start, steps) == Next(View())
      requires world.ctl.Unsetting? && name in world.ctl.todo && name in files
      modifies this`world, files.Values
      ensures Valid() && Run(start, steps + [UnsetFile(name)]) == Next(View())
      ensures world.ctl == Unsetting(old(world.ctl.todo) - {name})
      ensures EmptiedOne(old(View().files), View().files, name)
    {
      UnsetGoesOn(start, steps, View(), name);
      UnsetFileVolume(name);
    }

    method FreePool()
      requires Valid() && world.ctl == Loop && StartUnset(View()).Next?
      modifies this`pool, this`world
      ensures Valid() && StartUnset(old(View())) == Next(View())
    {
      assert TableView(files).Keys == files.Keys;
      world := world.(poolRefs := world.poolRefs - multiset{pool.value}, ctl := Unsetting(files.Keys));
      pool := None;
    }

    method UnsetPool() returns (ghost steps: seq<Label>)
      requires Valid() && Reached(View()) && world.ctl == Loop && pool.Some?
      modifies this`pool, this`world, files.Values
      ensures Valid() && StartUnset(old(View())).Next? && Run(StartUnset(old(View())).state, steps) == Next(View())
      ensures forall i :: 0 <= i < |steps| ==> steps[i].UnsetFile?
      ensures pool == None && world.ctl == Unsetting({})
      ensures EmptyBut(View().files, {})
    {
      UnsetStarts(View());
      FreePool();
      steps := UnsetFiles();
    }

    // ---- The drain loop of Refresh ----

    // Finish of one completed job: a create looks for its entry by identity.
    method FinishEntry(name: string, done: Done)
      requires Valid() && name in files && files[name].resource.Some? && files[name].vol.None?
      modifies files[name]
      ensures Valid() && View() == old(View()).(files := FinishCreate(old(View()).files, name, done.result))
    {
      ghost var before := View();
      var file := files[name];
      if done.result.None? {
        file.resource := Some(file.resource.value.(phase := Failed));
      } else {
        file.resource := Some(file.resource.value.(phase := Available));
        file.vol := done.result;
      }
      assert TableView(files) == before.files[name := FileView(file)];
    }

    // The loop over all files for the entry that a create job remembers.
    method FindFile(id: nat) returns (found: Option<string>)
      requires Valid() && Index(View())
      ensures found.Some? ==> found.value in files && files[found.value].id == id
      ensures found.None? ==> !Owns(View().files, id)
    {
      var todo := files.Keys;
      while todo != {}
        invariant todo <= files.Keys && forall n :: n in files && n !in todo ==> files[n].id != id
        decreases todo
      {
        var name :| name in todo;
        if files[name].id == id { return Some(name); }
        todo := todo - {name};
      }
      found := None;
      assert forall n :: n in files ==> View().files[n].id == files[n].id;
    }

    method Finish(done: Done)
      requires Valid() && Index(View()) && FinishJob(View(), done).Next?
      modifies this`world, files.Values
      ensures Valid() && FinishJob(old(View()), done) == Next(View())
    {
      if !done.job.Create? { return; }
      ghost var before := View();
      var found := FindFile(done.job.file);
      if found.Some? {
        assert FileView(files[found.value]) == before.files[found.value];
        assert OwnerOf(before.files, done.job.file) == found.value;
        if files[found.value].vol.None? {
          FinishEntry(found.value, done);
        } else {
          world := world.(volLost := world.volLost + Bag(done.result));
        }
      } else if done.result.Some? {
        world := world.(volRefs := world.volRefs - multiset{done.result.value});
      }
    }

    method FinishNext()
      requires Valid() && Index(View()) && world.ctl.Draining? && DrainOne(View()).Next?
      modifies this`completedJobs, this`world, files.Values
      ensures Valid() && DrainOne(old(View())) == Next(View())
      ensures completedJobs == old(completedJobs)[1..]
    {
      ghost var before := View();
      var done := completedJobs[0];
      completedJobs := completedJobs[1..];
      world := world.(finished := world.finished + [done]);
      assert View() == before.(completed := before.completed[1..], finished := before.finished + [done]);
      assert Index(View());
      FinishKept(View(), done);
      Finish(done);
    }

    method Drain() returns (ghost steps: seq<Label>)
      requires Valid() && Reached(View()) && Drainable(View()) && world.ctl.Draining?
      modifies this`completedJobs, this`world, files.Values
      ensures Valid() && Run(old(View()), steps) == Next(View())
      ensures world.ctl == old(world.ctl) && (Sizable(old(View())) ==> Sizable(View()))
      ensures completedJobs == [] && |steps| == |old(completedJobs)|
      ensures forall i :: 0 <= i < |steps| ==> steps[i].FinishOne?
    {
      ghost var start := View();
      steps := [];
      while completedJobs != []
        invariant Valid() && world.ctl == start.ctl && Drainable(View()) && (Sizable(start) ==> Sizable(View()))
        invariant |steps| + |completedJobs| == |old(completedJobs)|
        invariant Run(start, steps) == Next(View())
        invariant forall i :: 0 <= i < |steps| ==> steps[i].FinishOne?
        decreases |completedJobs|
      {
        FinishGoesOn(start, steps, View());
        FinishNext();
        steps := steps + [FinishOne];
      }
    }

    // ---- The rest of Refresh ----

    method RefreshFile(name: string, infoOk: bool, update: Option<string>)
      requires Valid() && world.ctl.Sizing? && SizeOne(View(), name, infoOk, update).Next?
      modifies this`world, files.Values
      ensures Valid() && SizeOne(old(View()), name, infoOk, update) == Next(View())
    {
      ghost var before := View();
      var file := files[name];
      world := world.(ctl := Sizing(world.ctl.after, world.ctl.todo - {name}));
      if file.vol.Some? {
        var r := file.resource.value;
        if !infoOk {
          world := world.(volRefs := world.volRefs - multiset{file.vol.value});
          file.vol := None;
          r := r.(phase := Failed);
        }
        file.resource := if update.Some? then Some(r.(version := update.value)) else None;
        assert TableView(files) == before.files[name := FileView(file)];
      }
    }

    // refreshSizes, in any order of iteration; the information of the volumes in
    // readable can be read, and updates succeed as in VisitFiles. Exactly the
    // files with a volume whose update fails lose their resource.
    method RefreshSizes(readable: set<string>, updates: map<string, string>) returns (ghost steps: seq<Label>)
      requires Valid() && Reached(View()) && Sizable(View())
      requires world.ctl.Sizing? && world.ctl.todo == files.Keys
      modifies this`world, files.Values
      ensures Valid() && Run(old(View()), steps) == Next(View())
      ensures world.ctl == Sizing(old(world.ctl.after), {})
      ensures forall n :: n in files ==> Sized(old(View().files[n]), View().files[n], n in readable, n in updates)
    {
      ghost var start := View();
      ghost var after := world.ctl.after;
      steps := [];
      var todo := files.Keys;
      while todo != {}
        invariant Valid() && world.ctl == Sizing(after, todo) && todo <= files.Keys
        invariant Run(start, steps) == Next(View())
        invariant SizedUpTo(start.files, View().files, todo, readable, updates.Keys)
        decreases todo
      {
        var name :| name in todo;
        var update := if name in updates then Some(updates[name]) else None;
        ghost var before := View();
        RefreshNext(start, steps, name, name in readable, update);
        SizedStep(start.files, before.files, View().files, todo, name, readable, updates.Keys);
        steps := steps + [Size(name, name in readable, update)];
        todo := todo - {name};
      }
    }

    // One iteration, as a step of the run.
    method RefreshNext(ghost start: State, ghost steps: seq<Label>, name: string, infoOk: bool, update: Option<string>)
      requires Valid() && Reached(start) && Run(start, steps) == Next(View()) && SizeReady(View(), name)
      modifies this`world, files.Values
      ensures Valid() && Run(start, steps + [Size(name, infoOk, update)]) == Next(View())
      ensures world.ctl == Sizing(old(world.ctl.after), old(world.ctl.todo) - {name})
      ensures SizedOne(old(View().files), View().files, name, infoOk, update.Some?)
    {
      SizeGoesOn(start, steps, View(), name, infoOk, update);
      RefreshFile(name, infoOk, update);
    }

    // Refresh up to its return: drain, then refresh the sizes if there is a pool
    // whose information can be read.
    method Refresh(infoOk: bool, readable: set<string>, updates: map<string, string>) returns (ghost steps: seq<Label>)
      requires Valid() && Reached(View()) && Drainable(View()) && world.ctl.Draining?
      requires pool.Some? && infoOk ==> Sizable(View())
      modifies this`completedJobs, this`world, files.Values
      ensures Valid() && Run(old(View()), steps) == Next(View()) && completedJobs == []
      ensures world.ctl == if pool.Some? && infoOk then Sizing(old(world.ctl.after), {}) else old(world.ctl)
    {
      ghost var start := View();
      ghost var after := world.ctl.after;
      steps := Drain();
      if pool.Some? && infoOk {
        ghost var drained := View();
        assert TableView(files).Keys == files.Keys;
        TurnTo(Sizing(after, files.Keys));
        ghost var sizing := View();
        DrainedOn(start, steps, drained, sizing);
        ghost var sizes := RefreshSizes(readable, updates);
        TwoRuns(start, steps + [DrainEnd(true)], sizing, sizes, View());
        steps := steps + [DrainEnd(true)] + sizes;
      }
    }
  }

  lemma LoadedNext(cfg: Config, items: seq<Resource>, i: nat)
    requires i < |items|
    ensures var files := LoadFiles(cfg, items[..i]);
            LoadFiles(cfg, items[..i + 1])
            == if items[i].repoName != cfg.repoName then files
               else files[VolKey(cfg, items[i].name) := Entry(i, Some(items[i]), None)]
  {
    assert items[..i + 1][..i] == items[..i];
  }

  lemma OneMore(start: State, steps: seq<Label>, s: State, l: Label, end: State)
    requires Run(start, steps) == Next(s) && Do(s, l) == Next(end)
    ensures Run(start, steps + [l]) == Next(end)
  {
    RunSnoc(start, steps, l);
  }

  lemma TwoRuns(start: State, first: seq<Label>, s: State, second: seq<Label>, end: State)
    requires Run(start, first) == Next(s) && Run(s, second) == Next(end)
    ensures Run(start, first + second) == Next(end)
  {
    RunConcat(start, first, second);
  }

  lemma UnsetStarts(s: State)
    requires Reached(s) && s.ctl == Loop && s.pool.Some?
    ensures StartUnset(s).Next? && Reached(StartUnset(s).state)
    ensures StartUnset(s).state.ctl == Unsetting(s.files.Keys)
  {
    ReachedInv(s);
    NoBadHandle(s, ConnFailed);
    RunOne(s, ConnFailed);
    ReachedOn(s, [ConnFailed]);
  }

  // Only the files in todo may still have a volume.
  predicate EmptyBut(files: map<string, Entry>, todo: set<string>) {
    forall n :: n in files && n !in todo ==> files[n].vol == None
  }

  predicate EmptiedOne(files: map<string, Entry>, files': map<string, Entry>, name: string) {
    && files'.Keys == files.Keys && name in files && files'[name].vol == None
    && forall n :: n in files && n != name ==> files'[n] == files[n]
  }

  lemma EmptyStep(files: map<string, Entry>, files': map<string, Entry>, todo: set<string>, name: string)
    requires EmptyBut(files, todo) && EmptiedOne(files, files', name)
    ensures EmptyBut(files', todo - {name})
  {
  }

  // The jobs queued, and those that loadVolumes still has to send.
  function Total(s: State): nat {
    |s.pending| + R.Remaining(s)
  }

  // Where the first loop of loadVolumes has come to after some steps.
  ghost predicate Visits(start: State, steps: seq<Label>, s: State) {
    && Run(start, steps) == Next(s) && (forall i :: 0 <= i < |steps| ==> steps[i].Visit?)
    && s.files.Keys == start.files.Keys && Total(s) == Total(start)
  }

  lemma VisitsReach(start: State, steps: seq<Label>, s: State)
    requires Reached(start) && AllKnown(start) && Visits(start, steps, s)
    ensures Reached(s) && AllKnown(s)
  {
    ReachedOn(start, steps);
    KnownOverRuns(start, steps);
  }

  // A visit of a known file goes through or waits.
  lemma VisitGoesOn(start: State, steps: seq<Label>, s: State, name: string, update: Option<string>)
    requires Reached(start) && AllKnown(start) && Visits(start, steps, s)
    requires s.ctl.Visiting? && name in s.ctl.todo
    ensures Goes(VisitOne(s, name, update))
    ensures VisitOne(s, name, update).Blocked? ==> R.AtSend(s)
    ensures VisitOne(s, name, update).Next? ==>
              var s' := VisitOne(s, name, update).state;
              && Visits(start, steps + [Visit(name, update)], s')
              && s'.ctl.Visiting? && s'.ctl.todo == s.ctl.todo - {name}
  {
    VisitsReach(start, steps, s);
    VisitEffect(s, name, update);
    VisitsOn(start, steps, s, Visit(name, update), VisitOne(s, name, update));
  }

  lemma VisitsOn(start: State, steps: seq<Label>, s: State, l: Label, o: Outcome)
    requires Visits(start, steps, s) && l.Visit? && o == Do(s, l)
    requires o.Next? ==> R.Visited(s, o.state, l.name) && o.state.files.Keys == s.files.Keys
    ensures o.Next? ==> Visits(start, steps + [l], o.state)
  {
    if o.Next? {
      VisitTotal(s, o.state, l.name);
      OneMore(start, steps, s, l, o.state);
    }
  }

  lemma VisitTotal(s: State, s': State, name: string)
    requires s.ctl.Visiting? && name in s.ctl.todo && R.Visited(s, s', name)
    ensures Total(s') == Total(s)
  {
    R.VisitRemaining(s, s', name);
  }

  lemma VisitEffect(s: State, name: string, update: Option<string>)
    requires Reached(s) && AllKnown(s) && s.ctl.Visiting? && name in s.ctl.todo
    ensures Goes(VisitOne(s, name, update)) && Do(s, Visit(name, update)) == VisitOne(s, name, update)
    ensures VisitOne(s, name, update).Blocked? ==> R.AtSend(s)
    ensures VisitOne(s, name, update).Next? ==>
              var s' := VisitOne(s, name, update).state; R.Visited(s, s', name) && s'.files.Keys == s.files.Keys
  {
    ReachedInv(s);
    VisitAllowed(s, name, update);
    VisitWaits(s, name, update);
    VisitDoes(s, name, update);
  }

  lemma VisitAllowed(s: State, name: string, update: Option<string>)
    requires Inv(s) && AllKnown(s) && s.ctl.Visiting? && name in s.ctl.todo
    ensures Goes(VisitOne(s, name, update)) && VolKey(s.cfg, s.files[name].resource.value.name) == name
  {
    NoBadHandle(s, Visit(name, update));
    PanicsExactly(s, Visit(name, update));
    assert Indexed(s.cfg, name, s.files[name]);
  }

  lemma VisitDoes(s: State, name: string, update: Option<string>)
    requires name in s.files && s.files[name].resource.Some? && VolKey(s.cfg, s.files[name].resource.value.name) == name
    ensures VisitOne(s, name, update).Next? ==>
              var s' := VisitOne(s, name, update).state; R.Visited(s, s', name) && s'.files.Keys == s.files.Keys
  {
    if VisitOne(s, name, update).Next? {
      R.VisitMoves(s, name, update);
      assert VisitOne(s, name, update).state.files.Keys == s.files.Keys + {name};
    }
  }

  lemma VisitWaits(s: State, name: string, update: Option<string>)
    ensures VisitOne(s, name, update).Blocked? ==> R.AtSend(s)
  {
    assert Do(s, Visit(name, update)) == VisitOne(s, name, update);
  }

  lemma VisitedAll(start: State, steps: seq<Label>, visited: State, s: State)
    requires Run(start, steps) == Next(visited) && visited.ctl.Visiting? && visited.ctl.todo == {}
    requires s == visited.(ctl := Sweeping(visited.ctl.arm, visited.ctl.listed))
    ensures Run(start, steps + [VisitDone]) == Next(s) && Total(s) == Total(visited)
  {
    OneMore(start, steps, visited, VisitDone, s);
  }

  lemma SweepGoesOn(start: State, steps: seq<Label>, s: State, name: string)
    requires Run(start, steps) == Next(s) && s.ctl.Sweeping? && name in s.ctl.listed
    ensures Goes(SweepOne(s, name))
    ensures SweepOne(s, name).Blocked? ==> R.AtSend(s)
    ensures SweepOne(s, name).Next? ==>
              var s' := SweepOne(s, name).state;
              && Run(start, steps + [Sweep(name)]) == Next(s')
              && s'.ctl == Sweeping(s.ctl.arm, s.ctl.listed - {name}) && |s'.ctl.listed| == |s.ctl.listed| - 1
              && Total(s') == Total(s)
  {
    SweepWaits(s, name);
    if SweepOne(s, name).Next? {
      OneMore(start, steps, s, Sweep(name), SweepOne(s, name).state);
      SweepTotal(s, name);
    }
  }

  lemma SweepTotal(s: State, name: string)
    requires SweepOne(s, name).Next?
    ensures var s' := SweepOne(s, name).state;
            |s'.ctl.listed| == |s.ctl.listed| - 1 && Total(s') == Total(s)
  {
    var s' := SweepOne(s, name).state;
    assert s'.ctl.listed.Keys == s.ctl.listed.Keys - {name};
    assert R.Listed(s').Keys - R.Todo(s') == (R.Listed(s).Keys - R.Todo(s)) - {name};
  }

  lemma SweepWaits(s: State, name: string)
    ensures SweepOne(s, name).Blocked? ==> R.AtSend(s)
  {
    assert Do(s, Sweep(name)) == SweepOne(s, name);
  }

  lemma SweptAll(start: State, steps: seq<Label>, swept: State, s: State)
    requires Run(start, steps) == Next(swept) && swept.ctl.Sweeping? && swept.ctl.listed == map[]
    requires s == swept.(ctl := Loaded(swept.ctl.arm))
    ensures Run(start, steps + [SweepDone]) == Next(s) && Total(s) == Total(swept)
  {
    OneMore(start, steps, swept, SweepDone, s);
  }

  // A loop waits at a full channel, with something to send.
  lemma LoadBounds(start: State, steps: seq<Label>, s: State)
    requires Reached(start) && Run(start, steps) == Next(s)
    ensures |s.pending| <= CAPACITY
    ensures R.AtSend(s) ==> Total(s) > CAPACITY
    ensures s.ctl.Loaded? ==> Total(s) <= CAPACITY
  {
    ReachedOn(start, steps);
    ReachedInv(s);
    if R.AtSend(s) { R.SendRemains(s); }
  }

  lemma UnsetGoesOn(start: State, steps: seq<Label>, s: State, name: string)
    requires Reached(start) && Run(start, steps) == Next(s)
    requires s.ctl.Unsetting? && name in s.ctl.todo && name in s.files
    ensures UnsetOne(s, name).Next?
    ensures Run(start, steps + [UnsetFile(name)]) == UnsetOne(s, name)
    ensures var s' := UnsetOne(s, name).state;
            s'.ctl == Unsetting(s.ctl.todo - {name}) && EmptiedOne(s.files, s'.files, name)
  {
    ReachedOn(start, steps);
    UnsetSafe(s, name);
    OneMore(start, steps, s, UnsetFile(name), UnsetOne(s, name).state);
  }

  lemma UnsetSafe(s: State, name: string)
    requires Reached(s) && s.ctl.Unsetting? && name in s.ctl.todo && name in s.files
    ensures UnsetOne(s, name).Next? && Do(s, UnsetFile(name)) == UnsetOne(s, name)
    ensures var s' := UnsetOne(s, name).state;
            s'.ctl == Unsetting(s.ctl.todo - {name}) && EmptiedOne(s.files, s'.files, name)
  {
    ReachedInv(s);
    NoBadHandle(s, UnsetFile(name));
    UnsetEffect(s, name);
  }

  lemma UnsetEffect(s: State, name: string)
    requires s.ctl.Unsetting? && name in s.ctl.todo && name in s.files && !UnsetOne(s, name).BadHandle?
    ensures UnsetOne(s, name).Next?
    ensures var s' := UnsetOne(s, name).state;
            s'.ctl == Unsetting(s.ctl.todo - {name}) && EmptiedOne(s.files, s'.files, name)
  {
  }

  // A completed create for an entry that has lost its resource.
  predicate CompletesLost(d: Done, e: Entry) {
    d.job.Create? && e.id == d.job.file && e.resource.None?
  }

  // No completion is for an entry that has neither volume nor resource, so that
  // no Finish dereferences nil.
  predicate Drainable(s: State) {
    forall i, n :: 0 <= i < |s.completed| && n in s.files && CompletesLost(s.completed[i], s.files[n]) ==>
      s.files[n].vol.Some?
  }

  // No entry with a volume has lost its resource, so that refreshSizes
  // dereferences no nil.
  predicate Sizable(s: State) {
    forall n :: n in s.files && s.files[n].resource.None? ==> s.files[n].vol.None?
  }

  // Finishing gives back no resource and takes none.
  lemma FinishLeavesLost(s: State, d: Done)
    requires FinishJob(s, d).Next?
    ensures var s' := FinishJob(s, d).state;
            && s'.files.Keys == s.files.Keys
            && forall n :: n in s.files ==>
                 && s'.files[n].id == s.files[n].id && (s'.files[n].resource.None? <==> s.files[n].resource.None?)
                 && (s.files[n].resource.None? ==> s'.files[n] == s.files[n])
  {
  }

  lemma FinishEffect(s: State)
    requires Reached(s) && Drainable(s) && s.ctl.Draining? && s.completed != []
    ensures Index(s) && DrainOne(s).Next? && DrainOne(s).state.ctl == s.ctl && Drainable(DrainOne(s).state)
    ensures Sizable(s) ==> Sizable(DrainOne(s).state)
    ensures Do(s, FinishOne) == DrainOne(s)
  {
    ReachedInv(s);
    NoBadHandle(s, FinishOne);
    PanicsExactly(s, FinishOne);
    DrainFrame(s);
    FinishLeavesLost(s.(completed := s.completed[1..], finished := s.finished + [s.completed[0]]), s.completed[0]);
  }

  lemma FinishGoesOn(start: State, steps: seq<Label>, s: State)
    requires Reached(start) && Run(start, steps) == Next(s) && Drainable(s)
    requires s.ctl.Draining? && s.completed != []
    ensures Index(s) && DrainOne(s).Next? && DrainOne(s).state.ctl == s.ctl && Drainable(DrainOne(s).state)
    ensures Sizable(s) ==> Sizable(DrainOne(s).state)
    ensures Run(start, steps + [FinishOne]) == DrainOne(s)
  {
    ReachedOn(start, steps);
    FinishEffect(s);
    OneMore(start, steps, s, FinishOne, DrainOne(s).state);
  }

  lemma PoolHeld(before: State, listing: Option<Listing>) returns (held: State)
    requires Reached(before) && before.ctl == Loop && before.connected
    requires listing.Some? ==> Handles(before, listing.value)
    ensures Run(before, [PoolReady(listing)]) == Next(held) && Reached(held)
    ensures HeldFrame(before, listing, held)
  {
    held := PoolStep(before, listing);
    RunOne(before, PoolReady(listing));
    ReachedOn(before, [PoolReady(listing)]);
  }

  predicate HeldFrame(before: State, listing: Option<Listing>, held: State) {
    && held.cfg == before.cfg && held.files == before.files && held.pool == Some(before.nextPool)
    && held.pending == before.pending && held.completed == before.completed
    && held.nextFile == before.nextFile && held.submitted == before.submitted
    && held.ctl == if listing.None? then Loaded(before.nextPool)
                   else Visiting(before.nextPool, before.files.Keys, listing.value.named)
  }

  lemma HeldFacts(before: State, listing: Option<Listing>, held: State)
    requires HeldFrame(before, listing, held)
    ensures AllKnown(before) ==> AllKnown(held)
    ensures held.ctl == if listing.None? then Loaded(before.nextPool)
                        else Visiting(before.nextPool, before.files.Keys, listing.value.named)
    ensures listing.Some? ==>
              Total(held) == |before.pending| + R.Difference(before.files.Keys, listing.value.named.Keys)
  {
  }

  lemma PoolStep(before: State, listing: Option<Listing>) returns (held: State)
    requires before.ctl == Loop && before.connected
    requires listing.Some? ==> Handles(before, listing.value)
    ensures Do(before, PoolReady(listing)) == Next(held)
    ensures HeldFrame(before, listing, held)
  {
    held := RepoModel.SetPool(before, listing).state;
  }

  // What refreshing one file does to its entry.
  predicate Sized(e: Entry, e': Entry, readable: bool, updated: bool) {
    && e'.id == e.id
    && if e.vol.None? then e' == e
       else
         && e'.vol == (if readable then e.vol else None)
         && (e'.resource.Some? <==> updated)
         && (e.resource.Some? && e'.resource.Some? ==>
               e'.resource.value.(version := e.resource.value.version)
               == if readable then e.resource.value else e.resource.value.(phase := Failed))
  }

  ghost predicate SizedUpTo(a: map<string, Entry>, b: map<string, Entry>, todo: set<string>, readable: set<string>,
      updated: set<string>) {
    && b.Keys == a.Keys
    && forall n :: n in a ==> if n in todo then b[n] == a[n] else Sized(a[n], b[n], n in readable, n in updated)
  }

  lemma SizedStep(a: map<string, Entry>, b: map<string, Entry>, b': map<string, Entry>,
                  todo: set<string>, name: string, readable: set<string>, updated: set<string>)
    requires SizedUpTo(a, b, todo, readable, updated) && name in todo && name in a
    requires SizedOne(b, b', name, name in readable, name in updated)
    ensures SizedUpTo(a, b', todo - {name}, readable, updated)
  {
  }

  ghost predicate SizedOne(b: map<string, Entry>, b': map<string, Entry>, name: string, readable: bool, updated: bool) {
    && b'.Keys == b.Keys && name in b && Sized(b[name], b'[name], readable, updated)
    && forall n :: n in b && n != name ==> b'[n] == b[n]
  }

  predicate SizeReady(s: State, name: string) {
    s.ctl.Sizing? && name in s.ctl.todo && name in s.files && (s.files[name].vol.Some? ==> s.files[name].resource.Some?)
  }

  lemma SizeRuns(start: State, steps: seq<Label>, s: State, name: string, infoOk: bool, update: Option<string>)
    requires Run(start, steps) == Next(s)
    ensures Run(start, steps + [Size(name, infoOk, update)]) == SizeOne(s, name, infoOk, update)
  {
    RunSnoc(start, steps, Size(name, infoOk, update));
  }

  lemma SizeGoesOn(start: State, steps: seq<Label>, s: State, name: string, infoOk: bool, update: Option<string>)
    requires Reached(start) && Run(start, steps) == Next(s) && SizeReady(s, name)
    ensures SizeOne(s, name, infoOk, update).Next?
    ensures Run(start, steps + [Size(name, infoOk, update)]) == SizeOne(s, name, infoOk, update)
    ensures var s' := SizeOne(s, name, infoOk, update).state;
            && s'.ctl == Sizing(s.ctl.after, s.ctl.todo - {name})
            && SizedOne(s.files, s'.files, name, infoOk, update.Some?)
  {
    ReachedOn(start, steps);
    SizeSafe(s, name, infoOk, update);
    SizeRuns(start, steps, s, name, infoOk, update);
  }

  lemma SizeSafe(s: State, name: string, infoOk: bool, update: Option<string>)
    requires Reached(s) && SizeReady(s, name)
    ensures SizeOne(s, name, infoOk, update).Next?
    ensures var s' := SizeOne(s, name, infoOk, update).state;
            && s'.ctl == Sizing(s.ctl.after, s.ctl.todo - {name})
            && SizedOne(s.files, s'.files, name, infoOk, update.Some?)
  {
    ReachedInv(s);
    NoBadHandle(s, Size(name, infoOk, update));
    SizeEffect(s, name, infoOk, update);
  }

  lemma SizeEffect(s: State, name: string, infoOk: bool, update: Option<string>)
    requires SizeReady(s, name) && !SizeOne(s, name, infoOk, update).BadHandle?
    ensures SizeOne(s, name, infoOk, update).Next?
    ensures var s' := SizeOne(s, name, infoOk, update).state;
            s'.ctl == Sizing(s.ctl.after, s.ctl.todo - {name})
                && SizedOne(s.files, s'.files, name, infoOk, update.Some?)
  {
  }

  lemma DrainedOn(start: State, steps: seq<Label>, drained: State, sizing: State)
    requires Reached(start) && Run(start, steps) == Next(drained) && EndDrain(drained, true) == Next(sizing)
    ensures Run(start, steps + [DrainEnd(true)]) == Next(sizing) && Reached(sizing)
  {
    OneMore(start, steps, drained, DrainEnd(true), sizing);
    ReachedOn(start, steps + [DrainEnd(true)]);
  }
}
