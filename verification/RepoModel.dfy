// The image repository: its state, the jobs it queues, and every step that the
// main loop and the workers can take.
//
// A step is a function of the state and of a label. The label says which step
// it is and carries every choice the program does not make itself: the order
// of map iteration, which worker runs, and what libvirt and the API server
// answer. Sends are steps of their own, so workers can run between any two.
module RepoModel {
  import opened Common
  import opened Naming

  const CAPACITY: nat := 100
  const DEFAULT_WORKERS: nat := 3

  datatype Phase = Unset | Pending | Available | Failed

  // The parts of an image file resource that the controller reads or writes.
  datatype Resource = Resource(name: string, repoName: string, capacity: nat, version: string, phase: Phase)

  // A RepositoryFile: id stands for its address, no resource for the nil
  // pointer that a failed update leaves behind.
  datatype Entry = Entry(id: nat, resource: Option<Resource>, vol: Option<nat>)

  datatype Config = Config(repoName: string, format: string, preallocate: bool, workers: nat)

  datatype Job =
    | Create(id: nat, file: nat, name: string, pool: nat, allocation: nat, capacity: nat)
    | Resize(id: nat, vol: nat, size: nat, allocate: bool)
    | Delete(id: nat, vol: nat)

  // A processed job, with the volume that a successful create made.
  datatype Done = Done(job: Job, result: Option<nat>)

  datatype Slot = Idle | Holding(job: Job) | Reporting(done: Done)

  // What processing a job did to the volume of that name.
  datatype Processed = Processed(job: Job, name: string, ok: bool)

  // Where a Refresh returns to.
  datatype After = ToLoop | ReleasePool(pool: nat) | CloseConn

  // The program counter of the main loop.
  datatype Control =
    | Loop
    | Visiting(arm: nat, todo: set<string>, listed: map<string, nat>)
    | Sweeping(arm: nat, listed: map<string, nat>)
    | Loaded(arm: nat)
    | Unsetting(todo: set<string>)
    | Draining(after: After)
    | Sizing(after: After, todo: set<string>)

  datatype State = State(
    cfg: Config,
    // the main loop
    files: map<string, Entry>,
    pool: Option<nat>,
    connected: bool,
    ctl: Control,
    // the channels and the workers
    pending: seq<Job>,
    workers: seq<Slot>,
    completed: seq<Done>,
    // libvirt: the volumes of the pool with their capacities, the volume each
    // handle denotes, and the reference counts
    storage: map<string, nat>,
    volName: map<nat, string>,
    volRefs: multiset<nat>,
    poolRefs: multiset<nat>,
    // fresh identities
    nextVol: nat,
    nextPool: nat,
    nextFile: nat,
    // history: jobs submitted, processed and finished, in order, and the
    // references that were dropped without being freed
    submitted: seq<Job>,
    log: seq<Processed>,
    finished: seq<Done>,
    volLost: multiset<nat>,
    poolDropped: multiset<nat>)

  // Panic is a nil dereference; BadHandle is a use or a free of a handle whose
  // count is already zero.
  datatype Outcome = Next(state: State) | Disabled | Blocked | Panic | BadHandle

  // The handles of one listing: those whose name could be read, and those whose
  // name could not.
  datatype Listing = Listing(named: map<string, nat>, unnamed: map<string, nat>, next: nat)

  datatype Label =
    | Added(file: Resource, update: Option<string>)
    | Modified(file: Resource)
    | Deleted(file: Resource)
    | ConnReady
    | ConnFailed
    | UnsetFile(name: string)
    | UnsetDone
    | PoolReady(listing: Option<Listing>)
    | Visit(name: string, update: Option<string>)
    | VisitDone
    | Sweep(name: string)
    | SweepDone
    | Saved(ok: bool)
    | Tick
    | FinishOne
    | DrainEnd(infoOk: bool)
    | Size(name: string, infoOk: bool, update: Option<string>)
    | SizeDone
    | Take(w: nat)
    | Process(w: nat, ok: bool)
    | Report(w: nat)

  // ---- Starting ----

  // CreateRepository: no worker count means three.
  function WorkerCount(cfg: Config): nat {
    if cfg.workers == 0 then DEFAULT_WORKERS else cfg.workers
  }

  function VolKey(cfg: Config, name: string): string {
    MakeVolName(name, cfg.format)
  }

  // loadFileResources over the listed items, a later item replacing an earlier
  // one of the same volume name.
  function LoadFiles(cfg: Config, items: seq<Resource>): map<string, Entry> {
    if items == [] then map[]
    else
      var n := |items| - 1;
      var files := LoadFiles(cfg, items[..n]);
      if items[n].repoName != cfg.repoName then files
      else files[VolKey(cfg, items[n].name) := Entry(n, Some(items[n]), None)]
  }

  function Init(cfg: Config, items: seq<Resource>, storage: map<string, nat>): State {
    State(cfg, LoadFiles(cfg, items), None, false, Loop,
          [], seq(WorkerCount(cfg), _ => Idle), [],
          storage, map[], multiset{}, multiset{}, 0, 0, |items|,
          [], [], [], multiset{}, multiset{})
  }

  // ---- The main loop ----

  function Updated(r: Resource, update: Option<string>): Resource {
    if update.Some? then r.(version := update.value) else r
  }

  // A blocking send on pendingJobs.
  function Send(s: State, job: Job): Outcome {
    if |s.pending| >= CAPACITY then Blocked
    else Next(s.(pending := s.pending + [job], submitted := s.submitted + [job]))
  }

  function CreateFileVolume(s: State, name: string, update: Option<string>): Outcome {
    if name !in s.files || s.files[name].resource.None? || s.pool.None? then Panic
    else if s.pool.value !in s.poolRefs then BadHandle
    else
      var e := s.files[name];
      var r := e.resource.value;
      var job := Create(|s.submitted|, e.id, name, s.pool.value,
                        if s.cfg.preallocate then r.capacity else 0, r.capacity);
      var e' := e.(resource := Some(Updated(r.(phase := Pending), update)));
      Send(s.(files := s.files[name := e'], poolRefs := s.poolRefs + multiset{s.pool.value}), job)
  }

  function AddFile(s: State, file: Resource, update: Option<string>): Outcome {
    var name := VolKey(s.cfg, file.name);
    if s.ctl != Loop then Disabled
    else if file.repoName != s.cfg.repoName || name in s.files then Next(s)
    else
      var s' := s.(files := s.files[name := Entry(s.nextFile, Some(file), None)], nextFile := s.nextFile + 1);
      CreateFileVolume(s', name, update)
  }

  function ModifyFile(s: State, file: Resource): Outcome {
    var name := VolKey(s.cfg, file.name);
    if s.ctl != Loop then Disabled
    else if file.repoName != s.cfg.repoName || name !in s.files then Next(s)
    else
      var e := s.files[name];
      if e.resource.None? then Panic
      else if file.version == e.resource.value.version then Next(s)
      else
        var s' := s.(files := s.files[name := e.(resource := Some(file))]);
        if file.capacity == e.resource.value.capacity then Next(s')
        else if e.vol.None? then Panic
        else if e.vol.value !in s.volRefs then BadHandle
        else
          var job := Resize(|s.submitted|, e.vol.value, file.capacity, s.cfg.preallocate);
          Send(s'.(volRefs := s.volRefs + multiset{e.vol.value}), job)
  }

  function DeleteFile(s: State, file: Resource): Outcome {
    var name := VolKey(s.cfg, file.name);
    if s.ctl != Loop then Disabled
    else if file.repoName != s.cfg.repoName || name !in s.files then Next(s)
    else
      var s' := s.(files := s.files - {name});
      if s.files[name].vol.None? then Next(s')
      else Send(s', Delete(|s.submitted|, s.files[name].vol.value))
  }

  // connectFailed starts with UnsetPool, whose first act is to free the pool.
  function StartUnset(s: State): Outcome {
    if s.ctl != Loop then Disabled
    else if s.pool.None? then Panic
    else if s.pool.value !in s.poolRefs then BadHandle
    else Next(s.(poolRefs := s.poolRefs - multiset{s.pool.value}, pool := None, ctl := Unsetting(s.files.Keys)))
  }

  function UnsetOne(s: State, name: string): Outcome {
    if !s.ctl.Unsetting? || name !in s.ctl.todo || name !in s.files then Disabled
    else
      var e := s.files[name];
      var s' := s.(ctl := Unsetting(s.ctl.todo - {name}));
      if e.vol.None? then Next(s')
      else if e.vol.value !in s.volRefs then BadHandle
      else Next(s'.(volRefs := s.volRefs - multiset{e.vol.value}, files := s.files[name := e.(vol := None)]))
  }

  predicate Distinct(handles: map<string, nat>) {
    forall m, n :: m in handles && n in handles && m != n ==> handles[m] != handles[n]
  }

  // A listing gives every volume of the pool one new handle.
  predicate Handles(s: State, listing: Listing) {
    && listing.named.Keys !! listing.unnamed.Keys
    && listing.named.Keys + listing.unnamed.Keys == s.storage.Keys
    && s.nextVol <= listing.next
    && (forall n :: n in listing.named ==> s.nextVol <= listing.named[n] < listing.next)
    && (forall n :: n in listing.unnamed ==> s.nextVol <= listing.unnamed[n] < listing.next)
    && Distinct(listing.named) && Distinct(listing.unnamed)
    && listing.named.Values !! listing.unnamed.Values
  }

  ghost function NameOf(handles: map<string, nat>, v: nat): (n: string)
    requires v in handles.Values
    ensures n in handles && handles[n] == v
  {
    var n :| n in handles && handles[n] == v;
    n
  }

  ghost function NamesOf(handles: map<string, nat>): map<nat, string> {
    map v | v in handles.Values :: NameOf(handles, v)
  }

  // One reference for each handle of a listing.
  function HandleBag(handles: map<string, nat>): multiset<nat> {
    multiset(handles.Values)
  }

  // SetPool stores the pool and takes a reference of its own.
  function HoldPool(s: State): State {
    s.(nextPool := s.nextPool + 1,
       pool := Some(s.nextPool),
       poolRefs := s.poolRefs + multiset{s.nextPool, s.nextPool},
       poolDropped := s.poolDropped + Bag(s.pool))
  }

  ghost function HoldListing(s: State, p: nat, l: Listing): State {
    s.(volName := s.volName + NamesOf(l.named) + NamesOf(l.unnamed),
       volRefs := s.volRefs + HandleBag(l.named) + HandleBag(l.unnamed),
       volLost := s.volLost + HandleBag(l.unnamed),
       nextVol := l.next,
       ctl := Visiting(p, s.files.Keys, l.named))
  }

  // The arm of Run that receives a pool: the received reference is freed at
  // once when there is no connection; otherwise SetPool takes its own reference
  // and lists the volumes.
  ghost function SetPool(s: State, listing: Option<Listing>): Outcome {
    if s.ctl != Loop then Disabled
    else if !s.connected then Next(s.(nextPool := s.nextPool + 1))
    else
      match listing
      case None => Next(HoldPool(s).(ctl := Loaded(s.nextPool)))
      case Some(l) => if Handles(s, l) then Next(HoldListing(HoldPool(s), s.nextPool, l)) else Disabled
  }

  // One iteration of the first loop of loadVolumes.
  function VisitOne(s: State, name: string, update: Option<string>): Outcome {
    if !s.ctl.Visiting? || name !in s.ctl.todo || name !in s.files then Disabled
    else if s.files[name].resource.None? then Panic
    else
      var e := s.files[name];
      var r := e.resource.value;
      var key := VolKey(s.cfg, r.name);
      var todo := s.ctl.todo - {name};
      if key in s.ctl.listed then
        var e' := e.(vol := Some(s.ctl.listed[key]), resource := Some(Updated(r.(phase := Available), update)));
        Next(s.(files := s.files[name := e'],
                volLost := s.volLost + Bag(e.vol),
                ctl := Visiting(s.ctl.arm, todo, s.ctl.listed - {key})))
      else
        CreateFileVolume(s.(ctl := Visiting(s.ctl.arm, todo, s.ctl.listed)), key, update)
  }

  function StartSweep(s: State): Outcome {
    if s.ctl.Visiting? && s.ctl.todo == {} then Next(s.(ctl := Sweeping(s.ctl.arm, s.ctl.listed))) else Disabled
  }

  // One iteration of the second loop of loadVolumes.
  function SweepOne(s: State, name: string): Outcome {
    if !s.ctl.Sweeping? || name !in s.ctl.listed then Disabled
    else
      Send(s.(ctl := Sweeping(s.ctl.arm, s.ctl.listed - {name})), Delete(|s.submitted|, s.ctl.listed[name]))
  }

  function EndSweep(s: State): Outcome {
    if s.ctl.Sweeping? && s.ctl.listed == map[] then Next(s.(ctl := Loaded(s.ctl.arm))) else Disabled
  }

  function Release(s: State, after: After): Outcome {
    match after
    case ToLoop => Next(s.(ctl := Loop))
    case ReleasePool(p) =>
      if p !in s.poolRefs then BadHandle
      else Next(s.(poolRefs := s.poolRefs - multiset{p}, ctl := Loop))
    case CloseConn =>
      if !s.connected then Panic else Next(s.(connected := false, ctl := Loop))
  }

  // saveRepo at the end of SetPool: Refresh follows only if it succeeded.
  function SaveRepo(s: State, ok: bool): Outcome {
    if !s.ctl.Loaded? then Disabled
    else if ok then Next(s.(ctl := Draining(ReleasePool(s.ctl.arm))))
    else Release(s, ReleasePool(s.ctl.arm))
  }

  // Finish of a create job: the entry is found by identity.
  function FinishCreate(files: map<string, Entry>, name: string, result: Option<nat>): map<string, Entry>
    requires name in files && files[name].resource.Some?
  {
    var e := files[name];
    if e.vol.Some? then files
    else
      var phase := if result.None? then Failed else Available;
      files[name := e.(resource := Some(e.resource.value.(phase := phase)), vol := result)]
  }

  predicate Owns(files: map<string, Entry>, id: nat) {
    exists n :: n in files && files[n].id == id
  }

  ghost function OwnerOf(files: map<string, Entry>, id: nat): (n: string)
    requires Owns(files, id)
    ensures n in files && files[n].id == id
  {
    var n :| n in files && files[n].id == id;
    n
  }

  ghost function FinishJob(s: State, d: Done): Outcome {
    if !d.job.Create? then Next(s)
    else if Owns(s.files, d.job.file) then
      var n := OwnerOf(s.files, d.job.file);
      if s.files[n].vol.Some? then Next(s.(volLost := s.volLost + Bag(d.result)))
      else if s.files[n].resource.None? then Panic
      else Next(s.(files := FinishCreate(s.files, n, d.result)))
    else if d.result.None? then Next(s)
    else if d.result.value !in s.volRefs then BadHandle
    else Next(s.(volRefs := s.volRefs - multiset{d.result.value}))
  }

  // One iteration of the drain loop of Refresh.
  ghost function DrainOne(s: State): Outcome {
    if !s.ctl.Draining? || s.completed == [] then Disabled
    else
      var d := s.completed[0];
      FinishJob(s.(completed := s.completed[1..], finished := s.finished + [d]), d)
  }

  // The drain loop has found the channel empty; without a pool, or when its
  // information cannot be read, no sizes are refreshed.
  function EndDrain(s: State, infoOk: bool): Outcome {
    if !s.ctl.Draining? || s.completed != [] then Disabled
    else if s.pool.Some? && infoOk then Next(s.(ctl := Sizing(s.ctl.after, s.files.Keys)))
    else Release(s, s.ctl.after)
  }

  // One iteration of refreshSizes: a failed update stores a nil resource.
  function SizeOne(s: State, name: string, infoOk: bool, update: Option<string>): Outcome {
    if !s.ctl.Sizing? || name !in s.ctl.todo || name !in s.files then Disabled
    else
      var e := s.files[name];
      var s' := s.(ctl := Sizing(s.ctl.after, s.ctl.todo - {name}));
      if e.vol.None? then Next(s')
      else if e.vol.value !in s.volRefs then BadHandle
      else if e.resource.None? then Panic
      else
        var r := e.resource.value;
        var r' := if infoOk then r else r.(phase := Failed);
        var stored := if update.Some? then Some(Updated(r', update)) else None;
        if infoOk then Next(s'.(files := s.files[name := e.(resource := stored)]))
        else Next(s'.(files := s.files[name := e.(resource := stored, vol := None)],
                      volRefs := s.volRefs - multiset{e.vol.value}))
  }

  function EndSizes(s: State): Outcome {
    if s.ctl.Sizing? && s.ctl.todo == {} then Release(s, s.ctl.after) else Disabled
  }

  // ---- The workers ----

  function TakeJob(s: State, w: nat): Outcome {
    if w >= |s.workers| || !s.workers[w].Idle? || s.pending == [] then Disabled
    else Next(s.(pending := s.pending[1..], workers := s.workers[w := Holding(s.pending[0])]))
  }

  // The storage after a job on the volume of that name.
  function Apply(storage: map<string, nat>, p: Processed): map<string, nat> {
    if !p.ok then storage
    else
      match p.job
      case Create(_, _, _, _, _, capacity) => storage[p.name := capacity]
      case Resize(_, _, size, _) => storage[p.name := size]
      case Delete(_, _) => storage - {p.name}
  }

  // A create succeeds only on a free name, the others only on a volume that is there.
  predicate MaySucceed(storage: map<string, nat>, job: Job, name: string) {
    if job.Create? then name !in storage else name in storage
  }

  function TargetOf(volName: map<nat, string>, job: Job): string {
    if job.Create? then job.name
    else if job.vol in volName then volName[job.vol] else ""
  }

  function ProcessJob(s: State, w: nat, ok: bool): Outcome {
    if w >= |s.workers| || !s.workers[w].Holding? then Disabled
    else
      var job := s.workers[w].job;
      var name := TargetOf(s.volName, job);
      var p := Processed(job, name, ok);
      if (if job.Create? then job.pool !in s.poolRefs else job.vol !in s.volRefs) then BadHandle
      else if ok && !MaySucceed(s.storage, job, name) then Disabled
      else
        var s' := s.(storage := Apply(s.storage, p), log := s.log + [p]);
        if job.Create? then
          if !ok then Next(s'.(workers := s.workers[w := Reporting(Done(job, None))]))
          else
            Next(s'.(workers := s.workers[w := Reporting(Done(job, Some(s.nextVol)))],
                     volName := s.volName[s.nextVol := name],
                     volRefs := s.volRefs + multiset{s.nextVol},
                     poolRefs := s.poolRefs - multiset{job.pool},
                     nextVol := s.nextVol + 1))
        else
          Next(s'.(workers := s.workers[w := Reporting(Done(job, None))],
                   volRefs := s.volRefs - multiset{job.vol}))
  }

  function ReportJob(s: State, w: nat): Outcome {
    if w >= |s.workers| || !s.workers[w].Reporting? || |s.completed| >= CAPACITY then Disabled
    else Next(s.(workers := s.workers[w := Idle], completed := s.completed + [s.workers[w].done]))
  }

  // ---- Steps and runs ----

  ghost function Do(s: State, l: Label): Outcome {
    match l
    case Added(file, update) => AddFile(s, file, update)
    case Modified(file) => ModifyFile(s, file)
    case Deleted(file) => DeleteFile(s, file)
    case ConnReady => if s.ctl == Loop then Next(s.(connected := true)) else Disabled
    case ConnFailed => StartUnset(s)
    case UnsetFile(name) => UnsetOne(s, name)
    case UnsetDone => if s.ctl.Unsetting? && s.ctl.todo == {} then Next(s.(ctl := Draining(CloseConn))) else Disabled
    case PoolReady(listing) => SetPool(s, listing)
    case Visit(name, update) => VisitOne(s, name, update)
    case VisitDone => StartSweep(s)
    case Sweep(name) => SweepOne(s, name)
    case SweepDone => EndSweep(s)
    case Saved(ok) => SaveRepo(s, ok)
    case Tick => if s.ctl == Loop then Next(s.(ctl := Draining(ToLoop))) else Disabled
    case FinishOne => DrainOne(s)
    case DrainEnd(infoOk) => EndDrain(s, infoOk)
    case Size(name, infoOk, update) => SizeOne(s, name, infoOk, update)
    case SizeDone => EndSizes(s)
    case Take(w) => TakeJob(s, w)
    case Process(w, ok) => ProcessJob(s, w, ok)
    case Report(w) => ReportJob(s, w)
  }

  predicate WorkerLabel(l: Label) {
    l.Take? || l.Process? || l.Report?
  }

  // The outcome of a whole run, in the order of its labels.
  ghost function Run(s: State, labels: seq<Label>): Outcome {
    if labels == [] then Next(s)
    else
      var n := |labels| - 1;
      var o := Run(s, labels[..n]);
      if o.Next? then Do(o.state, labels[n]) else o
  }

  // Runs by their last step, by a first part, and by their first step.
  lemma {:induction false} RunSnoc(s: State, labels: seq<Label>, l: Label)
    ensures Run(s, labels + [l]) == if Run(s, labels).Next? then Do(Run(s, labels).state, l) else Run(s, labels)
  {
    assert (labels + [l])[..|labels|] == labels;
  }

  lemma {:induction false} RunConcat(s: State, a: seq<Label>, b: seq<Label>)
    ensures Run(s, a + b) == if Run(s, a).Next? then Run(Run(s, a).state, b) else Run(s, a)
  {
    if b == [] {
      assert a + b == a;
    } else {
      var front, last := b[..|b| - 1], b[|b| - 1];
      assert b == front + [last] && a + b == (a + front) + [last];
      RunConcat(s, a, front);
      RunSnoc(s, a + front, last);
      if Run(s, a).Next? { RunSnoc(Run(s, a).state, front, last); }
    }
  }

  lemma {:induction false} RunOne(s: State, l: Label)
    ensures Run(s, [l]) == Do(s, l)
  {
    RunSnoc(s, [], l);
    assert [l] == [] + [l];
  }

  lemma {:induction false} RunThen(s: State, l: Label, rest: seq<Label>)
    requires Do(s, l).Next?
    ensures Run(s, [l] + rest) == Run(Do(s, l).state, rest)
  {
    RunOne(s, l);
    RunConcat(s, [l], rest);
  }
}
