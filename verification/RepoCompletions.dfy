// Completions of create jobs: in which order they are finished does not matter,
// and a completion for an entry that is gone changes no file.
module RepoCompletions {
  import opened Common
  import opened RepoModel
  import opened RepoHandles
  import opened RepoInvariant

  // Finishing completions one after another, as the drain loop does.
  ghost function FinishAll(s: State, dones: seq<Done>): Outcome {
    if dones == [] then Next(s)
    else
      var o := FinishAll(s, dones[..|dones| - 1]);
      if o.Next? then FinishJob(o.state, dones[|dones| - 1]) else o
  }

  predicate IsFor(d: Done, id: nat) {
    d.job.Create? && d.job.file == id
  }

  // The volume of the first successful create for the entry.
  function FirstVolume(dones: seq<Done>, id: nat): Option<nat> {
    if dones == [] then None
    else
      var first := FirstVolume(dones[..|dones| - 1], id);
      var d := dones[|dones| - 1];
      if first.None? && IsFor(d, id) then d.result else first
  }

  lemma {:induction false} FinishAllKept(s: State, dones: seq<Done>)
    requires FinishAll(s, dones).Next? && Index(s)
    ensures Index(FinishAll(s, dones).state)
  {
    if dones != [] {
      FinishAllKept(s, dones[..|dones| - 1]);
      FinishKept(FinishAll(s, dones[..|dones| - 1]).state, dones[|dones| - 1]);
    }
  }

  // The entry after its create finished with that result.
  function Finished(e: Entry, result: Option<nat>): Entry
    requires e.resource.Some?
  {
    e.(vol := result, resource := Some(e.resource.value.(phase := if result.Some? then Available else Failed)))
  }

  // One completion and one live entry.
  lemma FinishOneEntry(s: State, d: Done, n: string)
    requires Index(s) && n in s.files && s.files[n].resource.Some? && FinishJob(s, d).Next?
    ensures var e := s.files[n];
            var files' := FinishJob(s, d).state.files;
            && n in files'
            && files'[n] == if IsFor(d, e.id) && e.vol.None? then Finished(e, d.result)
                            else e
  {
    if d.job.Create? && Owns(s.files, d.job.file) {
      var m := OwnerOf(s.files, d.job.file);
      assert IsFor(d, s.files[n].id) <==> m == n;
    }
  }

  // A live file without a volume, and any completions, stale and foreign ones
  // among them: untouched if none is its own, otherwise available with the first
  // volume created, and failed if none was.
  lemma {:induction false} CreateCompletions(s: State, dones: seq<Done>, n: string)
    requires Index(s) && n in s.files && s.files[n].vol.None? && s.files[n].resource.Some?
    requires FinishAll(s, dones).Next?
    ensures var e := s.files[n];
            var files' := FinishAll(s, dones).state.files;
            var vol := FirstVolume(dones, e.id);
            && n in files'
            && files'[n] == if exists i :: 0 <= i < |dones| && IsFor(dones[i], e.id) then Finished(e, vol)
                            else e
  {
    if dones != [] {
      var k := |dones| - 1;
      var front := dones[..k];
      CreateCompletions(s, front, n);
      FinishAllKept(s, front);
      FinishOneEntry(FinishAll(s, front).state, dones[k], n);
      var e := s.files[n];
      if i :| 0 <= i < k && IsFor(front[i], e.id) {
        assert IsFor(dones[i], e.id);
      } else {
        NoneForIt(front, e.id);
        assert forall i :: 0 <= i < k ==> front[i] == dones[i];
      }
    }
  }

  lemma {:induction false} NoneForIt(dones: seq<Done>, id: nat)
    requires forall i :: 0 <= i < |dones| ==> !IsFor(dones[i], id)
    ensures FirstVolume(dones, id).None?
  {
    if dones != [] { NoneForIt(dones[..|dones| - 1], id); }
  }

  lemma {:induction false} SomeSucceeded(dones: seq<Done>, id: nat)
    ensures FirstVolume(dones, id).Some?
       <==> exists i :: 0 <= i < |dones| && IsFor(dones[i], id) && dones[i].result.Some?
  {
    if dones != [] {
      var k := |dones| - 1;
      SomeSucceeded(dones[..k], id);
      assert forall i :: 0 <= i < k ==> dones[..k][i] == dones[i];
    }
  }

  // Confluence: whatever the order, the phase and the presence of a volume are
  // the same.
  lemma CompletionsConfluent(s: State, p: seq<Done>, q: seq<Done>, n: string)
    requires Index(s) && n in s.files && s.files[n].vol.None? && s.files[n].resource.Some?
    requires FinishAll(s, p).Next? && FinishAll(s, q).Next?
    requires forall d :: d in p <==> d in q
    ensures var e, f := FinishAll(s, p).state.files, FinishAll(s, q).state.files;
            n in e && n in f && e[n].resource == f[n].resource && (e[n].vol.Some? <==> f[n].vol.Some?)
  {
    var id := s.files[n].id;
    CreateCompletions(s, p, n);
    CreateCompletions(s, q, n);
    SomeSucceeded(p, id);
    SomeSucceeded(q, id);
    SameCases(p, q, id);
    SameCases(q, p, id);
  }

  lemma SameCases(p: seq<Done>, q: seq<Done>, id: nat)
    requires forall d :: d in p ==> d in q
    ensures (exists i :: 0 <= i < |p| && IsFor(p[i], id)) ==> exists i :: 0 <= i < |q| && IsFor(q[i], id)
    ensures (exists i :: 0 <= i < |p| && IsFor(p[i], id) && p[i].result.Some?)
        ==> exists i :: 0 <= i < |q| && IsFor(q[i], id) && q[i].result.Some?
  {
    if i :| 0 <= i < |p| && IsFor(p[i], id) && p[i].result.Some? {
      assert p[i] in q;
    }
    if i :| 0 <= i < |p| && IsFor(p[i], id) {
      assert p[i] in q;
    }
  }

  // ---- Stale completions ----

  // An identity that has been given out and has no entry any more.
  predicate Gone(s: State, id: nat) {
    id < s.nextFile && !Owns(s.files, id)
  }

  // Deleting a file leaves its entry's identity gone, and adding it again under
  // the same name does not bring it back.
  lemma DeletedIsGone(s: State, file: Resource)
    requires Inv(s) && file.repoName == s.cfg.repoName && VolKey(s.cfg, file.name) in s.files
    requires DeleteFile(s, file).Next?
    ensures Gone(DeleteFile(s, file).state, s.files[VolKey(s.cfg, file.name)].id)
  {
  }

  // A step that keeps each entry's identity, or gives it a new one.
  predicate Fresh(s: State, s': State) {
    && s.nextFile <= s'.nextFile
    && forall n :: n in s'.files ==> (n in s.files && s'.files[n].id == s.files[n].id) || s'.files[n].id >= s.nextFile
  }

  lemma FreshStep(s: State, l: Label)
    requires Do(s, l).Next?
    ensures Fresh(s, Do(s, l).state)
  {
    match l {
      case Added(file, update) => FreshAdd(s, file, update);
      case Modified(file) => FreshModify(s, file);
      case Visit(name, update) => FreshVisit(s, name, update);
      case Size(name, infoOk, update) => FreshSize(s, name, infoOk, update);
      case UnsetFile(name) => FreshUnset(s, name);
      case Deleted(_) =>
      case PoolReady(_) =>
      case Sweep(_) =>
      case FinishOne => FreshDrain(s);
      case Take(_) => WorkerStep(s, l);
      case Process(_, _) => WorkerStep(s, l);
      case Report(_) => WorkerStep(s, l);
      case _ => TurnStep(s, l, s.nextVol);
    }
  }

  lemma FreshAdd(s: State, file: Resource, update: Option<string>)
    requires AddFile(s, file, update).Next?
    ensures Fresh(s, AddFile(s, file, update).state)
  {
  }

  lemma FreshModify(s: State, file: Resource)
    requires ModifyFile(s, file).Next?
    ensures Fresh(s, ModifyFile(s, file).state)
  {
  }

  lemma FreshUnset(s: State, name: string)
    requires UnsetOne(s, name).Next?
    ensures Fresh(s, UnsetOne(s, name).state)
  {
  }

  lemma FreshVisit(s: State, name: string, update: Option<string>)
    requires VisitOne(s, name, update).Next?
    ensures Fresh(s, VisitOne(s, name, update).state)
  {
  }

  lemma FreshSize(s: State, name: string, infoOk: bool, update: Option<string>)
    requires SizeOne(s, name, infoOk, update).Next?
    ensures Fresh(s, SizeOne(s, name, infoOk, update).state)
  {
  }

  lemma FreshDrain(s: State)
    requires DrainOne(s).Next?
    ensures Fresh(s, DrainOne(s).state)
  {
    DrainFrame(s);
  }

  lemma {:induction false} GoneForEver(s: State, labels: seq<Label>, id: nat)
    requires Gone(s, id) && Run(s, labels).Next?
    ensures Gone(Run(s, labels).state, id)
  {
    if labels != [] {
      var n := |labels| - 1;
      GoneForEver(s, labels[..n], id);
      FreshStep(Run(s, labels[..n]).state, labels[n]);
    }
  }

  // So over every later run a completion for the deleted entry changes no file;
  // the volume handle it brings is freed.
  lemma StaleCompletionsAreInert(s: State, file: Resource, labels: seq<Label>, d: Done)
    requires Inv(s) && file.repoName == s.cfg.repoName && VolKey(s.cfg, file.name) in s.files
    requires DeleteFile(s, file).Next? && Run(DeleteFile(s, file).state, labels).Next?
    requires IsFor(d, s.files[VolKey(s.cfg, file.name)].id)
    requires FinishJob(Run(DeleteFile(s, file).state, labels).state, d).Next?
    ensures var s1 := Run(DeleteFile(s, file).state, labels).state;
            && FinishJob(s1, d).state == s1.(volRefs := s1.volRefs - Bag(d.result))
  {
    DeletedIsGone(s, file);
    GoneForEver(DeleteFile(s, file).state, labels, s.files[VolKey(s.cfg, file.name)].id);
    var s1 := Run(DeleteFile(s, file).state, labels).state;
    if d.result.None? { assert s1.volRefs - Bag(d.result) == s1.volRefs; }
  }
}
