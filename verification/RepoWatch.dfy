// List plus watch: which files the repository knows after a snapshot and a
// stream of watch events that overlap in any way.
module RepoWatch {
  import opened Common
  import opened Naming
  import opened RepoModel
  import opened RepoHandles
  import opened RepoInvariant

  datatype Change = Add(file: Resource) | Mod(file: Resource) | Del(file: Resource)

  // The server's files by object name.
  type Server = map<string, Resource>

  function ApplyChange(server: Server, c: Change): Server {
    match c
    case Add(file) => server[file.name := file]
    case Mod(file) => server[file.name := file]
    case Del(file) => server - {file.name}
  }

  function ApplyAll(server: Server, changes: seq<Change>): Server {
    if changes == [] then server
    else ApplyChange(ApplyAll(server, changes[..|changes| - 1]), changes[|changes| - 1])
  }

  // An event can follow this state: a file is modified only while it exists, and
  // a file that exists keeps its repository. Repeats are allowed.
  predicate Follows(server: Server, c: Change) {
    && (c.Mod? ==> c.file.name in server)
    && (c.file.name in server ==> server[c.file.name].repoName == c.file.repoName)
  }

  predicate Stream(server: Server, changes: seq<Change>) {
    forall i :: 0 <= i < |changes| ==> Follows(ApplyAll(server, changes[..i]), changes[i])
  }

  // A file of this repository.
  predicate Mine(server: Server, repo: string, n: string) {
    n in server && server[n].repoName == repo
  }

  // What the main loop does to the set of names it knows.
  function Track(repo: string, known: set<string>, c: Change): set<string> {
    if c.file.repoName != repo then known
    else
      match c
      case Add(file) => known + {file.name}
      case Mod(file) => known
      case Del(file) => known - {file.name}
  }

  function TrackAll(repo: string, known: set<string>, changes: seq<Change>): set<string> {
    if changes == [] then known
    else Track(repo, TrackAll(repo, known, changes[..|changes| - 1]), changes[|changes| - 1])
  }

  // Some event added or deleted this name in this repository.
  predicate Touched(repo: string, changes: seq<Change>, n: string) {
    exists i :: 0 <= i < |changes| && changes[i].file.repoName == repo && changes[i].file.name == n && !changes[i].Mod?
  }

  // From any known set: a touched name ends as the server has it, an untouched
  // one stays as it was, on both sides.
  lemma {:induction false} TrackAt(repo: string, server: Server, known: set<string>, changes: seq<Change>, n: string)
    requires Stream(server, changes)
    ensures n in TrackAll(repo, known, changes)
       <==> if Touched(repo, changes, n) then Mine(ApplyAll(server, changes), repo, n) else n in known
    ensures !Touched(repo, changes, n) ==> (Mine(ApplyAll(server, changes), repo, n) <==> Mine(server, repo, n))
  {
    if changes != [] {
      var k := |changes| - 1;
      var front := changes[..k];
      StreamPrefix(server, changes);
      TrackAt(repo, server, known, front, n);
      TrackOne(repo, ApplyAll(server, front), TrackAll(repo, known, front), changes[k], n);
      TouchedSnoc(repo, front, changes[k], n);
      assert changes == front + [changes[k]];
    }
  }

  lemma StreamPrefix(server: Server, changes: seq<Change>)
    requires changes != [] && Stream(server, changes)
    ensures Stream(server, changes[..|changes| - 1])
  {
    var front := changes[..|changes| - 1];
    forall i | 0 <= i < |front| ensures Follows(ApplyAll(server, front[..i]), front[i]) {
      assert front[..i] == changes[..i];
    }
  }

  // One event for the name, or for another one.
  lemma TrackOne(repo: string, server: Server, known: set<string>, c: Change, n: string)
    requires Follows(server, c)
    ensures if c.file.repoName == repo && c.file.name == n && !c.Mod? then
              n in Track(repo, known, c) <==> Mine(ApplyChange(server, c), repo, n)
            else
              && (n in Track(repo, known, c) <==> n in known)
              && (Mine(ApplyChange(server, c), repo, n) <==> Mine(server, repo, n))
  {
  }

  lemma TouchedSnoc(repo: string, front: seq<Change>, c: Change, n: string)
    ensures Touched(repo, front + [c], n)
       <==> Touched(repo, front, n) || (c.file.repoName == repo && c.file.name == n && !c.Mod?)
  {
    var changes := front + [c];
    assert changes[|front|] == c;
    if i :| 0 <= i < |front| && front[i].file.repoName == repo && front[i].file.name == n && !front[i].Mod? {
      assert changes[i] == front[i];
    }
    if i :| 0 <= i < |changes| && changes[i].file.repoName == repo && changes[i].file.name == n && !changes[i].Mod? {
      if i < |front| { assert front[i] == changes[i]; }
    }
  }

  lemma {:induction false} ApplyConcat(server: Server, a: seq<Change>, b: seq<Change>)
    ensures ApplyAll(server, a + b) == ApplyAll(ApplyAll(server, a), b)
  {
    if b == [] {
      assert a + b == a;
    } else {
      assert (a + b)[..|a + b| - 1] == a + b[..|b| - 1];
      ApplyConcat(server, a, b[..|b| - 1]);
    }
  }

  lemma StreamSuffix(server: Server, changes: seq<Change>, k: nat)
    requires k <= |changes| && Stream(server, changes)
    ensures Stream(ApplyAll(server, changes[..k]), changes[k..])
  {
    var mid := ApplyAll(server, changes[..k]);
    forall i | 0 <= i < |changes[k..]| ensures Follows(ApplyAll(mid, changes[k..][..i]), changes[k..][i]) {
      FollowsFrom(server, changes, k, i);
    }
  }

  lemma ApplySuffix(server: Server, changes: seq<Change>, k: nat)
    requires k <= |changes|
    ensures ApplyAll(server, changes) == ApplyAll(ApplyAll(server, changes[..k]), changes[k..])
  {
    ApplyConcat(server, changes[..k], changes[k..]);
    assert changes[..k] + changes[k..] == changes;
  }

  lemma FollowsFrom(server: Server, changes: seq<Change>, k: nat, i: nat)
    requires k + i < |changes| && Stream(server, changes)
    ensures Follows(ApplyAll(ApplyAll(server, changes[..k]), changes[k..][..i]), changes[k..][i])
  {
    ApplyFrom(server, changes, k, i);
    var m := k + i;
    assert Follows(ApplyAll(server, changes[..m]), changes[m]);
  }

  lemma ApplyFrom(server: Server, changes: seq<Change>, k: nat, i: nat)
    requires k + i <= |changes|
    ensures ApplyAll(ApplyAll(server, changes[..k]), changes[k..][..i]) == ApplyAll(server, changes[..k + i])
  {
    ApplyConcat(server, changes[..k], changes[k..][..i]);
    assert changes[..k] + changes[k..][..i] == changes[..k + i];
  }

  // A snapshot taken at any point of the stream, followed by the whole stream,
  // old events included, ends with exactly the server's files.
  lemma OverlapConverges(repo: string, server: Server, changes: seq<Change>, k: nat, known: set<string>, n: string)
    requires k <= |changes| && Stream(server, changes)
    requires n in known <==> Mine(ApplyAll(server, changes[..k]), repo, n)
    ensures n in TrackAll(repo, known, changes) <==> Mine(ApplyAll(server, changes), repo, n)
  {
    TrackAt(repo, server, known, changes, n);
    if !Touched(repo, changes, n) {
      StreamSuffix(server, changes, k);
      ApplySuffix(server, changes, k);
      assert !Touched(repo, changes[k..], n) by {
        assert forall i :: 0 <= i < |changes| - k ==> changes[k..][i] == changes[k + i];
      }
      TrackAt(repo, ApplyAll(server, changes[..k]), known, changes[k..], n);
    }
  }

  // ---- The main loop ----

  // The watch events of a run, in order.
  function WatchOf(labels: seq<Label>): seq<Change> {
    if labels == [] then []
    else
      var rest := WatchOf(labels[..|labels| - 1]);
      match labels[|labels| - 1]
      case Added(file, _) => rest + [Add(file)]
      case Modified(file) => rest + [Mod(file)]
      case Deleted(file) => rest + [Del(file)]
      case _ => rest
  }

  predicate WatchLabel(l: Label) {
    l.Added? || l.Modified? || l.Deleted?
  }

  // Nothing but a watch event changes the keys.
  lemma OnlyWatchChangesKeys(s: State, l: Label)
    requires Index(s) && !WatchLabel(l) && Do(s, l).Next?
    ensures Do(s, l).state.files.Keys == s.files.Keys
  {
    match l {
      case Visit(m, update) => VisitKeys(s, m, update);
      case UnsetFile(m) =>
      case Size(m, _, _) =>
      case PoolReady(_) =>
      case FinishOne => DrainFrame(s);
      case _ => OtherKeys(s, l);
    }
  }

  lemma OtherKeys(s: State, l: Label)
    requires Do(s, l).Next? && (WorkerLabel(l) || Turn(l) || l.Sweep?)
    ensures Do(s, l).state.files == s.files
  {
    var p: nat := 0;
    if WorkerLabel(l) {
      WorkerStep(s, l);
    } else if Turn(l) {
      TurnStep(s, l, p);
    }
  }

  lemma VisitKeys(s: State, m: string, update: Option<string>)
    requires Index(s) && VisitOne(s, m, update).Next?
    ensures VisitOne(s, m, update).state.files.Keys == s.files.Keys
  {
    assert Indexed(s.cfg, m, s.files[m]);
  }

  lemma WatchKeys(s: State, l: Label)
    requires WatchLabel(l) && Do(s, l).Next?
    ensures Do(s, l).state.files.Keys
         == if l.file.repoName != s.cfg.repoName || l.Modified? then s.files.Keys
            else if l.Added? then s.files.Keys + {VolKey(s.cfg, l.file.name)}
            else s.files.Keys - {VolKey(s.cfg, l.file.name)}
  {
    match l {
      case Added(file, update) => AddKeys(s, file, update);
      case Modified(file) => ModifyKeys(s, file);
      case Deleted(file) =>
    }
  }

  lemma AddKeys(s: State, file: Resource, update: Option<string>)
    requires AddFile(s, file, update).Next?
    ensures AddFile(s, file, update).state.files.Keys
         == if file.repoName != s.cfg.repoName then s.files.Keys else s.files.Keys + {VolKey(s.cfg, file.name)}
  {
  }

  lemma ModifyKeys(s: State, file: Resource)
    requires ModifyFile(s, file).Next?
    ensures ModifyFile(s, file).state.files.Keys == s.files.Keys
  {
  }

  // An event delivered again at once changes nothing.
  lemma RepeatsAreInert(s: State, l: Label)
    requires WatchLabel(l) && Do(s, l).Next?
    ensures Do(Do(s, l).state, l) == Next(Do(s, l).state)
  {
    match l {
      case Added(file, update) => AddTwice(s, file, update);
      case Modified(file) => ModifyTwice(s, file);
      case Deleted(file) => DeleteTwice(s, file);
    }
  }

  lemma AddTwice(s: State, file: Resource, update: Option<string>)
    requires AddFile(s, file, update).Next?
    ensures AddFile(AddFile(s, file, update).state, file, update) == Next(AddFile(s, file, update).state)
  {
  }

  lemma ModifyTwice(s: State, file: Resource)
    requires ModifyFile(s, file).Next?
    ensures ModifyFile(ModifyFile(s, file).state, file) == Next(ModifyFile(s, file).state)
  {
  }

  lemma DeleteTwice(s: State, file: Resource)
    requires DeleteFile(s, file).Next?
    ensures DeleteFile(DeleteFile(s, file).state, file) == Next(DeleteFile(s, file).state)
  {
  }

  // The keys are the volume names of the known files, one for each.
  predicate Tracks(s: State, known: set<string>) {
    && (forall n :: n in known ==> ObjectName(n))
    && s.files.Keys == set n | n in known :: VolKey(s.cfg, n)
  }

  lemma TrackStep(s: State, known: set<string>, l: Label)
    requires Tracks(s, known) && WatchLabel(l) && ObjectName(l.file.name) && Do(s, l).Next?
    ensures var c := if l.Added? then Add(l.file) else if l.Modified? then Mod(l.file) else Del(l.file);
            Tracks(Do(s, l).state, Track(s.cfg.repoName, known, c))
  {
    WatchKeys(s, l);
    MainKept(s, l);
    var c := if l.Added? then Add(l.file) else if l.Modified? then Mod(l.file) else Del(l.file);
    TrackSet(s, Do(s, l).state, known, c);
  }

  lemma TrackSet(s: State, s': State, known: set<string>, c: Change)
    requires Tracks(s, known) && ObjectName(c.file.name) && s'.cfg == s.cfg
    requires s'.files.Keys
         == if c.file.repoName != s.cfg.repoName || c.Mod? then s.files.Keys
            else if c.Add? then s.files.Keys + {VolKey(s.cfg, c.file.name)}
            else s.files.Keys - {VolKey(s.cfg, c.file.name)}
    ensures Tracks(s', Track(s.cfg.repoName, known, c))
  {
    var known' := Track(s.cfg.repoName, known, c);
    var keys' := set n | n in known' :: VolKey(s.cfg, n);
    var key := VolKey(s.cfg, c.file.name);
    if c.file.repoName == s.cfg.repoName && c.Add? {
      assert keys' == s.files.Keys + {key};
    } else if c.file.repoName == s.cfg.repoName && c.Del? {
      forall v ensures v in keys' <==> v in s.files.Keys && v != key {
        if v in s.files.Keys && v != key {
          var n :| n in known && v == VolKey(s.cfg, n);
          assert n in known';
        }
        if v in keys' {
          var n :| n in known' && v == VolKey(s.cfg, n);
          if v == key { VolNameInjective(n, c.file.name, s.cfg.format); }
        }
      }
      assert keys' == s.files.Keys - {key};
    }
  }

  lemma {:induction false} TrackOverRuns(s: State, known: set<string>, labels: seq<Label>)
    requires Inv(s) && Tracks(s, known) && Run(s, labels).Next?
    requires forall i :: 0 <= i < |labels| && WatchLabel(labels[i]) ==> ObjectName(labels[i].file.name)
    ensures Run(s, labels).state.cfg == s.cfg
    ensures Tracks(Run(s, labels).state, TrackAll(s.cfg.repoName, known, WatchOf(labels)))
  {
    if labels != [] {
      var n := |labels| - 1;
      TrackOverRuns(s, known, labels[..n]);
      RunsAreSafe(s, labels[..n]);
      var s0 := Run(s, labels[..n]).state;
      var l := labels[n];
      if WatchLabel(l) {
        TrackStep(s0, TrackAll(s.cfg.repoName, known, WatchOf(labels[..n])), l);
        MainKept(s0, l);
        var w := WatchOf(labels);
        assert w[..|w| - 1] == WatchOf(labels[..n]);
      } else {
        OnlyWatchChangesKeys(s0, l);
        if WorkerLabel(l) { WorkerStep(s0, l); } else { MainKept(s0, l); }
      }
    }
  }

  // The items of a list call: the server's files in some order.
  predicate Snapshot(server: Server, items: seq<Resource>) {
    && (forall i :: 0 <= i < |items| ==> items[i].name in server && server[items[i].name] == items[i])
    && (forall n :: n in server ==> server[n] in items && server[n].name == n)
  }

  lemma {:induction false} LoadedKeys(cfg: Config, items: seq<Resource>, v: string)
    ensures v in LoadFiles(cfg, items)
       <==> exists i :: 0 <= i < |items| && items[i].repoName == cfg.repoName && v == VolKey(cfg, items[i].name)
  {
    if items != [] {
      var k := |items| - 1;
      var front := items[..k];
      LoadedKeys(cfg, front, v);
      if i :| 0 <= i < k && front[i].repoName == cfg.repoName && v == VolKey(cfg, front[i].name) {
        assert items[i] == front[i];
      }
      if i :| 0 <= i < |items| && items[i].repoName == cfg.repoName && v == VolKey(cfg, items[i].name) {
        if i < k { assert front[i] == items[i]; }
      }
    }
  }

  lemma SnapshotTracks(cfg: Config, items: seq<Resource>, storage: map<string, nat>, server: Server)
    requires Snapshot(server, items) && forall n :: n in server ==> ObjectName(n)
    ensures Tracks(Init(cfg, items, storage), set n | n in server && server[n].repoName == cfg.repoName)
  {
    var known := set n | n in server && server[n].repoName == cfg.repoName;
    var s := Init(cfg, items, storage);
    forall v ensures v in s.files.Keys <==> exists n :: n in known && v == VolKey(cfg, n) {
      LoadedKeys(cfg, items, v);
      if i :| 0 <= i < |items| && items[i].repoName == cfg.repoName && v == VolKey(cfg, items[i].name) {
        assert items[i].name in known;
      }
      if n :| n in known && v == VolKey(cfg, n) {
        var i :| 0 <= i < |items| && items[i] == server[n];
      }
    }
  }

  // The theorem over whole runs: the watch is opened at a server state, the list
  // is taken after k more changes, and the run receives every change from the
  // start, mixed in any way with connection events, pools, ticks and workers.
  // Then the keys are exactly the volume names of the server's current files of
  // this repository.
  lemma ListAndWatchConverge(cfg: Config, server: Server, changes: seq<Change>, k: nat,
                             items: seq<Resource>, storage: map<string, nat>, labels: seq<Label>)
    requires cfg.workers <= 255
    requires k <= |changes| && Stream(server, changes)
    requires forall n :: n in server ==> ObjectName(n)
    requires forall i :: 0 <= i < |changes| ==> ObjectName(changes[i].file.name)
    requires Snapshot(ApplyAll(server, changes[..k]), items)
    requires Run(Init(cfg, items, storage), labels).Next? && WatchOf(labels) == changes
    ensures Run(Init(cfg, items, storage), labels).state.files.Keys
         == set n | Mine(ApplyAll(server, changes), cfg.repoName, n) && n in ApplyAll(server, changes) :: VolKey(cfg, n)
  {
    var s := Init(cfg, items, storage);
    var listed, final := ApplyAll(server, changes[..k]), ApplyAll(server, changes);
    NamesStay(server, changes, k);
    NamesStay(server, changes, |changes|);
    assert changes[..|changes|] == changes;
    SnapshotTracks(cfg, items, storage, listed);
    var known := set n | n in listed && listed[n].repoName == cfg.repoName;
    InitInv(cfg, items, storage);
    WatchNames(labels);
    TrackOverRuns(s, known, labels);
    var known' := TrackAll(cfg.repoName, known, changes);
    forall n ensures n in known' <==> Mine(final, cfg.repoName, n) {
      OverlapConverges(cfg.repoName, server, changes, k, known, n);
    }
  }

  lemma {:induction false} NamesStay(server: Server, changes: seq<Change>, k: nat)
    requires k <= |changes|
    requires forall n :: n in server ==> ObjectName(n)
    requires forall i :: 0 <= i < |changes| ==> ObjectName(changes[i].file.name)
    ensures forall n :: n in ApplyAll(server, changes[..k]) ==> ObjectName(n)
  {
    if k > 0 {
      NamesStay(server, changes, k - 1);
      assert changes[..k][..k - 1] == changes[..k - 1];
    }
  }

  lemma {:induction false} WatchNames(labels: seq<Label>)
    requires forall i :: 0 <= i < |WatchOf(labels)| ==> ObjectName(WatchOf(labels)[i].file.name)
    ensures forall i :: 0 <= i < |labels| && WatchLabel(labels[i]) ==> ObjectName(labels[i].file.name)
  {
    if labels != [] {
      var n := |labels| - 1;
      var w, front := WatchOf(labels), WatchOf(labels[..n]);
      assert front <= w;
      assert forall i :: 0 <= i < |front| ==> front[i] == w[i];
      WatchNames(labels[..n]);
      if WatchLabel(labels[n]) { assert w[|w| - 1].file == labels[n].file; }
    }
  }

  // ---- A broken watch ----

  // The name is known exactly if the server has it here.
  predicate Right(repo: string, server: Server, known: set<string>, n: string) {
    n in known <==> Mine(server, repo, n)
  }

  // A gap between two server states does not matter for this name.
  predicate Harmless(repo: string, before: Server, after: Server, rest: seq<Change>, n: string) {
    Touched(repo, rest, n) || (Mine(before, repo, n) <==> Mine(after, repo, n))
  }

  ghost predicate AllRight(repo: string, server: Server, known: set<string>) {
    forall n :: Right(repo, server, known, n)
  }

  ghost predicate AllHarmless(repo: string, before: Server, after: Server, rest: seq<Change>) {
    forall n :: Harmless(repo, before, after, rest, n)
  }

  // A watch that ends and is re-opened without a new list misses the changes in
  // between. The keys are right again exactly if every name is either added or
  // deleted after the gap, or was not affected by it.
  lemma GapExactly(repo: string, before: Server, after: Server, known: set<string>, rest: seq<Change>)
    requires Stream(after, rest) && AllRight(repo, before, known)
    ensures AllRight(repo, ApplyAll(after, rest), TrackAll(repo, known, rest))
            <==> AllHarmless(repo, before, after, rest)
  {
    var known', server' := TrackAll(repo, known, rest), ApplyAll(after, rest);
    forall n: string
      ensures Right(repo, server', known', n) <==> Harmless(repo, before, after, rest, n)
    {
      TrackAt(repo, after, known, rest, n);
      assert Right(repo, before, known, n);
    }
    if AllRight(repo, server', known') {
      forall n: string ensures Harmless(repo, before, after, rest, n) { assert Right(repo, server', known', n); }
    } else {
      var n: string :| !Right(repo, server', known', n);
      assert !Harmless(repo, before, after, rest, n);
    }
  }

  // The names that the server has of this repository.
  function MineOf(server: Server, repo: string): set<string> {
    set n | n in server && server[n].repoName == repo
  }

  predicate AllNamed(server: Server) {
    forall n :: n in server ==> ObjectName(n)
  }

  // Two sets of object names have the same volume names only if they are equal.
  lemma SameKeys(cfg: Config, a: set<string>, b: set<string>)
    requires forall n :: n in a ==> ObjectName(n)
    requires forall n :: n in b ==> ObjectName(n)
    ensures (set n | n in a :: VolKey(cfg, n)) == (set n | n in b :: VolKey(cfg, n)) <==> a == b
  {
    var ka, kb := set n | n in a :: VolKey(cfg, n), set n | n in b :: VolKey(cfg, n);
    if ka == kb {
      forall n ensures n in a <==> n in b {
        if n in a { SharedKey(cfg, n, b, ka, kb); }
        if n in b { SharedKey(cfg, n, a, kb, ka); }
      }
    }
  }

  lemma SharedKey(cfg: Config, n: string, b: set<string>, ka: set<string>, kb: set<string>)
    requires ObjectName(n) && forall m :: m in b ==> ObjectName(m)
    requires kb == (set m | m in b :: VolKey(cfg, m)) && ka == kb && VolKey(cfg, n) in ka
    ensures n in b
  {
    var m :| m in b && VolKey(cfg, n) == VolKey(cfg, m);
    VolNameInjective(n, m, cfg.format);
  }

  // The keys are exactly the volume names of the server's files of this repository.
  predicate KeysRight(s: State, server: Server) {
    s.files.Keys == set n | n in MineOf(server, s.cfg.repoName) :: VolKey(s.cfg, n)
  }

  // Over runs of the main loop: the keys were right when the watch ended, it was
  // opened again at a later state of the server, and the run receives every
  // change from there, mixed in any way with connection events, pools, ticks and
  // workers. Then the keys are right at the end exactly if every name that the
  // gap affected is added or deleted after it.
  lemma GapOverRuns(s: State, before: Server, after: Server, labels: seq<Label>)
    requires Inv(s) && KeysRight(s, before) && AllNamed(before) && AllNamed(after)
    requires Stream(after, WatchOf(labels)) && Run(s, labels).Next?
    requires forall i :: 0 <= i < |WatchOf(labels)| ==> ObjectName(WatchOf(labels)[i].file.name)
    ensures KeysRight(Run(s, labels).state, ApplyAll(after, WatchOf(labels)))
       <==> AllHarmless(s.cfg.repoName, before, after, WatchOf(labels))
  {
    var repo, rest := s.cfg.repoName, WatchOf(labels);
    var known, final := MineOf(before, repo), ApplyAll(after, rest);
    var known' := TrackAll(repo, known, rest);
    WatchNames(labels);
    TrackOverRuns(s, known, labels);
    NamesStay(after, rest, |rest|);
    assert rest[..|rest|] == rest;
    SameKeys(s.cfg, known', MineOf(final, repo));
    GapExactly(repo, before, after, known, rest);
    if known' == MineOf(final, repo) {
      forall n ensures Right(repo, final, known', n) { assert n in known' <==> n in MineOf(final, repo); }
    } else if AllRight(repo, final, known') {
      forall n ensures n in known' <==> n in MineOf(final, repo) { assert Right(repo, final, known', n); }
    }
  }

  // One missed deletion keeps a file that is gone, over every later run in which
  // it is not added or deleted again.
  lemma MissedDeletion(s: State, before: Server, file: Resource, labels: seq<Label>)
    requires Inv(s) && KeysRight(s, before) && AllNamed(before) && Mine(before, s.cfg.repoName, file.name)
    requires var after := ApplyChange(before, Del(file)); Stream(after, WatchOf(labels)) && Run(s, labels).Next?
    requires forall i :: 0 <= i < |WatchOf(labels)| ==> ObjectName(WatchOf(labels)[i].file.name)
    requires !Touched(s.cfg.repoName, WatchOf(labels), file.name)
    ensures VolKey(s.cfg, file.name) in Run(s, labels).state.files
    ensures !Mine(ApplyAll(ApplyChange(before, Del(file)), WatchOf(labels)), s.cfg.repoName, file.name)
    ensures !KeysRight(Run(s, labels).state, ApplyAll(ApplyChange(before, Del(file)), WatchOf(labels)))
  {
    var repo, rest, after := s.cfg.repoName, WatchOf(labels), ApplyChange(before, Del(file));
    var known := MineOf(before, repo);
    WatchNames(labels);
    TrackOverRuns(s, known, labels);
    TrackAt(repo, after, known, rest, file.name);
    assert file.name in TrackAll(repo, known, rest);
    GapOverRuns(s, before, after, labels);
    assert !Harmless(repo, before, after, rest, file.name);
  }
}
