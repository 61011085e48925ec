// From the list and the watch stream to the capacities: the table ends with the
// capacities that the server has, and so does the storage.
module RepoServer {
  import opened Common
  import opened Naming
  import opened RepoModel
  import opened RepoInvariant
  import opened RepoWatch
  import opened RepoBook
  import R = RepoReconcile
  import O = RepoOutstanding
  import F = RepoFollow

  // ---- One name: what the events make of its capacity ----

  // The capacity that the server has for a file of this repository.
  function Cap(server: Server, repo: string, n: string): Option<nat> {
    if Mine(server, repo, n) then Some(server[n].capacity) else None
  }

  // What the main loop makes of it: a file that is known is not added again, one
  // that is not known is not modified.
  function CapNote(repo: string, cur: Option<nat>, c: Change, n: string): Option<nat> {
    if c.file.repoName != repo || c.file.name != n then cur
    else
      match c
      case Add(file) => if cur.Some? then cur else Some(file.capacity)
      case Mod(file) => if cur.Some? then Some(file.capacity) else None
      case Del(_) => None
  }

  function CapAll(repo: string, cur: Option<nat>, changes: seq<Change>, n: string): Option<nat> {
    if changes == [] then cur
    else CapNote(repo, CapAll(repo, cur, changes[..|changes| - 1], n), changes[|changes| - 1], n)
  }

  // A file that is there is added again only as it is.
  predicate AddsRepeat(server: Server, changes: seq<Change>) {
    forall i :: 0 <= i < |changes| && changes[i].Add? ==>
      var before := ApplyAll(server, changes[..i]);
      changes[i].file.name in before ==> before[changes[i].file.name].capacity == changes[i].file.capacity
  }

  predicate Of(c: Change, repo: string, n: string) {
    c.file.repoName == repo && c.file.name == n
  }

  // No event so far has settled the capacity: what was known is still known.
  predicate Unsettled(repo: string, cur: Option<nat>, changes: seq<Change>, n: string) {
    forall i :: 0 <= i < |changes| && Of(changes[i], repo, n) ==>
      !changes[i].Del? && (if cur.Some? then changes[i].Add? else changes[i].Mod?)
  }

  lemma UnsettledSnoc(repo: string, cur: Option<nat>, changes: seq<Change>, n: string)
    requires changes != []
    ensures Unsettled(repo, cur, changes, n)
       <==> && Unsettled(repo, cur, changes[..|changes| - 1], n)
            && var c := changes[|changes| - 1];
               (Of(c, repo, n) ==> !c.Del? && (if cur.Some? then c.Add? else c.Mod?))
  {
    var k := |changes| - 1;
    assert forall i :: 0 <= i < k ==> changes[..k][i] == changes[i];
  }

  lemma AddsRepeatFront(server: Server, changes: seq<Change>)
    requires changes != [] && AddsRepeat(server, changes)
    ensures AddsRepeat(server, changes[..|changes| - 1])
  {
    var front := changes[..|changes| - 1];
    assert forall i :: 0 <= i < |front| ==> front[..i] == changes[..i] && front[i] == changes[i];
  }

  // One event, with the server as it meets it.
  lemma CapOne(repo: string, server: Server, cur: Option<nat>, c: Change, n: string)
    requires Follows(server, c)
    requires c.Add? && c.file.name in server ==> server[c.file.name].capacity == c.file.capacity
    ensures !Of(c, repo, n) ==>
              CapNote(repo, cur, c, n) == cur && Cap(ApplyChange(server, c), repo, n) == Cap(server, repo, n)
    ensures Of(c, repo, n) && c.Del? ==>
              CapNote(repo, cur, c, n) == None && Cap(ApplyChange(server, c), repo, n) == None
    ensures Of(c, repo, n) && !c.Del? ==> Cap(ApplyChange(server, c), repo, n) == Some(c.file.capacity)
    ensures cur == Cap(server, repo, n) ==> CapNote(repo, cur, c, n) == Cap(ApplyChange(server, c), repo, n)
  {
  }

  // From any known capacity: the events bring it to the server's, or have not
  // settled it yet and left it as it was.
  lemma {:induction false} CapAt(repo: string, server: Server, cur: Option<nat>, changes: seq<Change>, n: string)
    requires Stream(server, changes) && AddsRepeat(server, changes)
    ensures || CapAll(repo, cur, changes, n) == Cap(ApplyAll(server, changes), repo, n)
            || (CapAll(repo, cur, changes, n) == cur && Unsettled(repo, cur, changes, n))
  {
    if changes != [] {
      var front, c := changes[..|changes| - 1], changes[|changes| - 1];
      StreamPrefix(server, changes);
      AddsRepeatFront(server, changes);
      CapAt(repo, server, cur, front, n);
      UnsettledSnoc(repo, cur, changes, n);
      CapOne(repo, ApplyAll(server, front), CapAll(repo, cur, front, n), c, n);
    }
  }

  // Events that settle nothing leave the server's capacity alone.
  lemma {:induction false} UnsettledKeeps(repo: string, server: Server, changes: seq<Change>, n: string)
    requires Stream(server, changes) && AddsRepeat(server, changes)
    requires Unsettled(repo, Cap(server, repo, n), changes, n)
    ensures Cap(ApplyAll(server, changes), repo, n) == Cap(server, repo, n)
  {
    if changes != [] {
      var front, c := changes[..|changes| - 1], changes[|changes| - 1];
      StreamPrefix(server, changes);
      AddsRepeatFront(server, changes);
      UnsettledSnoc(repo, Cap(server, repo, n), changes, n);
      UnsettledKeeps(repo, server, front, n);
      CapOne(repo, ApplyAll(server, front), Cap(server, repo, n), c, n);
    }
  }

  // A snapshot taken anywhere in the stream, then the whole stream, old events
  // included: the capacity ends as the server's.
  lemma {:induction false} CapConverges(repo: string, server: Server, changes: seq<Change>, k: nat, n: string)
    requires k <= |changes| && Stream(server, changes) && AddsRepeat(server, changes)
    ensures CapAll(repo, Cap(ApplyAll(server, changes[..k]), repo, n), changes, n)
         == Cap(ApplyAll(server, changes), repo, n)
  {
    var mid := ApplyAll(server, changes[..k]);
    var cur := Cap(mid, repo, n);
    CapAt(repo, server, cur, changes, n);
    if Unsettled(repo, cur, changes, n) {
      StreamSuffix(server, changes, k);
      ApplySuffix(server, changes, k);
      AddsRepeatFrom(server, changes, k);
      assert Unsettled(repo, cur, changes[k..], n) by {
        assert forall i :: 0 <= i < |changes| - k ==> changes[k..][i] == changes[k + i];
      }
      UnsettledKeeps(repo, mid, changes[k..], n);
    }
  }

  lemma AddsRepeatFrom(server: Server, changes: seq<Change>, k: nat)
    requires k <= |changes| && AddsRepeat(server, changes)
    ensures AddsRepeat(ApplyAll(server, changes[..k]), changes[k..])
  {
    forall i | 0 <= i < |changes[k..]| && changes[k..][i].Add?
      ensures var before := ApplyAll(ApplyAll(server, changes[..k]), changes[k..][..i]);
              changes[k..][i].file.name in before ==>
                before[changes[k..][i].file.name].capacity == changes[k..][i].file.capacity
    {
      ApplyFrom(server, changes, k, i);
      var m := k + i;
      assert changes[m] == changes[k..][i];
    }
  }

  // ---- The book follows the events ----

  function BookCap(cfg: Config, book: Book, n: string): Option<nat> {
    if VolKey(cfg, n) in book then Some(book[VolKey(cfg, n)].capacity) else None
  }

  // An event with the recorded version brings the recorded capacity: a version
  // stands for one content.
  predicate Telling(cfg: Config, book: Book, l: Label) {
    && l.Modified? && l.file.repoName == cfg.repoName && VolKey(cfg, l.file.name) in book
    && l.file.version == book[VolKey(cfg, l.file.name)].version
    ==> l.file.capacity == book[VolKey(cfg, l.file.name)].capacity
  }

  ghost predicate AllTelling(s: State, book: Book, labels: seq<Label>)
    requires Run(s, labels).Next?
  {
    labels == []
    || (&& AllTelling(s, book, labels[..|labels| - 1])
        && Telling(s.cfg, Noted(s, book, labels[..|labels| - 1]), labels[|labels| - 1]))
  }

  function ChangeOf(l: Label): Change
    requires WatchLabel(l)
  {
    match l
    case Added(file, _) => Add(file)
    case Modified(file) => Mod(file)
    case Deleted(file) => Del(file)
  }

  lemma SameKey(cfg: Config, m: string, n: string)
    requires ObjectName(m) && ObjectName(n)
    ensures VolKey(cfg, m) == VolKey(cfg, n) <==> m == n
  {
    if VolKey(cfg, m) == VolKey(cfg, n) { VolNameInjective(m, n, cfg.format); }
  }

  lemma NoteCap(cfg: Config, book: Book, l: Label, volume: bool, n: string)
    requires ObjectName(n) && Telling(cfg, book, l) && (WatchLabel(l) ==> ObjectName(l.file.name))
    ensures BookCap(cfg, Note(cfg, book, l, volume), n)
         == if WatchLabel(l) then CapNote(cfg.repoName, BookCap(cfg, book, n), ChangeOf(l), n)
            else BookCap(cfg, book, n)
  {
    if WatchLabel(l) { SameKey(cfg, l.file.name, n); }
  }

  lemma {:induction false} WatchSnoc(labels: seq<Label>)
    requires labels != []
    ensures var l := labels[|labels| - 1];
            WatchOf(labels) == if WatchLabel(l) then WatchOf(labels[..|labels| - 1]) + [ChangeOf(l)]
                               else WatchOf(labels[..|labels| - 1])
  {
  }

  lemma {:induction false} CapSnoc(repo: string, cur: Option<nat>, changes: seq<Change>, c: Change, n: string)
    ensures CapAll(repo, cur, changes + [c], n) == CapNote(repo, CapAll(repo, cur, changes, n), c, n)
  {
    assert (changes + [c])[..|changes|] == changes;
  }

  lemma {:induction false} BookFollowsTheEvents(s: State, book: Book, labels: seq<Label>, n: string)
    requires Run(s, labels).Next? && AllTelling(s, book, labels) && ObjectName(n)
    requires forall i :: 0 <= i < |labels| && WatchLabel(labels[i]) ==> ObjectName(labels[i].file.name)
    ensures BookCap(s.cfg, Noted(s, book, labels), n)
         == CapAll(s.cfg.repoName, BookCap(s.cfg, book, n), WatchOf(labels), n)
  {
    if labels != [] {
      var front, l := labels[..|labels| - 1], labels[|labels| - 1];
      BookFollowsTheEvents(s, book, front, n);
      NoteCap(s.cfg, Noted(s, book, front), l, HasVolume(Run(s, front).state, l), n);
      WatchSnoc(labels);
      if WatchLabel(l) { CapSnoc(s.cfg.repoName, BookCap(s.cfg, book, n), WatchOf(front), ChangeOf(l), n); }
    }
  }

  // The list gives every name the capacity that the server has.
  lemma {:induction false} ListedCap(cfg: Config, server: Server, items: seq<Resource>, n: string)
    requires ObjectName(n) && (n in server ==> server[n].name == n)
    requires forall i :: 0 <= i < |items| ==> ObjectName(items[i].name)
    requires forall i :: 0 <= i < |items| ==> items[i].name in server && server[items[i].name] == items[i]
    ensures BookCap(cfg, Listed(cfg, items), n)
         == if n in server && server[n] in items then Cap(server, cfg.repoName, n) else None
  {
    if items != [] {
      var front, r := items[..|items| - 1], items[|items| - 1];
      ListedCap(cfg, server, front, n);
      SameKey(cfg, r.name, n);
      assert items == front + [r];
    }
  }

  lemma SnapshotCap(cfg: Config, server: Server, items: seq<Resource>, n: string)
    requires Snapshot(server, items) && AllNamed(server) && ObjectName(n)
    ensures BookCap(cfg, Listed(cfg, items), n) == Cap(server, cfg.repoName, n)
  {
    ListedCap(cfg, server, items, n);
  }

  // ---- Whole runs ----

  // The watch is opened at a server state, the list is taken after k more changes,
  // and the run receives every change from the start, mixed in any way with
  // everything else.
  ghost predicate ListedAndWatched(cfg: Config, server: Server, changes: seq<Change>, k: nat,
                                   items: seq<Resource>, storage: map<string, nat>, labels: seq<Label>)
  {
    && cfg.workers <= 255 && k <= |changes|
    && Stream(server, changes) && AddsRepeat(server, changes) && AllNamed(server)
    && (forall i :: 0 <= i < |changes| ==> ObjectName(changes[i].file.name))
    && Snapshot(ApplyAll(server, changes[..k]), items)
    && Run(Init(cfg, items, storage), labels).Next? && WatchOf(labels) == changes
    && AllTelling(Init(cfg, items, storage), Listed(cfg, items), labels)
  }

  // Then the table ends with the capacity that the server has for each of its
  // files of this repository, unless a failed update has lost the resource.
  lemma CapacitiesConverge(cfg: Config, server: Server, changes: seq<Change>, k: nat,
                           items: seq<Resource>, storage: map<string, nat>, labels: seq<Label>, n: string)
    requires ListedAndWatched(cfg, server, changes, k, items, storage, labels) && ObjectName(n)
    ensures var s, key := Run(Init(cfg, items, storage), labels).state, VolKey(cfg, n);
            && (key in s.files <==> Mine(ApplyAll(server, changes), cfg.repoName, n))
            && (key in s.files && s.files[key].resource.Some? ==>
                  s.files[key].resource.value.capacity == ApplyAll(server, changes)[n].capacity)
  {
    var mid := ApplyAll(server, changes[..k]);
    NamesStay(server, changes, k);
    SnapshotCap(cfg, mid, items, n);
    WatchNames(labels);
    BookFollowsTheEvents(Init(cfg, items, storage), Listed(cfg, items), labels, n);
    CapConverges(cfg.repoName, server, changes, k, n);
    InitKeepsTheBook(cfg, items, storage, labels);
  }

  // ---- From the server to the storage ----

  // In the setting of AnyWorkersFollowTheFiles the storage ends at the capacities
  // of the events that last took effect.
  lemma AnyWorkersFollowTheEvents(s: State, book: Book, labels: seq<Label>, n: string)
    requires Reached(s) && AllKnown(s) && O.Solo(s) && F.Placed(s, n) && Agree(s.files, book)
    requires O.AllCalm(s, labels) && F.AllTidy(s, labels) && Run(s, labels).Next?
    requires forall i :: 0 <= i < |labels| ==> F.SteadyLabel(labels[i])
    ensures var s', book' := Run(s, labels).state, Noted(s, book, labels);
            F.Idle(s') ==>
              && (n in s'.storage <==> n in book')
              && (F.Agrees(s, n) && n in book' ==> s'.storage[n] == book'[n].capacity)
  {
    ReachedInv(s);
    F.AnyWorkersFollowTheFiles(s, labels, n);
    TableKeepsTheBook(s, book, labels);
  }

  // The labels of a service that comes to a state at rest, loads a pool there as
  // a batch, and goes on.
  function Service(first: seq<Label>, listing: Listing, batch: seq<Label>, labels: seq<Label>): seq<Label> {
    first + [PoolReady(Some(listing))] + batch + labels
  }

  lemma ServiceRuns(s0: State, s: State, first: seq<Label>, listing: Listing, batch: seq<Label>, labels: seq<Label>)
    requires Run(s0, first) == Next(s) && R.Batch(s, listing, batch)
    ensures Run(s0, Service(first, listing, batch, labels)) == Run(R.BatchState(s, listing, batch), labels)
  {
    var l := PoolReady(Some(listing));
    PoolRuns(s0, s, first, listing);
    RunConcat(s0, first + [l], batch);
    RunConcat(s0, first + [l] + batch, labels);
  }

  lemma PoolRuns(s0: State, s: State, first: seq<Label>, listing: Listing)
    requires Run(s0, first) == Next(s) && R.Starts(s, listing)
    ensures Run(s0, first + [PoolReady(Some(listing))]) == Next(R.Started(s, listing))
  {
    RunSnoc(s0, first, PoolReady(Some(listing)));
    assert Do(s, PoolReady(Some(listing))) == SetPool(s, Some(listing));
  }

  // From the start of the service, with any number of workers: the list and the
  // watch overlap in any way, a pool is loaded, its batch may still be running
  // when files come, go and change, no job is queued for a volume that has one
  // outstanding, and no file is deleted before its volume is there. Then as soon
  // as no job is outstanding the storage is what the server has: a volume for
  // each of its files of this repository and no other, of the capacity that the
  // server has, unless a volume of another capacity was kept when the pool was
  // loaded.
  lemma StorageFollowsTheServer(cfg: Config, server: Server, changes: seq<Change>, k: nat, items: seq<Resource>,
                                storage: map<string, nat>, first: seq<Label>, listing: Listing,
                                batch: seq<Label>, labels: seq<Label>, n: string)
    requires ObjectName(n)
    requires ListedAndWatched(cfg, server, changes, k, items, storage, Service(first, listing, batch, labels))
    requires Run(Init(cfg, items, storage), first).Next?
    requires forall i :: 0 <= i < |labels| ==> F.SteadyLabel(labels[i])
    requires var s := Run(Init(cfg, items, storage), first).state;
             && R.Batch(s, listing, batch) && !R.Loading(R.BatchState(s, listing, batch).ctl)
             && var s1 := R.BatchState(s, listing, batch);
                O.AllCalm(s1, labels) && F.AllTidy(s1, labels)
    ensures var s, s' := Run(Init(cfg, items, storage), first).state,
                         Run(Init(cfg, items, storage), Service(first, listing, batch, labels)).state;
            var key, final := VolKey(cfg, n), ApplyAll(server, changes);
            var kept := key in s.storage && key in s.files && s.storage[key] != s.files[key].resource.value.capacity;
            F.Idle(s') ==>
              && (key in s'.storage <==> Mine(final, cfg.repoName, n))
              && (key in s'.storage && !kept ==> s'.storage[key] == final[n].capacity)
  {
    var s0 := Init(cfg, items, storage);
    var s, key := Run(s0, first).state, VolKey(cfg, n);
    assert Reached(s);
    ServiceRuns(s0, s, first, listing, batch, labels);
    F.ReconcilesThenFollows(s, listing, batch, labels, key);
    CapacitiesConverge(cfg, server, changes, k, items, storage, Service(first, listing, batch, labels), n);
  }
}
