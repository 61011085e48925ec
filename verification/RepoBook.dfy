// What the table should hold for each file: the list item or watch event that
// last took effect on it, with the version that the server last answered. Kept
// as a book beside the run, and compared with the table.
module RepoBook {
  import opened Common
  import opened RepoModel
  import opened RepoInvariant
  import opened RepoWatch

  // By volume name; the phase, which the repository sets itself, is left out.
  type Book = map<string, Resource>

  function Bare(r: Resource): Resource {
    r.(phase := Unset)
  }

  // The version that a successful update was answered with.
  function Answered(r: Resource, answer: Option<string>): Resource {
    match answer
    case Some(version) => r.(version := version)
    case None => r
  }

  // The list: of items with one volume name the last counts.
  function Listed(cfg: Config, items: seq<Resource>): Book {
    if items == [] then map[]
    else
      var book, r := Listed(cfg, items[..|items| - 1]), items[|items| - 1];
      if r.repoName == cfg.repoName then book[VolKey(cfg, r.name) := Bare(r)] else book
  }

  // An event takes effect if it is of this repository and adds a name that is not
  // in the book, brings another version of one that is, or deletes one. An update
  // is made for a file that is added, visited, or sized with a volume.
  function Note(cfg: Config, book: Book, l: Label, volume: bool): Book {
    match l
    case Added(file, answer) =>
      var n := VolKey(cfg, file.name);
      if file.repoName == cfg.repoName && n !in book then book[n := Answered(Bare(file), answer)] else book
    case Modified(file) =>
      var n := VolKey(cfg, file.name);
      if file.repoName == cfg.repoName && n in book && file.version != book[n].version then book[n := Bare(file)]
      else book
    case Deleted(file) => if file.repoName == cfg.repoName then book - {VolKey(cfg, file.name)} else book
    case Visit(n, answer) => if n in book then book[n := Answered(book[n], answer)] else book
    case Size(n, _, answer) => if n in book && volume then book[n := Answered(book[n], answer)] else book
    case _ => book
  }

  predicate HasVolume(s: State, l: Label) {
    l.Size? && l.name in s.files && s.files[l.name].vol.Some?
  }

  // The book after a run.
  ghost function Noted(s: State, book: Book, labels: seq<Label>): Book
    requires Run(s, labels).Next?
  {
    if labels == [] then book
    else
      var front := labels[..|labels| - 1];
      var s0 := Run(s, front).state;
      Note(s.cfg, Noted(s, book, front), labels[|labels| - 1], HasVolume(s0, labels[|labels| - 1]))
  }

  // The table holds what the book says, apart from the resources it has lost to
  // failed updates.
  predicate Agree(files: map<string, Entry>, book: Book) {
    && files.Keys == book.Keys
    && forall n :: n in files && files[n].resource.Some? ==> Bare(files[n].resource.value) == book[n]
  }

  // ---- Every step ----

  lemma AgreeUpdate(files: map<string, Entry>, book: Book, n: string, e: Entry, r: Resource)
    requires Agree(files, book) && n in files && (e.resource.Some? ==> Bare(e.resource.value) == r)
    ensures Agree(files[n := e], book[n := r])
  {
  }

  lemma AddNoted(s: State, book: Book, file: Resource, update: Option<string>)
    requires Agree(s.files, book) && AddFile(s, file, update).Next?
    ensures Agree(AddFile(s, file, update).state.files, Note(s.cfg, book, Added(file, update), false))
  {
  }

  lemma ModifyNoted(s: State, book: Book, file: Resource)
    requires Agree(s.files, book) && ModifyFile(s, file).Next?
    ensures Agree(ModifyFile(s, file).state.files, Note(s.cfg, book, Modified(file), false))
  {
    var n := VolKey(s.cfg, file.name);
    if n in s.files { AgreeUpdate(s.files, book, n, s.files[n].(resource := Some(file)), Bare(file)); }
  }

  lemma DeleteNoted(s: State, book: Book, file: Resource)
    requires Agree(s.files, book) && DeleteFile(s, file).Next?
    ensures Agree(DeleteFile(s, file).state.files, Note(s.cfg, book, Deleted(file), false))
  {
    AgreeRemove(s.files, book, VolKey(s.cfg, file.name));
  }

  lemma AgreeRemove(files: map<string, Entry>, book: Book, n: string)
    requires Agree(files, book)
    ensures Agree(files - {n}, book - {n}) && (n !in files ==> book - {n} == book)
  {
  }

  lemma VisitNoted(s: State, book: Book, n: string, update: Option<string>)
    requires Index(s) && Agree(s.files, book) && VisitOne(s, n, update).Next?
    ensures Agree(VisitOne(s, n, update).state.files, Note(s.cfg, book, Visit(n, update), false))
  {
    assert Indexed(s.cfg, n, s.files[n]);
    AgreeUpdate(s.files, book, n, VisitOne(s, n, update).state.files[n], Answered(book[n], update));
  }

  lemma SizeNoted(s: State, book: Book, n: string, infoOk: bool, update: Option<string>)
    requires Agree(s.files, book) && SizeOne(s, n, infoOk, update).Next?
    ensures var l := Size(n, infoOk, update);
            Agree(SizeOne(s, n, infoOk, update).state.files, Note(s.cfg, book, l, HasVolume(s, l)))
  {
  }

  lemma FinishNoted(s: State, book: Book)
    requires Agree(s.files, book) && DrainOne(s).Next?
    ensures Agree(DrainOne(s).state.files, book)
  {
    FinishFrame(s.(completed := s.completed[1..], finished := s.finished + [s.completed[0]]), s.completed[0]);
  }

  lemma NoteStep(s: State, book: Book, l: Label)
    requires Index(s) && Agree(s.files, book) && Do(s, l).Next?
    ensures Agree(Do(s, l).state.files, Note(s.cfg, book, l, HasVolume(s, l)))
  {
    match l {
      case Added(file, update) => AddNoted(s, book, file, update);
      case Modified(file) => ModifyNoted(s, book, file);
      case Deleted(file) => DeleteNoted(s, book, file);
      case Visit(n, update) => VisitNoted(s, book, n, update);
      case Size(n, infoOk, update) => SizeNoted(s, book, n, infoOk, update);
      case FinishOne => FinishNoted(s, book);
      case UnsetFile(_) =>
      case PoolReady(_) =>
      case _ => OtherKeys(s, l);
    }
  }

  // ---- Whole runs ----

  lemma {:induction false} ListedAgrees(cfg: Config, items: seq<Resource>)
    ensures Agree(LoadFiles(cfg, items), Listed(cfg, items))
  {
    if items != [] {
      ListedAgrees(cfg, items[..|items| - 1]);
    }
  }

  // Over every run, whatever is lost and whatever is queued: the table knows the
  // files that the book knows, and holds of each the name, the capacity and the
  // version of the item or event that last took effect, with the version that the
  // server last answered.
  lemma {:induction false} TableKeepsTheBook(s: State, book: Book, labels: seq<Label>)
    requires Inv(s) && Agree(s.files, book) && Run(s, labels).Next?
    ensures Run(s, labels).state.cfg == s.cfg
    ensures Agree(Run(s, labels).state.files, Noted(s, book, labels))
  {
    if labels != [] {
      var front, l := labels[..|labels| - 1], labels[|labels| - 1];
      TableKeepsTheBook(s, book, front);
      RunsAreSafe(s, front);
      var s0 := Run(s, front).state;
      NoteStep(s0, Noted(s, book, front), l);
      if WorkerLabel(l) { WorkerStep(s0, l); } else { MainKept(s0, l); }
    }
  }

  // In particular from the start of the service, for the items of the list.
  lemma InitKeepsTheBook(cfg: Config, items: seq<Resource>, storage: map<string, nat>, labels: seq<Label>)
    requires cfg.workers <= 255 && Run(Init(cfg, items, storage), labels).Next?
    ensures Agree(Run(Init(cfg, items, storage), labels).state.files,
                  Noted(Init(cfg, items, storage), Listed(cfg, items), labels))
  {
    InitInv(cfg, items, storage);
    ListedAgrees(cfg, items);
    TableKeepsTheBook(Init(cfg, items, storage), Listed(cfg, items), labels);
  }

  // ---- What the events that take effect queue ----

  // A file that is added is stored as it came, pending, with the version that the
  // update was answered with, and a volume of its capacity is queued for it.
  lemma AddedIsCreated(s: State, file: Resource, update: Option<string>)
    requires Do(s, Added(file, update)).Next? && file.repoName == s.cfg.repoName && VolKey(s.cfg, file.name) !in s.files
    ensures var s', n := Do(s, Added(file, update)).state, VolKey(s.cfg, file.name);
            && |s'.submitted| == |s.submitted| + 1 && n in s'.files && s'.files[n].vol.None?
            && s'.files[n].resource == Some(Answered(file, update).(phase := Pending))
            && var job := s'.submitted[|s.submitted|];
               && job.Create? && job.name == n && job.file == s'.files[n].id && job.capacity == file.capacity
               && job.allocation == if s.cfg.preallocate then file.capacity else 0
  {
  }

  // A new version is stored as it came; another capacity is queued for the volume
  // that the entry holds, and nothing is queued for the same one.
  lemma ModifiedIsStored(s: State, file: Resource)
    requires Do(s, Modified(file)).Next? && file.repoName == s.cfg.repoName && VolKey(s.cfg, file.name) in s.files
    ensures var s', n := Do(s, Modified(file)).state, VolKey(s.cfg, file.name);
            var before := s.files[n].resource;
            && before.Some?
            && (file.version == before.value.version ==> s' == s)
            && (file.version != before.value.version ==>
                  && n in s'.files && s'.files[n] == s.files[n].(resource := Some(file))
                  && if file.capacity == before.value.capacity then s'.submitted == s.submitted
                     else
                       && |s'.submitted| == |s.submitted| + 1 && s.files[n].vol.Some?
                       && var job := s'.submitted[|s.submitted|];
                          && job.Resize? && job.vol == s.files[n].vol.value && job.size == file.capacity
                          && job.allocate == s.cfg.preallocate)
  {
  }
}
