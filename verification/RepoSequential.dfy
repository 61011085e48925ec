// The worker pool against sequential execution: what the interleaved workers
// leave in the storage is what running the jobs one after another leaves.
module RepoSequential {
  import opened Common
  import opened RepoModel
  import opened RepoHandles
  import opened RepoInvariant
  import opened RepoQueues

  // Running processed jobs one after another.
  function ExecAll(storage: map<string, nat>, log: seq<Processed>): map<string, nat> {
    if log == [] then storage
    else Apply(ExecAll(storage, log[..|log| - 1]), log[|log| - 1])
  }

  lemma ProcessLogs(s: State, w: nat, ok: bool)
    requires ProcessJob(s, w, ok).Next?
    ensures var s' := ProcessJob(s, w, ok).state;
            && s'.log == s.log + [Processed(s.workers[w].job, TargetOf(s.volName, s.workers[w].job), ok)]
            && s'.storage == Apply(s.storage, s'.log[|s.log|])
  {
  }

  // A step logs and performs one job, or neither.
  predicate Replays(s: State, s': State) {
    || (s'.log == s.log && s'.storage == s.storage)
    || (|s'.log| == |s.log| + 1 && s'.log[..|s.log|] == s.log && s'.storage == Apply(s.storage, s'.log[|s.log|]))
  }

  lemma StepReplays(s: State, l: Label)
    requires Do(s, l).Next?
    ensures Replays(s, Do(s, l).state)
  {
    match l {
      case Process(w, ok) => ProcessLogs(s, w, ok);
      case Take(_) => WorkerStep(s, l);
      case Report(_) => WorkerStep(s, l);
      case _ => MainKept(s, l);
    }
  }

  // The storage of every run is the replay of its log.
  lemma {:induction false} StorageReplaysLog(s: State, labels: seq<Label>)
    requires Run(s, labels).Next?
    ensures var s' := Run(s, labels).state;
            s.log <= s'.log && s'.storage == ExecAll(s.storage, s'.log[|s.log|..])
  {
    if labels != [] {
      var n := |labels| - 1;
      StorageReplaysLog(s, labels[..n]);
      var s0, s' := Run(s, labels[..n]).state, Run(s, labels).state;
      StepReplays(s0, labels[n]);
      if s'.log != s0.log {
        assert s'.log[|s.log|..][..|s'.log| - |s.log| - 1] == s0.log[|s.log|..];
      }
    }
  }

  // ---- One worker ----

  function LogJobs(log: seq<Processed>): seq<Job> {
    seq(|log|, i requires 0 <= i < |log| => log[i].job)
  }

  function DoneJobs(dones: seq<Done>): seq<Job> {
    seq(|dones|, i requires 0 <= i < |dones| => dones[i].job)
  }

  function HeldJob(slot: Slot): seq<Job> { if slot.Holding? then [slot.job] else [] }

  function ReportedJob(slot: Slot): seq<Job> { if slot.Reporting? then [slot.done.job] else [] }

  // Jobs are processed, and then complete, in the order of their submission.
  predicate Fifo(s: State) {
    && |s.workers| == 1
    && LogJobs(s.log) + HeldJob(s.workers[0]) + s.pending == s.submitted
    && DoneJobs(s.finished) + DoneJobs(s.completed) + ReportedJob(s.workers[0]) == LogJobs(s.log)
  }

  lemma FifoMain(s: State, s': State)
    requires Fifo(s) && MainFrame(s, s')
    ensures Fifo(s')
  {
    if s'.completed != s.completed {
      var d := s.completed[0];
      assert DoneJobs(s.finished + [d]) == DoneJobs(s.finished) + [d.job];
      assert DoneJobs(s.completed) == [d.job] + DoneJobs(s.completed[1..]);
    }
    if s'.pending != s.pending {
      var job := s'.submitted[|s.submitted|];
      assert LogJobs(s.log) + HeldJob(s.workers[0]) + (s.pending + [job])
          == LogJobs(s.log) + HeldJob(s.workers[0]) + s.pending + [job];
    }
  }

  lemma FifoWorker(s: State, s': State, l: Label)
    requires Fifo(s) && WorkerMove(s, s', l) && WorkerFrame(s, s')
    ensures Fifo(s')
  {
    match l {
      case Take(_) =>
        assert s.pending == [s.pending[0]] + s.pending[1..];
      case Process(_, _) =>
        var p := s'.log[|s.log|];
        assert LogJobs(s'.log) == LogJobs(s.log) + [p.job];
      case Report(_) =>
        var d := s.workers[0].done;
        assert DoneJobs(s'.completed) == DoneJobs(s.completed) + [d.job];
    }
  }

  lemma {:induction false} FifoOverRuns(s: State, labels: seq<Label>)
    requires Fifo(s) && Run(s, labels).Next?
    ensures Fifo(Run(s, labels).state)
  {
    if labels != [] {
      var n := |labels| - 1;
      FifoOverRuns(s, labels[..n]);
      var s0 := Run(s, labels[..n]).state;
      if WorkerLabel(labels[n]) {
        WorkerStep(s0, labels[n]);
        FifoWorker(s0, Run(s, labels).state, labels[n]);
      } else {
        MainKept(s0, labels[n]);
        FifoMain(s0, Run(s, labels).state);
      }
    }
  }

  // With one worker every run executes a prefix of the submitted jobs, in the
  // order of submission, and completions arrive in that order too.
  lemma OneWorkerIsSequential(cfg: Config, items: seq<Resource>, storage: map<string, nat>, labels: seq<Label>)
    requires cfg.workers == 1 && Run(Init(cfg, items, storage), labels).Next?
    ensures var s := Run(Init(cfg, items, storage), labels).state;
            && |s.workers| == 1
            && s.storage == ExecAll(storage, s.log)
            && LogJobs(s.log) <= s.submitted
            && DoneJobs(s.finished) + DoneJobs(s.completed) <= LogJobs(s.log)
            && (s.pending == [] && s.workers[0].Idle? ==> LogJobs(s.log) == s.submitted)
  {
    var s0 := Init(cfg, items, storage);
    FifoOverRuns(s0, labels);
    StorageReplaysLog(s0, labels);
    var s := Run(s0, labels).state;
    assert s.log[0..] == s.log;
  }

  // ---- Any number of workers ----

  function Lookup(storage: map<string, nat>, n: string): Option<nat> {
    if n in storage then Some(storage[n]) else None
  }

  // The entries for one volume.
  function ForName(log: seq<Processed>, n: string): seq<Processed> {
    if log == [] then []
    else
      var k := |log| - 1;
      ForName(log[..k], n) + (if log[k].name == n then [log[k]] else [])
  }

  // A replay does to a volume what its own entries do.
  lemma {:induction false} ExecForName(storage: map<string, nat>, log: seq<Processed>, n: string)
    ensures Lookup(ExecAll(storage, log), n) == Lookup(ExecAll(storage, ForName(log, n)), n)
  {
    if log != [] {
      var k := |log| - 1;
      ExecForName(storage, log[..k], n);
      var front := ForName(log[..k], n);
      ApplyAt(ExecAll(storage, log[..k]), ExecAll(storage, front), log[k], n);
      if log[k].name == n {
        assert (front + [log[k]])[..|front|] == front;
      } else {
        assert front + [] == front;
      }
    }
  }

  lemma ApplyAt(a: map<string, nat>, b: map<string, nat>, p: Processed, n: string)
    requires Lookup(a, n) == Lookup(b, n)
    ensures if p.name == n then Lookup(Apply(a, p), n) == Lookup(Apply(b, p), n)
            else Lookup(Apply(a, p), n) == Lookup(b, n)
  {
  }

  // By job identity, and so by submission.
  predicate Increasing(log: seq<Processed>) {
    forall i, j :: 0 <= i < j < |log| ==> log[i].job.id < log[j].job.id
  }

  // Jobs on the same volume were processed in the order of their submission.
  predicate InOrder(log: seq<Processed>) {
    forall i, j :: 0 <= i < j < |log| && log[i].name == log[j].name ==> log[i].job.id < log[j].job.id
  }

  lemma {:induction false} ForNameIncreasing(log: seq<Processed>, n: string)
    requires InOrder(log)
    ensures Increasing(ForName(log, n))
    ensures forall x :: x in ForName(log, n) <==> x in log && x.name == n
  {
    if log != [] {
      var k := |log| - 1;
      assert InOrder(log[..k]) by { assert forall i :: 0 <= i < k ==> log[..k][i] == log[i]; }
      ForNameIncreasing(log[..k], n);
      var front := ForName(log[..k], n);
      assert log == log[..k] + [log[k]];
      forall i | 0 <= i < |front| ensures log[k].name == n ==> front[i].job.id < log[k].job.id {
        assert front[i] in front;
        var m :| 0 <= m < k && log[..k][m] == front[i];
        assert log[m] == front[i];
      }
    }
  }

  // Increasing logs with the same entries are the same.
  lemma {:induction false} IncreasingUnique(p: seq<Processed>, q: seq<Processed>)
    requires Increasing(p) && Increasing(q)
    requires forall x :: x in p <==> x in q
    ensures p == q
  {
    if q != [] { assert q[0] in q; }
    if p != [] {
      assert p[0] in p;
      var a, b := |p| - 1, |q| - 1;
      LastIsGreatest(p, q);
      forall x ensures x in p[..a] <==> x in q[..b] {
        FrontHas(p, x);
        FrontHas(q, x);
      }
      IncreasingUnique(p[..a], q[..b]);
    }
  }

  lemma LastIsGreatest(p: seq<Processed>, q: seq<Processed>)
    requires Increasing(p) && Increasing(q) && p != [] && q != []
    requires forall x :: x in p <==> x in q
    ensures p[|p| - 1] == q[|q| - 1]
  {
    var x, y := p[|p| - 1], q[|q| - 1];
    assert x in q && y in p;
    var i :| 0 <= i < |q| && q[i] == x;
    var j :| 0 <= j < |p| && p[j] == y;
  }

  lemma FrontHas(p: seq<Processed>, x: Processed)
    requires Increasing(p) && p != []
    ensures x in p[..|p| - 1] <==> x in p && x != p[|p| - 1]
  {
    var k := |p| - 1;
    assert p == p[..k] + [p[k]];
    if x in p[..k] {
      var i :| 0 <= i < k && p[..k][i] == x;
      assert p[i] == x;
    }
  }

  function EntryOf(log: seq<Processed>, job: Job): seq<Processed> {
    if log == [] then []
    else if log[0].job == job then [log[0]]
    else EntryOf(log[1..], job)
  }

  // The processed jobs in the order of submission, each with its own outcome.
  function InSubmissionOrder(submitted: seq<Job>, log: seq<Processed>): seq<Processed> {
    if submitted == [] then []
    else
      var n := |submitted| - 1;
      InSubmissionOrder(submitted[..n], log) + EntryOf(log, submitted[n])
  }

  predicate DistinctJobs(log: seq<Processed>) {
    forall i, j :: 0 <= i < j < |log| ==> log[i].job != log[j].job
  }

  lemma {:induction false} EntryIs(log: seq<Processed>, job: Job)
    requires DistinctJobs(log)
    ensures |EntryOf(log, job)| <= 1
    ensures forall x :: x in EntryOf(log, job) <==> x in log && x.job == job
  {
    if log != [] {
      assert DistinctJobs(log[1..]) by { assert forall i :: 0 <= i < |log| - 1 ==> log[1..][i] == log[i + 1]; }
      EntryIs(log[1..], job);
      assert log == [log[0]] + log[1..];
      if log[0].job == job {
        assert forall x :: x in log[1..] ==> x.job != job;
      }
    }
  }

  lemma {:induction false} OrderedIs(submitted: seq<Job>, log: seq<Processed>)
    requires DistinctJobs(log)
    requires forall i :: 0 <= i < |submitted| ==> submitted[i].id == i
    ensures forall x :: x in InSubmissionOrder(submitted, log) <==> x in log && x.job in submitted
    ensures Increasing(InSubmissionOrder(submitted, log))
  {
    if submitted != [] {
      var n := |submitted| - 1;
      var front := InSubmissionOrder(submitted[..n], log);
      OrderedIs(submitted[..n], log);
      EntryIs(log, submitted[n]);
      var last := EntryOf(log, submitted[n]);
      assert forall x :: x in front + last <==> x in front || x in last;
      forall i | 0 <= i < |front| ensures front[i].job.id < n {
        assert front[i] in front && front[i].job in submitted[..n];
      }
      assert submitted == submitted[..n] + [submitted[n]];
    }
  }

  lemma {:induction false} Counted1(log: seq<Processed>)
    requires forall j: Job :: Count(LogIs, j, log) <= 1
    ensures DistinctJobs(log)
  {
    if log != [] {
      assert forall j: Job :: Count(LogIs, j, log) == LogIs(log[0], j) + Count(LogIs, j, log[1..]);
      Counted1(log[1..]);
      forall i | 1 <= i < |log| ensures log[i].job != log[0].job {
        CountAt(LogIs, log[i].job, log[1..], i - 1);
      }
      forall i, j | 0 <= i < j < |log| ensures log[i].job != log[j].job {
        if i > 0 { assert log[i] == log[1..][i - 1] && log[j] == log[1..][j - 1]; }
      }
    }
  }

  lemma {:induction false} CountedIn(q: seq<Job>, j: Job)
    requires Count(IsJob, j, q) > 0
    ensures j in q
  {
    if q[0] != j { CountedIn(q[1..], j); }
  }

  // The jobs of the last part of a log are submitted, and different.
  lemma LoggedJobs(s: State, k: nat)
    requires Reached(s) && k <= |s.log|
    ensures DistinctJobs(s.log[k..])
    ensures forall i :: k <= i < |s.log| ==> s.log[i].job in s.submitted
  {
    forall j: Job
      ensures Count(LogIs, j, s.log[k..]) <= 1
      ensures Count(LogIs, j, s.log) <= Count(IsJob, j, s.submitted)
    {
      ReachedOnce(s, j);
      CountAppend(LogIs, j, s.log[..k], s.log[k..]);
      assert s.log[..k] + s.log[k..] == s.log;
    }
    Counted1(s.log[k..]);
    forall i | k <= i < |s.log| ensures s.log[i].job in s.submitted {
      CountAt(LogIs, s.log[i].job, s.log, i);
      CountedIn(s.submitted, s.log[i].job);
    }
  }

  // Putting a log into the order of submission changes nothing when the jobs on
  // each volume are in that order already.
  lemma ReorderedSame(storage: map<string, nat>, submitted: seq<Job>, log: seq<Processed>)
    requires InOrder(log) && DistinctJobs(log)
    requires forall i :: 0 <= i < |submitted| ==> submitted[i].id == i
    requires forall i :: 0 <= i < |log| ==> log[i].job in submitted
    ensures ExecAll(storage, log) == ExecAll(storage, InSubmissionOrder(submitted, log))
  {
    var ordered := InSubmissionOrder(submitted, log);
    OrderedIs(submitted, log);
    var p, q := ExecAll(storage, log), ExecAll(storage, ordered);
    forall n: string ensures Lookup(p, n) == Lookup(q, n) {
      ForNameIncreasing(log, n);
      ForNameIncreasing(ordered, n);
      IncreasingUnique(ForName(log, n), ForName(ordered, n));
      ExecForName(storage, log, n);
      ExecForName(storage, ordered, n);
    }
    SameLookups(p, q);
  }

  lemma SameLookups(p: map<string, nat>, q: map<string, nat>)
    requires forall n: string :: Lookup(p, n) == Lookup(q, n)
    ensures p == q
  {
    forall n: string ensures n in p <==> n in q ensures n in p ==> n in q && p[n] == q[n] {
      assert Lookup(p, n) == Lookup(q, n);
    }
  }

  // With any number of workers, from any state that a run comes to: if the jobs
  // processed from there on were, volume by volume, processed in the order of
  // their submission, the storage is what executing all of them in the order of
  // submission leaves. Interleaving across volumes is invisible.
  lemma AnyInterleavingIsSequential(s: State, labels: seq<Label>)
    requires Reached(s) && Run(s, labels).Next?
    ensures var s' := Run(s, labels).state;
            && s.log <= s'.log
            && (InOrder(s'.log[|s.log|..]) ==>
                  s'.storage == ExecAll(s.storage, InSubmissionOrder(s'.submitted, s'.log[|s.log|..])))
  {
    var s' := Run(s, labels).state;
    StorageReplaysLog(s, labels);
    ReachedOn(s, labels);
    ReachedInv(s');
    LoggedJobs(s', |s.log|);
    if InOrder(s'.log[|s.log|..]) { ReorderedSame(s.storage, s'.submitted, s'.log[|s.log|..]); }
  }
}
