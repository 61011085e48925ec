// What the events of a run say about the connection, the pool and the place in
// the main loop, without looking at the state.
module RepoControl {
  import opened Common
  import opened RepoModel
  import opened RepoInvariant

  // The last connection event was ConnReady.
  predicate Connected(labels: seq<Label>) {
    if labels == [] then false
    else
      match labels[|labels| - 1]
      case ConnReady => true
      case ConnFailed => false
      case _ => Connected(labels[..|labels| - 1])
  }

  // How many pools were received.
  function Received(labels: seq<Label>): nat {
    if labels == [] then 0
    else Received(labels[..|labels| - 1]) + (if labels[|labels| - 1].PoolReady? then 1 else 0)
  }

  // The last pool received over a connection, unless the connection has failed since.
  function PoolOf(labels: seq<Label>): Option<nat> {
    if labels == [] then None
    else
      var front := labels[..|labels| - 1];
      match labels[|labels| - 1]
      case PoolReady(_) => if Connected(front) then Some(Received(front)) else PoolOf(front)
      case ConnFailed => None
      case _ => PoolOf(front)
  }

  // The parts of the main loop; a refresh knows what it is part of.
  datatype Part =
    | Select
    | Matching
    | Sweeps
    | Saving
    | Emptying
    | Drains(after: After)
    | Sizes(after: After)

  // Where the loop is: a received pool is loaded, saved and, if that succeeds,
  // refreshed; a failed connection loses its volumes, is refreshed, and is
  // closed; a tick is a refresh. Sizes are refreshed only of a readable pool.
  function PartOf(labels: seq<Label>): Part {
    if labels == [] then Select
    else
      var front := labels[..|labels| - 1];
      match labels[|labels| - 1]
      case PoolReady(listing) =>
        if !Connected(front) then Select else if listing.Some? then Matching else Saving
      case VisitDone => Sweeps
      case SweepDone => Saving
      case Saved(ok) => if ok && PoolOf(front).Some? then Drains(ReleasePool(PoolOf(front).value)) else Select
      case ConnFailed => Emptying
      case UnsetDone => Drains(CloseConn)
      case Tick => Drains(ToLoop)
      case DrainEnd(infoOk) =>
        if infoOk && PoolOf(front).Some? && PartOf(front).Drains? then Sizes(PartOf(front).after) else Select
      case SizeDone => Select
      case _ => PartOf(front)
  }

  // The connection given up is still held until its refresh is over.
  predicate Closing(part: Part) {
    part.Emptying? || ((part.Drains? || part.Sizes?) && part.after.CloseConn?)
  }

  predicate At(ctl: Control, part: Part) {
    match ctl
    case Loop => part == Select
    case Visiting(_, _, _) => part == Matching
    case Sweeping(_, _) => part == Sweeps
    case Loaded(_) => part == Saving
    case Unsetting(_) => part == Emptying
    case Draining(after) => part == Drains(after)
    case Sizing(after, _) => part == Sizes(after)
  }

  // The state is where the events say.
  predicate Follows(s: State, labels: seq<Label>) {
    && At(s.ctl, PartOf(labels))
    && s.pool == PoolOf(labels) && s.nextPool == Received(labels)
    && (s.connected <==> Connected(labels) || Closing(PartOf(labels)))
    && (Closing(PartOf(labels)) ==> !Connected(labels))
  }

  // A step that concerns none of this.
  predicate Aside(s: State, s': State) {
    && s'.pool == s.pool && s'.nextPool == s.nextPool && s'.connected == s.connected
    && (s'.ctl == s.ctl
        || (s.ctl.Visiting? && s'.ctl.Visiting?) || (s.ctl.Sweeping? && s'.ctl.Sweeping?)
        || (s.ctl.Unsetting? && s'.ctl.Unsetting?)
        || (s.ctl.Sizing? && s'.ctl.Sizing? && s'.ctl.after == s.ctl.after))
  }

  predicate AsideLabel(l: Label) {
    || l.Added? || l.Modified? || l.Deleted? || l.UnsetFile? || l.Visit? || l.Sweep? || l.FinishOne? || l.Size?
    || WorkerLabel(l)
  }

  lemma FileAside(s: State, l: Label)
    requires (l.Added? || l.Modified? || l.Deleted?) && Do(s, l).Next?
    ensures Aside(s, Do(s, l).state)
  {
  }

  lemma IterationAside(s: State, l: Label)
    requires (l.UnsetFile? || l.Visit? || l.Sweep? || l.Size?) && Do(s, l).Next?
    ensures Aside(s, Do(s, l).state)
  {
  }

  lemma WorkerAside(s: State, l: Label)
    requires WorkerLabel(l) && Do(s, l).Next?
    ensures Aside(s, Do(s, l).state)
  {
  }

  lemma AsideStep(s: State, l: Label)
    requires AsideLabel(l) && Do(s, l).Next?
    ensures Aside(s, Do(s, l).state)
  {
    if WorkerLabel(l) {
      WorkerAside(s, l);
    } else if l.FinishOne? {
      DrainFrame(s);
    } else if l.Added? || l.Modified? || l.Deleted? {
      FileAside(s, l);
    } else {
      IterationAside(s, l);
    }
  }

  lemma LastOf(labels: seq<Label>, l: Label)
    ensures (labels + [l])[..|labels|] == labels && (labels + [l])[|labels|] == l
  {
  }

  lemma {:induction false} AsideFollows(s: State, labels: seq<Label>, l: Label)
    requires Follows(s, labels) && AsideLabel(l) && Do(s, l).Next?
    ensures Follows(Do(s, l).state, labels + [l])
  {
    AsideStep(s, l);
    LastOf(labels, l);
  }

  lemma PoolMoves(s: State, listing: Option<Listing>)
    requires SetPool(s, listing).Next?
    ensures var s' := SetPool(s, listing).state;
            && s.ctl == Loop && s'.nextPool == s.nextPool + 1 && s'.connected == s.connected
            && if !s.connected then s'.pool == s.pool && s'.ctl == Loop
               else s'.pool == Some(s.nextPool) && At(s'.ctl, if listing.Some? then Matching else Saving)
  {
  }

  lemma {:induction false} PoolSays(labels: seq<Label>, listing: Option<Listing>)
    ensures var now := labels + [PoolReady(listing)];
            && Connected(now) == Connected(labels) && Received(now) == Received(labels) + 1
            && PoolOf(now) == (if Connected(labels) then Some(Received(labels)) else PoolOf(labels))
            && PartOf(now) == if !Connected(labels) then Select else if listing.Some? then Matching else Saving
  {
    LastOf(labels, PoolReady(listing));
  }

  lemma {:induction false} PoolFollows(s: State, labels: seq<Label>, listing: Option<Listing>)
    requires Follows(s, labels) && SetPool(s, listing).Next?
    ensures Follows(SetPool(s, listing).state, labels + [PoolReady(listing)])
  {
    PoolMoves(s, listing);
    PoolSays(labels, listing);
    PoolFits(s, SetPool(s, listing).state, labels, labels + [PoolReady(listing)], listing);
  }

  lemma PoolFits(s: State, s': State, labels: seq<Label>, now: seq<Label>, listing: Option<Listing>)
    requires Follows(s, labels) && s.ctl == Loop && s'.nextPool == s.nextPool + 1 && s'.connected == s.connected
    requires if !s.connected then s'.pool == s.pool && s'.ctl == Loop
             else s'.pool == Some(s.nextPool) && At(s'.ctl, if listing.Some? then Matching else Saving)
    requires Connected(now) == Connected(labels) && Received(now) == Received(labels) + 1
    requires PoolOf(now) == if Connected(labels) then Some(Received(labels)) else PoolOf(labels)
    requires PartOf(now) == if !Connected(labels) then Select else if listing.Some? then Matching else Saving
    ensures Follows(s', now)
  {
  }

  lemma {:induction false} ArmFollows(s: State, labels: seq<Label>, l: Label)
    requires RepoInvariant.Control(s) && Follows(s, labels) && Do(s, l).Next?
    requires l.ConnReady? || l.ConnFailed? || l.UnsetDone? || l.Tick?
    ensures Follows(Do(s, l).state, labels + [l])
  {
    LastOf(labels, l);
  }

  lemma {:induction false} LoadFollows(s: State, labels: seq<Label>, l: Label)
    requires RepoInvariant.Control(s) && Follows(s, labels) && Do(s, l).Next?
    requires l.VisitDone? || l.SweepDone? || l.Saved?
    ensures Follows(Do(s, l).state, labels + [l])
  {
    LastOf(labels, l);
  }

  lemma {:induction false} RefreshFollows(s: State, labels: seq<Label>, l: Label)
    requires RepoInvariant.Control(s) && Follows(s, labels) && (l.DrainEnd? || l.SizeDone?) && Do(s, l).Next?
    ensures Follows(Do(s, l).state, labels + [l])
  {
    LastOf(labels, l);
  }

  lemma {:induction false} FollowsStep(s: State, labels: seq<Label>, l: Label)
    requires RepoInvariant.Control(s) && Follows(s, labels) && Do(s, l).Next?
    ensures Follows(Do(s, l).state, labels + [l])
  {
    if AsideLabel(l) {
      AsideFollows(s, labels, l);
    } else if l.DrainEnd? || l.SizeDone? {
      RefreshFollows(s, labels, l);
    } else if l.VisitDone? || l.SweepDone? || l.Saved? {
      LoadFollows(s, labels, l);
    } else if l.PoolReady? {
      PoolFollows(s, labels, l.listing);
    } else {
      ArmFollows(s, labels, l);
    }
  }

  // Over every run from the start: where the main loop is, which pool it holds
  // and whether it holds a connection follow from the events alone. In the
  // select it is connected exactly if the last connection event was ConnReady.
  lemma {:induction false} ControlFollowsTheEvents(cfg: Config, items: seq<Resource>, storage: map<string, nat>,
                                                   labels: seq<Label>)
    requires cfg.workers <= 255 && Run(Init(cfg, items, storage), labels).Next?
    ensures Follows(Run(Init(cfg, items, storage), labels).state, labels)
  {
    if labels != [] {
      var n := |labels| - 1;
      ControlFollowsTheEvents(cfg, items, storage, labels[..n]);
      InitRunsAreSafe(cfg, items, storage, labels[..n]);
      FollowsStep(Run(Init(cfg, items, storage), labels[..n]).state, labels[..n], labels[n]);
      assert labels == labels[..n] + [labels[n]];
    }
  }

  // A pool that arrives when the last connection event is a failure, or when
  // there was none, is given back at once: nothing is held, loaded or queued.
  lemma LatePoolIsIgnored(cfg: Config, items: seq<Resource>, storage: map<string, nat>, labels: seq<Label>,
                          listing: Option<Listing>)
    requires cfg.workers <= 255 && Run(Init(cfg, items, storage), labels).Next? && !Connected(labels)
    ensures var s := Run(Init(cfg, items, storage), labels).state;
            s.ctl == Loop ==>
              && Do(s, PoolReady(listing)) == Next(s.(nextPool := s.nextPool + 1)) && s.pool.None? && !s.connected
  {
    ControlFollowsTheEvents(cfg, items, storage, labels);
    InitRunsAreSafe(cfg, items, storage, labels);
  }
}
