// What the answers that a session gets say about how it goes: when it starts a
// machine, when it never does, and how it ends.
module SessionRuns {
  import opened Common
  import opened Sessions
  import H = Supervision

  // ---- A session for which everything goes well ----

  // Connect, find no domain, define the first k secrets and set their values.
  function Secured(id: nat, k: nat): (labels: seq<Label>)
    ensures |labels| == 2 + 2 * k
  {
    if k == 0 then [Connect(id), Lookup(id, false)]
    else Secured(id, k - 1) + [Define(id, true)] + [SetValue(id, true)]
  }

  // Then create the domain, publish it and register the machine.
  function Startup(id: nat, secrets: nat): seq<Label> {
    Secured(id, secrets) + [Create(id, true)] + [Publish(id, true)] + [Register(id)]
  }

  // An own step that goes through to this point.
  predicate Moves(s: Shim, l: Label, id: nat, pc: Pc)
    requires OfSession(l) && l.id == id && id in s.sessions
  {
    var o := SessionStep(s, l);
    && o.Next? && id in o.shim.sessions && o.shim.sessions[id].pc == pc
    && o.shim.sessions[id].uuid == s.sessions[id].uuid && o.shim.sessions[id].secrets == s.sessions[id].secrets
  }

  lemma ConnectMoves(s: Shim, id: nat)
    requires H.Inv(s.hub) && id in s.sessions && SessionOk(s, id)
    requires s.sessions[id].pc == Connecting && s.hub.conn.Some?
    ensures Moves(s, Connect(id), id, Looking)
  {
    HubNoFault(s, id);
  }

  lemma SecretMoves(s: Shim, id: nat, k: nat)
    requires id in s.sessions && k < |s.sessions[id].secrets|
    requires s.sessions[id].pc == Defining(k)
    ensures Moves(s, Define(id, true), id, Valuing(k))
  {
  }

  lemma ValueMoves(s: Shim, id: nat, k: nat)
    requires id in s.sessions && k < |s.sessions[id].secrets| && s.sessions[id].pc == Valuing(k)
    ensures Moves(s, SetValue(id, true), id, Defining(k + 1))
  {
  }

  lemma LookupMoves(s: Shim, id: nat)
    requires id in s.sessions && s.sessions[id].pc == Looking
    ensures Moves(s, Lookup(id, false), id, Defining(0))
  {
  }

  lemma CreateMoves(s: Shim, id: nat)
    requires id in s.sessions && s.sessions[id].pc == Defining(|s.sessions[id].secrets|)
    ensures Moves(s, Create(id, true), id, Publishing)
  {
  }

  lemma PublishMoves(s: Shim, id: nat)
    requires id in s.sessions && s.sessions[id].pc == Publishing
    ensures Moves(s, Publish(id, true), id, Registering)
  {
  }

  lemma RegisterMoves(s: Shim, id: nat)
    requires id in s.sessions && s.sessions[id].pc == Registering
    ensures Moves(s, Register(id), id, Unwinding)
  {
  }

  // The run of own labels has come to this point, with the session's identifiers
  // as they were.
  predicate At(s: Shim, labels: seq<Label>, id: nat, pc: Pc, s': Shim)
    requires id in s.sessions
  {
    && OwnLabels(labels, id) && Run(s, labels) == Next(s') && id in s'.sessions && s'.sessions[id].pc == pc
    && s'.sessions[id].uuid == s.sessions[id].uuid && s'.sessions[id].secrets == s.sessions[id].secrets
  }

  predicate Stands(s: Shim, s': Shim, id: nat, pc: Pc)
    requires id in s.sessions
  {
    && id in s'.sessions && s'.sessions[id].pc == pc
    && s'.sessions[id].uuid == s.sessions[id].uuid && s'.sessions[id].secrets == s.sessions[id].secrets
  }

  lemma OwnStep(s: Shim, l: Label)
    requires OfSession(l) && l.id in s.sessions
    ensures Do(s, l) == SessionStep(s, l)
  {
  }

  lemma Stepped(s: Shim, l: Label, id: nat, pc: Pc) returns (s': Shim)
    requires OfSession(l) && l.id == id && id in s.sessions && Moves(s, l, id, pc)
    ensures SessionStep(s, l) == Next(s') && Do(s, l) == Next(s') && Stands(s, s', id, pc)
  {
    OwnStep(s, l);
    s' := SessionStep(s, l).shim;
  }

  // One more own step.
  lemma {:induction false} AtSnoc(s: Shim, labels: seq<Label>, id: nat, pc: Pc, s1: Shim, l: Label, pc': Pc, s2: Shim)
    requires id in s.sessions && At(s, labels, id, pc, s1) && OfSession(l) && l.id == id
    requires Do(s1, l) == Next(s2) && Stands(s1, s2, id, pc')
    ensures At(s, labels + [l], id, pc', s2)
  {
    RunNext(s, labels, s1, l, s2);
    OwnSnoc(labels, l, id);
  }

  lemma {:induction false} RunNext(s: Shim, labels: seq<Label>, s1: Shim, l: Label, s2: Shim)
    requires Run(s, labels) == Next(s1) && Do(s1, l) == Next(s2)
    ensures Run(s, labels + [l]) == Next(s2)
  {
    RunSnoc(s, labels, l);
  }

  lemma OwnSnoc(labels: seq<Label>, l: Label, id: nat)
    requires OwnLabels(labels, id) && OfSession(l) && l.id == id
    ensures OwnLabels(labels + [l], id)
  {
  }

  // What own labels lead to is in order.
  lemma AtInv(s: Shim, labels: seq<Label>, id: nat, pc: Pc, s': Shim)
    requires Inv(s) && id in s.sessions && At(s, labels, id, pc, s')
    ensures Inv(s') && SessionOk(s', id)
  {
    forall i | 0 <= i < |labels| && Run(s, labels[..i]).Next?
      ensures Disciplined(Run(s, labels[..i]).shim, labels[i])
    {
      assert OfSession(labels[i]);
    }
    RunsAreSafe(s, labels);
  }

  lemma {:induction false} SecuredStarts(s: Shim, id: nat) returns (s': Shim)
    requires id in s.sessions && s.sessions[id].pc == Connecting && Moves(s, Connect(id), id, Looking)
    ensures At(s, Secured(id, 0), id, Defining(0), s')
  {
    var s1 := Stepped(s, Connect(id), id, Looking);
    AtSnoc(s, [], id, Connecting, s, Connect(id), Looking, s1);
    LookupMoves(s1, id);
    s' := Stepped(s1, Lookup(id, false), id, Defining(0));
    AtSnoc(s, [] + [Connect(id)], id, Looking, s1, Lookup(id, false), Defining(0), s');
    assert [Connect(id), Lookup(id, false)] == ([] + [Connect(id)]) + [Lookup(id, false)];
  }

  lemma {:induction false} SecuredMore(s: Shim, id: nat, k: nat, s0: Shim) returns (s': Shim)
    requires id in s.sessions && k < |s.sessions[id].secrets| && At(s, Secured(id, k), id, Defining(k), s0)
    ensures At(s, Secured(id, k + 1), id, Defining(k + 1), s')
  {
    SecretMoves(s0, id, k);
    var s1 := Stepped(s0, Define(id, true), id, Valuing(k));
    AtSnoc(s, Secured(id, k), id, Defining(k), s0, Define(id, true), Valuing(k), s1);
    ValueMoves(s1, id, k);
    s' := Stepped(s1, SetValue(id, true), id, Defining(k + 1));
    AtSnoc(s, Secured(id, k) + [Define(id, true)], id, Valuing(k), s1, SetValue(id, true), Defining(k + 1), s');
  }

  lemma {:induction false} SecuredRuns(s: Shim, id: nat, k: nat, s0: Shim) returns (s': Shim)
    requires id in s.sessions && At(s, Secured(id, 0), id, Defining(0), s0) && k <= |s.sessions[id].secrets|
    ensures At(s, Secured(id, k), id, Defining(k), s')
  {
    s' := s0;
    for i := 0 to k
      invariant At(s, Secured(id, i), id, Defining(i), s')
    {
      s' := SecuredMore(s, id, i, s');
    }
  }

  // What registration leaves, from a state just before it.
  lemma RegisterLeaves(s: Shim, id: nat)
    requires id in s.sessions && s.sessions[id].pc == Registering
    ensures RegisterStep(s, id).Next?
    ensures var s', u := RegisterStep(s, id).shim, s.sessions[id].uuid;
            && id in s'.sessions && s'.sessions[id].registered && u in s'.machines && s'.machines[u] == id
            && s'.secrets == s.secrets && s'.guests == s.guests
  {
  }

  lemma CreateLeaves(s: Shim, id: nat)
    requires id in s.sessions && SessionOk(s, id) && s.sessions[id].pc == Defining(|s.sessions[id].secrets|)
    ensures CreateStep(s, id, true).Next? && Running(CreateStep(s, id, true).shim, s.sessions[id].uuid)
    ensures CreateStep(s, id, true).shim.secrets == s.secrets
    ensures Ready(s, s.sessions[id], |s.sessions[id].secrets|)
  {
  }

  lemma PublishLeaves(s: Shim, id: nat)
    requires id in s.sessions && PublishStep(s, id, true).Next?
    ensures var s' := PublishStep(s, id, true).shim; s'.secrets == s.secrets && s'.guests == s.guests
  {
  }

  // From every state, a session that gets a connection, whose lookups find no
  // domain and for which every call succeeds has its machine in the table, its
  // domain running and every secret defined with its value.
  lemma {:induction false} StartupRegisters(s: Shim, id: nat) returns (s': Shim)
    requires Inv(s) && id in s.sessions && s.sessions[id].pc == Connecting && s.hub.conn.Some?
    ensures Run(s, Startup(id, |s.sessions[id].secrets|)) == Next(s') && Inv(s')
    ensures var x := s.sessions[id];
            && id in s'.sessions && s'.sessions[id].registered
            && x.uuid in s'.machines && s'.machines[x.uuid] == id && Running(s', x.uuid)
            && forall i :: 0 <= i < |x.secrets| ==> x.secrets[i] in s'.secrets && s'.secrets[x.secrets[i]]
  {
    var n := |s.sessions[id].secrets|;
    assert SessionOk(s, id);
    ConnectMoves(s, id);
    var s0 := SecuredStarts(s, id);
    var s1 := SecuredRuns(s, id, n, s0);
    AtInv(s, Secured(id, n), id, Defining(n), s1);
    var s2 := SecuredCreates(s, id, s1);
    s' := SecuredRegisters(s, id, s2);
    AtInv(s, Startup(id, n), id, Unwinding, s');
  }

  lemma {:induction false} SecuredCreates(s: Shim, id: nat, s1: Shim) returns (s2: Shim)
    requires id in s.sessions
    requires var n := |s.sessions[id].secrets|; At(s, Secured(id, n), id, Defining(n), s1) && SessionOk(s1, id)
    ensures At(s, Secured(id, |s.sessions[id].secrets|) + [Create(id, true)], id, Publishing, s2)
    ensures var x := s.sessions[id];
            && Running(s2, x.uuid)
            && forall i :: 0 <= i < |x.secrets| ==> x.secrets[i] in s2.secrets && s2.secrets[x.secrets[i]]
  {
    var n := |s.sessions[id].secrets|;
    CreateMoves(s1, id);
    CreateLeaves(s1, id);
    s2 := Stepped(s1, Create(id, true), id, Publishing);
    AtSnoc(s, Secured(id, n), id, Defining(n), s1, Create(id, true), Publishing, s2);
  }

  lemma {:induction false} SecuredRegisters(s: Shim, id: nat, s2: Shim) returns (s': Shim)
    requires id in s.sessions
    requires At(s, Secured(id, |s.sessions[id].secrets|) + [Create(id, true)], id, Publishing, s2)
    ensures At(s, Startup(id, |s.sessions[id].secrets|), id, Unwinding, s')
    ensures s'.secrets == s2.secrets && s'.guests == s2.guests && s'.sessions[id].registered
    ensures var u := s.sessions[id].uuid; u in s'.machines && s'.machines[u] == id
  {
    var created := Secured(id, |s.sessions[id].secrets|) + [Create(id, true)];
    PublishMoves(s2, id);
    PublishLeaves(s2, id);
    var s3 := Stepped(s2, Publish(id, true), id, Registering);
    AtSnoc(s, created, id, Publishing, s2, Publish(id, true), Registering, s3);
    RegisterMoves(s3, id);
    RegisterLeaves(s3, id);
    s' := Stepped(s3, Register(id), id, Unwinding);
    AtSnoc(s, created + [Publish(id, true)], id, Registering, s3, Register(id), Unwinding, s');
  }

  // ---- A session for which something fails ----

  // The answers on which startMachine returns an error: a domain is found, or a
  // call fails.
  predicate Fails(l: Label) {
    match l
    case Lookup(_, found) => found
    case Define(_, ok) => !ok
    case SetValue(_, ok) => !ok
    case Create(_, ok) => !ok
    case Publish(_, ok) => !ok
    case _ => false
  }

  predicate SameRecord(s: Shim, s': Shim, id: nat) {
    id in s.sessions && id in s'.sessions && s'.sessions[id] == s.sessions[id]
  }

  lemma WaitRecord(s: Shim, l: Label, id: nat)
    requires id in s.sessions && WaitLabel(l) && l.id in s.sessions && l.id != id && SessionStep(s, l).Next?
    ensures SameRecord(s, SessionStep(s, l).shim, id)
  {
  }

  lemma StartRecord(s: Shim, l: Label, id: nat)
    requires id in s.sessions && OfSession(l) && !WaitLabel(l) && l.id in s.sessions && l.id != id
    requires SessionStep(s, l).Next?
    ensures SameRecord(s, SessionStep(s, l).shim, id)
  {
  }

  lemma OtherRecord(s: Shim, l: Label, id: nat)
    requires id in s.sessions && Do(s, l).Next? && !(OfSession(l) && l.id == id)
    ensures SameRecord(s, Do(s, l).shim, id)
  {
    if OfSession(l) {
      OwnStep(s, l);
      if WaitLabel(l) { WaitRecord(s, l, id); } else { StartRecord(s, l, id); }
    }
  }

  predicate OfId(l: Label, id: nat) {
    OfSession(l) && l.id == id
  }

  // ---- The calls of a session, in order ----

  predicate CallLabel(l: Label) {
    l.Connect? || l.Lookup? || l.Define? || l.SetValue? || l.Create? || l.Publish? || l.Register?
  }

  // What a session did in startMachine, and in waitForMachineStop, apart from the
  // rounds of stopMachine and the deferred calls.
  function Calls(labels: seq<Label>, id: nat): seq<Label> {
    if labels == [] then []
    else
      var l := labels[|labels| - 1];
      Calls(labels[..|labels| - 1], id) + (if OfId(l, id) && CallLabel(l) then [l] else [])
  }

  function Waits(labels: seq<Label>, id: nat): seq<Label> {
    if labels == [] then []
    else
      var l := labels[|labels| - 1];
      Waits(labels[..|labels| - 1], id) + (if OfId(l, id) && WaitLabel(l) then [l] else [])
  }

  // Secret k could not be defined, or its value not be set.
  predicate Broken(c: seq<Label>, id: nat, k: nat) {
    || c == Secured(id, k) + [Define(id, false)]
    || c == Secured(id, k) + [Define(id, true)] + [SetValue(id, false)]
  }

  // There was no connection, a domain was found, or a call failed.
  ghost predicate Failing(c: seq<Label>, id: nat, secrets: nat) {
    || c == [Connect(id)] || c == [Connect(id), Lookup(id, true)]
    || (exists k: nat :: k < secrets && Broken(c, id, k))
    || c == Secured(id, secrets) + [Create(id, false)]
    || c == Secured(id, secrets) + [Create(id, true)] + [Publish(id, false)]
  }

  ghost predicate Called(x: Session, c: seq<Label>, id: nat) {
    var n := |x.secrets|;
    match x.pc
    case Connecting => c == [] && !x.registered
    case Looking => c == [Connect(id)] && !x.registered
    case Defining(i) => c == Secured(id, i) && i <= n && !x.registered
    case Valuing(i) => c == Secured(id, i) + [Define(id, true)] && i < n && !x.registered
    case Publishing => c == Secured(id, n) + [Create(id, true)] && !x.registered
    case Killing => Failing(c, id, n) && !x.registered
    case Registering => c == Secured(id, n) + [Create(id, true)] + [Publish(id, true)] && !x.registered
    case Unwinding => if x.registered then c == Startup(id, n) else Failing(c, id, n)
    case Gone => if x.registered then c == Startup(id, n) else Failing(c, id, n)
    case _ => x.registered && c == Startup(id, n)
  }

  // The guest was found stopped, or was waited for until it stopped or the client left.
  predicate Over(w: seq<Label>, id: nat) {
    || w == [Check(id, Inactive)] || w == [Check(id, Active), ShutdownNotice(id)]
    || w == [Check(id, Active), ClientEof(id)]
  }

  // Then the machine's status was updated, unless the check had failed.
  predicate Reported(x: Session, w: seq<Label>, id: nat) {
    if x.checkFailed then w == [Check(id, CheckError)]
    else w != [] && w[|w| - 1] == Report(id) && Over(w[..|w| - 1], id)
  }

  // At last the domain handle was freed and the machine taken from the table.
  predicate Finished(x: Session, w: seq<Label>, id: nat) {
    && |w| >= 2 && w[|w| - 2] == FreeDomain(id) && w[|w| - 1] == Unregister(id)
    && Reported(x, w[..|w| - 2], id)
  }

  predicate Waited(x: Session, w: seq<Label>, id: nat) {
    match x.pc
    case Waiting => w == [Check(id, Active)] && !x.checkFailed
    case KillingGuest => w == [Check(id, Active), ClientEof(id)] && !x.checkFailed
    case Reporting => Over(w, id) && !x.checkFailed
    case Freeing => Reported(x, w, id)
    case Closing => w != [] && w[|w| - 1] == FreeDomain(id) && Reported(x, w[..|w| - 1], id)
    case Gone => if x.registered then Finished(x, w, id) else w == []
    case _ => w == [] && !x.checkFailed
  }

  ghost predicate CalledBy(o: Outcome, id: nat, c: seq<Label>) {
    o.Next? ==> id in o.shim.sessions && Called(o.shim.sessions[id], c, id)
  }

  lemma ConnectCalled(s: Shim, id: nat, c: seq<Label>)
    requires id in s.sessions && Called(s.sessions[id], c, id)
    ensures CalledBy(ConnectStep(s, id), id, c + [Connect(id)])
  {
  }

  lemma LookupCalled(s: Shim, id: nat, found: bool, c: seq<Label>)
    requires id in s.sessions && Called(s.sessions[id], c, id)
    ensures CalledBy(LookupStep(s, id, found), id, c + [Lookup(id, found)])
  {
    assert [Connect(id)] + [Lookup(id, found)] == [Connect(id), Lookup(id, found)];
  }

  lemma DefineCalled(s: Shim, id: nat, ok: bool, c: seq<Label>)
    requires id in s.sessions && Called(s.sessions[id], c, id)
    ensures CalledBy(DefineStep(s, id, ok), id, c + [Define(id, ok)])
  {
    if DefineStep(s, id, ok).Next? && !ok { assert Broken(c + [Define(id, ok)], id, s.sessions[id].pc.next); }
  }

  lemma ValueCalled(s: Shim, id: nat, ok: bool, c: seq<Label>)
    requires id in s.sessions && Called(s.sessions[id], c, id)
    ensures CalledBy(SetValueStep(s, id, ok), id, c + [SetValue(id, ok)])
  {
    if SetValueStep(s, id, ok).Next? && !ok { assert Broken(c + [SetValue(id, ok)], id, s.sessions[id].pc.secret); }
  }

  lemma CreateCalled(s: Shim, id: nat, ok: bool, c: seq<Label>)
    requires id in s.sessions && Called(s.sessions[id], c, id)
    ensures CalledBy(CreateStep(s, id, ok), id, c + [Create(id, ok)])
  {
  }

  lemma PublishCalled(s: Shim, id: nat, ok: bool, c: seq<Label>)
    requires id in s.sessions && Called(s.sessions[id], c, id)
    ensures CalledBy(PublishStep(s, id, ok), id, c + [Publish(id, ok)])
  {
  }

  lemma RegisterCalled(s: Shim, id: nat, c: seq<Label>)
    requires id in s.sessions && Called(s.sessions[id], c, id)
    ensures CalledBy(RegisterStep(s, id), id, c + [Register(id)])
  {
  }

  // A step of startMachine.
  lemma CallSteps(s: Shim, l: Label, c: seq<Label>)
    requires OfSession(l) && CallLabel(l) && l.id in s.sessions && Called(s.sessions[l.id], c, l.id)
    ensures CalledBy(SessionStep(s, l), l.id, c + [l])
  {
    match l {
      case Connect(id) => ConnectCalled(s, id, c);
      case Lookup(id, found) => LookupCalled(s, id, found, c);
      case Define(id, ok) => DefineCalled(s, id, ok, c);
      case SetValue(id, ok) => ValueCalled(s, id, ok, c);
      case Create(id, ok) => CreateCalled(s, id, ok, c);
      case Publish(id, ok) => PublishCalled(s, id, ok, c);
      case Register(id) => RegisterCalled(s, id, c);
    }
  }

  // Past startMachine the calls are what they were.
  predicate Late(pc: Pc) {
    pc.Checking? || pc.Waiting? || pc.KillingGuest? || pc.Reporting? || pc.Freeing? || pc.Closing? || pc.Gone?
  }

  // A step that goes on in waitForMachineStop.
  predicate GoesLate(s: Shim, s': Shim, id: nat) {
    && id in s.sessions && id in s'.sessions && Late(s.sessions[id].pc) && !s.sessions[id].pc.Gone?
    && Late(s'.sessions[id].pc) && s'.sessions[id].registered == s.sessions[id].registered
    && s'.sessions[id].secrets == s.sessions[id].secrets
  }

  lemma CheckGoesLate(s: Shim, l: Label)
    requires l.Check? && l.id in s.sessions && SessionStep(s, l).Next?
    ensures GoesLate(s, SessionStep(s, l).shim, l.id)
  {
  }

  lemma StopGoesLate(s: Shim, l: Label)
    requires (l.ClientEof? || l.ShutdownNotice?) && l.id in s.sessions && SessionStep(s, l).Next?
    ensures GoesLate(s, SessionStep(s, l).shim, l.id)
  {
  }

  lemma ReportGoesLate(s: Shim, l: Label)
    requires OfSession(l) && (l.Report? || l.FreeDomain? || l.Unregister?) && l.id in s.sessions
    requires SessionStep(s, l).Next?
    ensures GoesLate(s, SessionStep(s, l).shim, l.id)
  {
  }

  lemma LateCalled(s: Shim, s': Shim, id: nat, c: seq<Label>)
    requires GoesLate(s, s', id) && Called(s.sessions[id], c, id)
    ensures Called(s'.sessions[id], c, id)
  {
  }

  lemma KillCalled(s: Shim, id: nat, answer: Destroy, c: seq<Label>)
    requires id in s.sessions && Called(s.sessions[id], c, id)
    ensures CalledBy(KillStep(s, id, answer), id, c)
  {
  }

  lemma UndefineCalled(s: Shim, id: nat, ok: bool, c: seq<Label>)
    requires id in s.sessions && Called(s.sessions[id], c, id)
    ensures CalledBy(UndefineStep(s, id, ok), id, c)
  {
  }

  lemma LeaveCalled(s: Shim, id: nat, c: seq<Label>)
    requires id in s.sessions && Called(s.sessions[id], c, id)
    ensures CalledBy(LeaveStep(s, id), id, c)
  {
  }

  lemma OtherCalls(s: Shim, l: Label, c: seq<Label>)
    requires OfSession(l) && !CallLabel(l) && l.id in s.sessions && Called(s.sessions[l.id], c, l.id)
    requires SessionStep(s, l).Next?
    ensures var s' := SessionStep(s, l).shim; l.id in s'.sessions && Called(s'.sessions[l.id], c, l.id)
  {
    match l {
      case Kill(id, answer) => KillCalled(s, id, answer, c);
      case Undefine(id, ok) => UndefineCalled(s, id, ok, c);
      case Leave(id) => LeaveCalled(s, id, c);
      case Check(_, _) => CheckGoesLate(s, l); LateCalled(s, SessionStep(s, l).shim, l.id, c);
      case ClientEof(_) => StopGoesLate(s, l); LateCalled(s, SessionStep(s, l).shim, l.id, c);
      case ShutdownNotice(_) => StopGoesLate(s, l); LateCalled(s, SessionStep(s, l).shim, l.id, c);
      case Report(_) => ReportGoesLate(s, l); LateCalled(s, SessionStep(s, l).shim, l.id, c);
      case FreeDomain(_) => ReportGoesLate(s, l); LateCalled(s, SessionStep(s, l).shim, l.id, c);
      case Unregister(_) => ReportGoesLate(s, l); LateCalled(s, SessionStep(s, l).shim, l.id, c);
    }
  }

  predicate WaitedBy(o: Outcome, id: nat, w: seq<Label>) {
    o.Next? ==> id in o.shim.sessions && Waited(o.shim.sessions[id], w, id)
  }

  lemma CheckWaited(s: Shim, id: nat, isActive: Answer, w: seq<Label>)
    requires id in s.sessions && Waited(s.sessions[id], w, id)
    ensures WaitedBy(CheckStep(s, id, isActive), id, w + [Check(id, isActive)])
  {
    assert [] + [Check(id, isActive)] == [Check(id, isActive)];
  }

  lemma StopWaited(s: Shim, id: nat, w: seq<Label>)
    requires id in s.sessions && Waited(s.sessions[id], w, id)
    ensures WaitedBy(EofStep(s, id), id, w + [ClientEof(id)])
    ensures WaitedBy(NoticeStep(s, id), id, w + [ShutdownNotice(id)])
  {
  }

  lemma ReportWaited(s: Shim, id: nat, w: seq<Label>)
    requires id in s.sessions && Waited(s.sessions[id], w, id)
    ensures WaitedBy(ReportStep(s, id), id, w + [Report(id)])
  {
    assert (w + [Report(id)])[..|w|] == w;
  }

  lemma FreeWaited(s: Shim, id: nat, w: seq<Label>)
    requires id in s.sessions && Waited(s.sessions[id], w, id)
    ensures WaitedBy(FreeStep(s, id), id, w + [FreeDomain(id)])
  {
    assert (w + [FreeDomain(id)])[..|w|] == w;
  }

  lemma UnregisterWaited(s: Shim, id: nat, w: seq<Label>)
    requires id in s.sessions && Waited(s.sessions[id], w, id)
    requires s.sessions[id].registered
    ensures WaitedBy(UnregisterStep(s, id), id, w + [Unregister(id)])
  {
    if w != [] { assert (w + [Unregister(id)])[..|w| - 1] == w[..|w| - 1]; }
  }

  lemma WaitSteps(s: Shim, l: Label, w: seq<Label>)
    requires WaitLabel(l) && l.id in s.sessions && Waited(s.sessions[l.id], w, l.id)
    requires s.sessions[l.id].pc.Closing? ==> s.sessions[l.id].registered
    ensures WaitedBy(SessionStep(s, l), l.id, w + [l])
  {
    match l {
      case Check(id, isActive) => CheckWaited(s, id, isActive, w);
      case ClientEof(id) => StopWaited(s, id, w);
      case ShutdownNotice(id) => StopWaited(s, id, w);
      case Report(id) => ReportWaited(s, id, w);
      case FreeDomain(id) => FreeWaited(s, id, w);
      case Unregister(id) => if s.sessions[id].pc.Closing? { UnregisterWaited(s, id, w); }
    }
  }

  // Up to its end startMachine waits for nothing.
  predicate GoesEarly(s: Shim, s': Shim, id: nat) {
    && id in s.sessions && id in s'.sessions
    && s'.sessions[id].checkFailed == s.sessions[id].checkFailed
    && (!Late(s.sessions[id].pc) || s.sessions[id].pc.Checking?)
    && (!Late(s'.sessions[id].pc) || s'.sessions[id].pc.Checking?
        || (s'.sessions[id].pc.Gone? && !s'.sessions[id].registered))
  }

  lemma ConnectGoesEarly(s: Shim, id: nat)
    requires id in s.sessions && !s.sessions[id].registered && ConnectStep(s, id).Next?
    ensures GoesEarly(s, ConnectStep(s, id).shim, id)
  {
  }

  lemma SecretGoesEarly(s: Shim, id: nat, answer: bool)
    requires id in s.sessions
    ensures LookupStep(s, id, answer).Next? ==> GoesEarly(s, LookupStep(s, id, answer).shim, id)
    ensures DefineStep(s, id, answer).Next? ==> GoesEarly(s, DefineStep(s, id, answer).shim, id)
    ensures SetValueStep(s, id, answer).Next? ==> GoesEarly(s, SetValueStep(s, id, answer).shim, id)
  {
  }

  lemma DomainGoesEarly(s: Shim, id: nat, answer: bool)
    requires id in s.sessions
    ensures CreateStep(s, id, answer).Next? ==> GoesEarly(s, CreateStep(s, id, answer).shim, id)
    ensures PublishStep(s, id, answer).Next? ==> GoesEarly(s, PublishStep(s, id, answer).shim, id)
    ensures RegisterStep(s, id).Next? ==> GoesEarly(s, RegisterStep(s, id).shim, id)
  {
  }

  lemma CallGoesEarly(s: Shim, l: Label)
    requires OfSession(l) && CallLabel(l) && l.id in s.sessions && SessionStep(s, l).Next?
    requires s.sessions[l.id].pc.Connecting? ==> !s.sessions[l.id].registered
    ensures GoesEarly(s, SessionStep(s, l).shim, l.id)
  {
    match l {
      case Connect(id) => ConnectGoesEarly(s, id);
      case Lookup(id, found) => SecretGoesEarly(s, id, found);
      case Define(id, ok) => SecretGoesEarly(s, id, ok);
      case SetValue(id, ok) => SecretGoesEarly(s, id, ok);
      case Create(id, ok) => DomainGoesEarly(s, id, ok);
      case Publish(id, ok) => DomainGoesEarly(s, id, ok);
      case Register(id) => DomainGoesEarly(s, id, true);
    }
  }

  lemma DeferGoesEarly(s: Shim, id: nat, ok: bool)
    requires id in s.sessions
    ensures UndefineStep(s, id, ok).Next? ==> GoesEarly(s, UndefineStep(s, id, ok).shim, id)
    ensures LeaveStep(s, id).Next? ==> GoesEarly(s, LeaveStep(s, id).shim, id)
  {
  }

  lemma EarlyWaited(s: Shim, s': Shim, id: nat, w: seq<Label>)
    requires GoesEarly(s, s', id) && Waited(s.sessions[id], w, id)
    ensures Waited(s'.sessions[id], w, id)
  {
  }

  lemma KillWaited(s: Shim, id: nat, answer: Destroy, w: seq<Label>)
    requires id in s.sessions && KillStep(s, id, answer).Next? && Waited(s.sessions[id], w, id)
    ensures var s' := KillStep(s, id, answer).shim; id in s'.sessions && Waited(s'.sessions[id], w, id)
  {
  }

  lemma OtherWaits(s: Shim, l: Label, w: seq<Label>)
    requires OfSession(l) && !WaitLabel(l) && l.id in s.sessions && Waited(s.sessions[l.id], w, l.id)
    requires s.sessions[l.id].pc.Connecting? ==> !s.sessions[l.id].registered
    requires SessionStep(s, l).Next?
    ensures var s' := SessionStep(s, l).shim; l.id in s'.sessions && Waited(s'.sessions[l.id], w, l.id)
  {
    if l.Kill? {
      KillWaited(s, l.id, l.answer, w);
    } else {
      if CallLabel(l) {
        CallGoesEarly(s, l);
      } else {
        DeferGoesEarly(s, l.id, if l.Undefine? then l.ok else true);
      }
      EarlyWaited(s, SessionStep(s, l).shim, l.id, w);
    }
  }

  // Every session is where its labels say.
  ghost predicate Traced(s: Shim, id: nat, c: seq<Label>, w: seq<Label>) {
    if id in s.sessions then Called(s.sessions[id], c, id) && Waited(s.sessions[id], w, id)
    else c == [] && w == []
  }

  lemma {:induction false} TraceSnoc(labels: seq<Label>, l: Label, id: nat)
    ensures Calls(labels + [l], id)
         == if OfId(l, id) && CallLabel(l) then Calls(labels, id) + [l] else Calls(labels, id)
    ensures Waits(labels + [l], id)
         == if OfId(l, id) && WaitLabel(l) then Waits(labels, id) + [l] else Waits(labels, id)
  {
    assert (labels + [l])[..|labels|] == labels;
  }

  lemma CalledStarts(x: Session, c: seq<Label>, id: nat)
    requires Called(x, c, id)
    ensures (x.pc.Connecting? ==> !x.registered) && (x.pc.Closing? ==> x.registered)
  {
  }

  lemma OwnTraced(s: Shim, l: Label, c: seq<Label>, w: seq<Label>)
    requires OfSession(l) && l.id in s.sessions && Traced(s, l.id, c, w) && SessionStep(s, l).Next?
    ensures Traced(SessionStep(s, l).shim, l.id, if CallLabel(l) then c + [l] else c,
                   if WaitLabel(l) then w + [l] else w)
  {
    CalledStarts(s.sessions[l.id], c, l.id);
    if CallLabel(l) {
      CallSteps(s, l, c);
      OtherWaits(s, l, w);
    } else if WaitLabel(l) {
      OtherCalls(s, l, c);
      WaitSteps(s, l, w);
    } else {
      OtherCalls(s, l, c);
      OtherWaits(s, l, w);
    }
  }

  // A session that is not there is not stepped; it can only arrive.
  lemma ArrivedRecord(s: Shim, l: Label, id: nat)
    requires id !in s.sessions && Do(s, l).Next?
    ensures !OfId(l, id)
    ensures var s' := Do(s, l).shim;
            id in s'.sessions ==> l.Arrive? && s'.sessions[id] == NewSession(l.uuid, l.secrets)
  {
    if OfSession(l) { StepKeepsOthers(s, l, id); }
  }

  lemma StepKeepsOthers(s: Shim, l: Label, id: nat)
    requires OfSession(l) && id !in s.sessions && Do(s, l).Next?
    ensures l.id in s.sessions && id !in Do(s, l).shim.sessions
  {
  }

  lemma NewTraced(s: Shim, id: nat, uuid: string, secrets: seq<string>)
    requires id in s.sessions && s.sessions[id] == NewSession(uuid, secrets)
    ensures Traced(s, id, [], [])
  {
  }

  lemma TracedStep(s: Shim, l: Label, id: nat, c: seq<Label>, w: seq<Label>)
    requires Traced(s, id, c, w) && Do(s, l).Next?
    ensures Traced(Do(s, l).shim, id, if OfId(l, id) && CallLabel(l) then c + [l] else c,
                   if OfId(l, id) && WaitLabel(l) then w + [l] else w)
  {
    if id !in s.sessions {
      ArrivedRecord(s, l, id);
      if id in Do(s, l).shim.sessions { NewTraced(Do(s, l).shim, id, l.uuid, l.secrets); }
    } else if OfId(l, id) {
      OwnStep(s, l);
      OwnTraced(s, l, c, w);
    } else {
      OtherRecord(s, l, id);
    }
  }

  lemma TracedMore(s: Shim, front: seq<Label>, l: Label, id: nat)
    requires Traced(s, id, Calls(front, id), Waits(front, id)) && Do(s, l).Next?
    ensures Traced(Do(s, l).shim, id, Calls(front + [l], id), Waits(front + [l], id))
  {
    TracedStep(s, l, id, Calls(front, id), Waits(front, id));
    TraceSnoc(front, l, id);
  }

  lemma {:induction false} TracedOverRuns(pointerErrors: bool, labels: seq<Label>, id: nat)
    requires Run(Start(pointerErrors), labels).Next?
    ensures Traced(Run(Start(pointerErrors), labels).shim, id, Calls(labels, id), Waits(labels, id))
  {
    if labels != [] {
      var front, l := labels[..|labels| - 1], labels[|labels| - 1];
      TracedOverRuns(pointerErrors, front, id);
      TracedMore(Run(Start(pointerErrors), front).shim, front, l, id);
      assert labels == front + [l];
    }
  }

  // Over all runs from the start: a session is registered exactly if its calls in
  // startMachine were, in this order, a connection, a lookup that found nothing,
  // a Define and a SetValue for each secret, Create, Publish and Register, all of
  // which succeeded. Otherwise it ends with the first of them that did not.
  lemma RegisteredExactly(pointerErrors: bool, labels: seq<Label>, id: nat)
    requires Run(Start(pointerErrors), labels).Next? && id in Run(Start(pointerErrors), labels).shim.sessions
    ensures var x := Run(Start(pointerErrors), labels).shim.sessions[id];
            && (x.registered <==> Calls(labels, id) == Startup(id, |x.secrets|))
            && (x.pc.Gone? && !x.registered ==> Failing(Calls(labels, id), id, |x.secrets|))
  {
    TracedOverRuns(pointerErrors, labels, id);
    var x := Run(Start(pointerErrors), labels).shim.sessions[id];
    if !x.registered { UnregisteredCalls(x, Calls(labels, id), id); }
  }

  lemma UnregisteredCalls(x: Session, c: seq<Label>, id: nat)
    requires Called(x, c, id) && !x.registered
    ensures c != Startup(id, |x.secrets|)
  {
    var n := |x.secrets|;
    assert |Startup(id, n)| == 2 * n + 5 && Startup(id, n)[2 * n + 4] == Register(id);
  }

  // Then it waits as it should: once it is gone it had checked the guest once,
  // waited exactly if the guest was running, for the guest's end or the client's,
  // updated the status unless the check failed, freed the domain handle and taken
  // the machine from the table, in this order and each once.
  lemma EndsExactly(pointerErrors: bool, labels: seq<Label>, id: nat)
    requires Run(Start(pointerErrors), labels).Next? && id in Run(Start(pointerErrors), labels).shim.sessions
    requires Run(Start(pointerErrors), labels).shim.sessions[id].pc.Gone?
    ensures var x, w := Run(Start(pointerErrors), labels).shim.sessions[id], Waits(labels, id);
            if x.registered then Finished(x, w, id) else w == []
  {
    TracedOverRuns(pointerErrors, labels, id);
  }

  lemma {:induction false} InCalls(labels: seq<Label>, id: nat, i: nat)
    requires i < |labels| && OfId(labels[i], id) && CallLabel(labels[i])
    ensures labels[i] in Calls(labels, id)
  {
    var n := |labels| - 1;
    if i < n { InCalls(labels[..n], id, i); }
  }

  lemma {:induction false} SecuredSucceeds(id: nat, k: nat)
    ensures forall i :: 0 <= i < |Secured(id, k)| ==> !Fails(Secured(id, k)[i])
  {
    if k > 0 { SecuredSucceeds(id, k - 1); }
  }

  lemma FailedCalls(x: Session, c: seq<Label>, id: nat, f: Label)
    requires Called(x, c, id) && f in c && Fails(f)
    ensures c[|c| - 1] == f && !x.registered
    ensures f.Lookup? ==> c == [Connect(id), f]
  {
    var n := |x.secrets|;
    forall k: nat ensures f !in Secured(id, k) { SecuredSucceeds(id, k); }
    assert f !in Startup(id, n);
  }

  // After a call that fails, or a lookup that finds a domain, a session makes no
  // other call of startMachine and never registers; if a domain was found it has
  // not defined a secret nor created a domain before either.
  lemma FailureIsFinal(pointerErrors: bool, labels: seq<Label>, id: nat, i: nat)
    requires Run(Start(pointerErrors), labels).Next? && id in Run(Start(pointerErrors), labels).shim.sessions
    requires i < |labels| && OfId(labels[i], id) && Fails(labels[i])
    ensures var c := Calls(labels, id);
            && c != [] && c[|c| - 1] == labels[i] && (labels[i].Lookup? ==> c == [Connect(id), labels[i]])
    ensures !Run(Start(pointerErrors), labels).shim.sessions[id].registered
  {
    TracedOverRuns(pointerErrors, labels, id);
    InCalls(labels, id, i);
    FailedCalls(Run(Start(pointerErrors), labels).shim.sessions[id], Calls(labels, id), id, labels[i]);
  }
}
