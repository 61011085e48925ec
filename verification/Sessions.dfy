// The VM shim: any number of client sessions, each running startMachine and
// then waitForMachineStop, over one supervised connection.
module Sessions {
  import opened Common
  import H = Supervision

  // Where a session is: in startMachine up to Unwinding, whose deferred calls
  // run there; then in waitForMachineStop.
  datatype Pc =
    | Connecting
    | Looking
    | Defining(next: nat)
    | Valuing(secret: nat)
    | Publishing
    | Killing
    | Registering
    | Unwinding
    | Checking
    | Waiting
    | KillingGuest
    | Reporting
    | Freeing
    | Closing
    | Gone

  datatype Session = Session(
    uuid: string,
    // the designed secrets, and how many of them were defined
    secrets: seq<string>,
    defined: nat,
    pc: Pc,
    // deferred Undefine calls still to run, those that have run, and those
    // that failed
    defers: seq<string>,
    ran: seq<string>,
    stuck: set<string>,
    created: bool,
    registered: bool,
    checkFailed: bool,
    // how often the domain handle was freed and the shutdown channel closed
    freed: nat,
    closed: nat)

  datatype Shim = Shim(
    hub: H.Hub,
    // the dynamic type of libvirt errors is the pointer type that stopMachine expects
    pointerErrors: bool,
    sessions: map<nat, Session>,
    machines: map<string, nat>,
    // libvirt: defined secrets and whether their value is set; guests ever
    // created and whether they run
    secrets: map<string, bool>,
    guests: map<string, bool>)

  datatype Answer = Active | Inactive | CheckError

  datatype Destroy = Destroyed | NotRunning | OtherError

  datatype Label =
    | Arrive(id: nat, uuid: string, secrets: seq<string>)
    | Connect(id: nat)
    | Lookup(id: nat, found: bool)
    | Define(id: nat, ok: bool)
    | SetValue(id: nat, ok: bool)
    | Create(id: nat, ok: bool)
    | Publish(id: nat, ok: bool)
    | Kill(id: nat, answer: Destroy)
    | Register(id: nat)
    | Undefine(id: nat, ok: bool)
    | Leave(id: nat)
    | Check(id: nat, isActive: Answer)
    | ClientEof(id: nat)
    | ShutdownNotice(id: nat)
    | Report(id: nat)
    | FreeDomain(id: nat)
    | Unregister(id: nat)
    | GuestQuits(uuid: string)
    | HubStep(step: H.Label)

  datatype Outcome = Next(shim: Shim) | Disabled | Fault

  function Start(pointerErrors: bool): Shim {
    Shim(H.START, pointerErrors, map[], map[], map[], map[])
  }

  predicate Distinct(q: seq<string>) {
    forall i, j :: 0 <= i < j < |q| ==> q[i] != q[j]
  }

  // Identifiers are generated, so they are new.
  predicate Fresh(s: Shim, id: nat, uuid: string, secrets: seq<string>) {
    && id !in s.sessions
    && uuid !in s.guests
    && Distinct(secrets)
    && (forall k :: 0 <= k < |secrets| ==> secrets[k] !in s.secrets)
    && (forall b :: b in s.sessions ==> s.sessions[b].uuid != uuid)
    && (forall b, k :: b in s.sessions && 0 <= k < |secrets| ==> secrets[k] !in s.sessions[b].secrets)
  }

  function Put(s: Shim, id: nat, x: Session): Shim {
    s.(sessions := s.sessions[id := x])
  }

  function Goto(s: Shim, id: nat, pc: Pc): Outcome
    requires id in s.sessions
  {
    Next(Put(s, id, s.sessions[id].(pc := pc)))
  }

  predicate Running(s: Shim, uuid: string) {
    uuid in s.guests && s.guests[uuid]
  }

  // One round of the retry loop of stopMachine.
  function Retry(s: Shim, id: nat, answer: Destroy, after: Pc): Outcome
    requires id in s.sessions
  {
    var x := s.sessions[id];
    match answer
    case Destroyed =>
      if !Running(s, x.uuid) then Disabled else Goto(s.(guests := s.guests[x.uuid := false]), id, after)
    case NotRunning =>
      if Running(s, x.uuid) then Disabled
      else if s.pointerErrors then Goto(s, id, after)
      else Next(s)
    case OtherError => Next(s)
  }

  // ---- The steps of startMachine ----

  function LiftHub(s: Shim, o: H.Outcome): Outcome {
    match o
    case Next(hub) => Next(s.(hub := hub))
    case Disabled => Disabled
    case _ => Fault
  }

  function TakeReference(s: Shim, id: nat): Outcome
    requires id in s.sessions
  {
    var o := LiftHub(s, H.BeginCall(s.hub, id));
    if o.Next? then Goto(o.shim, id, Looking) else o
  }

  // Under the lock; without a connection the call fails.
  function ConnectStep(s: Shim, id: nat): Outcome
    requires id in s.sessions
  {
    if s.sessions[id].pc != Connecting then Disabled
    else if s.hub.conn.None? then Goto(s, id, Gone)
    else TakeReference(s, id)
  }

  function LookupStep(s: Shim, id: nat, found: bool): Outcome
    requires id in s.sessions
  {
    if s.sessions[id].pc != Looking then Disabled else Goto(s, id, if found then Unwinding else Defining(0))
  }

  function DefineStep(s: Shim, id: nat, ok: bool): Outcome
    requires id in s.sessions
  {
    var x := s.sessions[id];
    if !x.pc.Defining? || x.pc.next >= |x.secrets| then Disabled
    else if !ok then Goto(s, id, Unwinding)
    else
      var k := x.secrets[x.pc.next];
      Next(Put(s.(secrets := s.secrets[k := false]), id,
               x.(pc := Valuing(x.pc.next), defers := x.defers + [k], defined := x.defined + 1)))
  }

  function SetValueStep(s: Shim, id: nat, ok: bool): Outcome
    requires id in s.sessions
  {
    var x := s.sessions[id];
    if !x.pc.Valuing? || x.pc.secret >= |x.secrets| then Disabled
    else if !ok then Goto(s, id, Unwinding)
    else Goto(s.(secrets := s.secrets[x.secrets[x.pc.secret] := true]), id, Defining(x.pc.secret + 1))
  }

  function CreateStep(s: Shim, id: nat, ok: bool): Outcome
    requires id in s.sessions
  {
    var x := s.sessions[id];
    if !x.pc.Defining? || x.pc.next != |x.secrets| then Disabled
    else if !ok then Goto(s, id, Unwinding)
    else Next(Put(s.(guests := s.guests[x.uuid := true]), id, x.(pc := Publishing, created := true)))
  }

  function PublishStep(s: Shim, id: nat, ok: bool): Outcome
    requires id in s.sessions
  {
    if s.sessions[id].pc != Publishing then Disabled else Goto(s, id, if ok then Registering else Killing)
  }

  function KillStep(s: Shim, id: nat, answer: Destroy): Outcome
    requires id in s.sessions
  {
    var pc := s.sessions[id].pc;
    if pc == Killing then Retry(s, id, answer, Unwinding)
    else if pc == KillingGuest then Retry(s, id, answer, Reporting)
    else Disabled
  }

  function RegisterStep(s: Shim, id: nat): Outcome
    requires id in s.sessions
  {
    var x := s.sessions[id];
    if x.pc != Registering then Disabled
    else Next(Put(s.(machines := s.machines[x.uuid := id]), id, x.(pc := Unwinding, registered := true)))
  }

  // Deferred calls run last in, first out.
  function UndefineStep(s: Shim, id: nat, ok: bool): Outcome
    requires id in s.sessions
  {
    var x := s.sessions[id];
    if x.pc != Unwinding || x.defers == [] then Disabled
    else
      var n := |x.defers| - 1;
      var k := x.defers[n];
      var x' := x.(defers := x.defers[..n], ran := [k] + x.ran);
      if ok then Next(Put(s.(secrets := s.secrets - {k}), id, x'))
      else Next(Put(s, id, x'.(stuck := x.stuck + {k})))
  }

  // The first deferred call is the last to run: give the reference back.
  function LeaveStep(s: Shim, id: nat): Outcome
    requires id in s.sessions
  {
    var x := s.sessions[id];
    if x.pc != Unwinding || x.defers != [] then Disabled
    else
      var o := LiftHub(s, H.EndCall(s.hub, id));
      if o.Next? then Goto(o.shim, id, if x.registered then Checking else Gone) else o
  }

  // ---- The steps of waitForMachineStop ----

  function CheckStep(s: Shim, id: nat, isActive: Answer): Outcome
    requires id in s.sessions
  {
    var x := s.sessions[id];
    if x.pc != Checking then Disabled
    else
      match isActive
      case CheckError => Next(Put(s, id, x.(pc := Freeing, checkFailed := true)))
      case Active => if Running(s, x.uuid) then Goto(s, id, Waiting) else Disabled
      case Inactive => if Running(s, x.uuid) then Disabled else Goto(s, id, Reporting)
  }

  function EofStep(s: Shim, id: nat): Outcome
    requires id in s.sessions
  {
    if s.sessions[id].pc != Waiting then Disabled else Goto(s, id, KillingGuest)
  }

  // A shutdown notice is taken to mean that the guest has stopped.
  function NoticeStep(s: Shim, id: nat): Outcome
    requires id in s.sessions
  {
    if s.sessions[id].pc != Waiting || Running(s, s.sessions[id].uuid) then Disabled else Goto(s, id, Reporting)
  }

  function ReportStep(s: Shim, id: nat): Outcome
    requires id in s.sessions
  {
    if s.sessions[id].pc != Reporting then Disabled else Goto(s, id, Freeing)
  }

  // A second Free of the handle, or a second close of the channel, is a fault.
  function FreeStep(s: Shim, id: nat): Outcome
    requires id in s.sessions
  {
    var x := s.sessions[id];
    if x.pc != Freeing then Disabled
    else if x.freed > 0 then Fault
    else Next(Put(s, id, x.(pc := Closing, freed := x.freed + 1)))
  }

  function UnregisterStep(s: Shim, id: nat): Outcome
    requires id in s.sessions
  {
    var x := s.sessions[id];
    if x.pc != Closing then Disabled
    else if x.closed > 0 then Fault
    else Next(Put(s.(machines := s.machines - {x.uuid}), id, x.(pc := Gone, closed := x.closed + 1)))
  }

  // ---- The environment ----

  function NewSession(uuid: string, secrets: seq<string>): Session {
    Session(uuid, secrets, 0, Connecting, [], [], {}, false, false, false, 0, 0)
  }

  function ArriveStep(s: Shim, id: nat, uuid: string, secrets: seq<string>): Outcome {
    if !Fresh(s, id, uuid, secrets) then Disabled
    else Next(Put(s, id, NewSession(uuid, secrets)))
  }

  function QuitStep(s: Shim, uuid: string): Outcome {
    if Running(s, uuid) then Next(s.(guests := s.guests[uuid := false])) else Disabled
  }

  function SuperviseStep(s: Shim, step: H.Label): Outcome {
    if step.Acquire? || step.Release? then Disabled else LiftHub(s, H.Do(s.hub, step))
  }

  predicate OfSession(l: Label) {
    !l.Arrive? && !l.GuestQuits? && !l.HubStep?
  }

  function SessionStep(s: Shim, l: Label): Outcome
    requires OfSession(l) && l.id in s.sessions
  {
    match l
    case Connect(id) => ConnectStep(s, id)
    case Lookup(id, found) => LookupStep(s, id, found)
    case Define(id, ok) => DefineStep(s, id, ok)
    case SetValue(id, ok) => SetValueStep(s, id, ok)
    case Create(id, ok) => CreateStep(s, id, ok)
    case Publish(id, ok) => PublishStep(s, id, ok)
    case Kill(id, answer) => KillStep(s, id, answer)
    case Register(id) => RegisterStep(s, id)
    case Undefine(id, ok) => UndefineStep(s, id, ok)
    case Leave(id) => LeaveStep(s, id)
    case Check(id, isActive) => CheckStep(s, id, isActive)
    case ClientEof(id) => EofStep(s, id)
    case ShutdownNotice(id) => NoticeStep(s, id)
    case Report(id) => ReportStep(s, id)
    case FreeDomain(id) => FreeStep(s, id)
    case Unregister(id) => UnregisterStep(s, id)
  }

  function Do(s: Shim, l: Label): Outcome {
    match l
    case Arrive(id, uuid, secrets) => ArriveStep(s, id, uuid, secrets)
    case GuestQuits(uuid) => QuitStep(s, uuid)
    case HubStep(step) => SuperviseStep(s, step)
    case _ => if l.id in s.sessions then SessionStep(s, l) else Disabled
  }

  function Run(s: Shim, labels: seq<Label>): Outcome {
    if labels == [] then Next(s)
    else
      var o := Run(s, labels[..|labels| - 1]);
      if o.Next? then Do(o.shim, labels[|labels| - 1]) else o
  }

  // ---- What holds of each session ----

  // Between Ref and the deferred Close of the connection.
  predicate Borrowing(pc: Pc) {
    pc.Looking? || pc.Defining? || pc.Valuing? || pc.Publishing? || pc.Killing? || pc.Registering? || pc.Unwinding?
  }

  // Between registration and clean-up.
  predicate Listed(x: Session) {
    x.registered && !x.pc.Gone?
  }

  predicate Ready(s: Shim, x: Session, n: nat)
    requires n <= |x.secrets|
  {
    forall k :: 0 <= k < n ==> x.secrets[k] in s.secrets && s.secrets[x.secrets[k]]
  }

  // The deferred calls that are left and those that ran are, in order, exactly
  // the secrets that were defined.
  predicate Deferred(x: Session) {
    x.defined <= |x.secrets| && x.defers + x.ran == x.secrets[..x.defined]
  }

  // Of the designed secrets, libvirt has those whose Undefine is still to run
  // and those for which it failed.
  predicate Kept(s: Shim, x: Session) {
    forall i :: 0 <= i < |x.secrets| ==>
      && (x.secrets[i] in x.stuck ==> |x.defers| <= i < x.defined)
      && (x.secrets[i] in s.secrets <==> i < |x.defers| || x.secrets[i] in x.stuck)
  }

  predicate Progress(s: Shim, x: Session) {
    match x.pc
    case Connecting => x.defined == 0 && !x.created && !x.registered
    case Looking => x.defined == 0 && !x.created && !x.registered
    case Defining(i) => x.defined == i <= |x.secrets| && x.ran == [] && Ready(s, x, i) && !x.created && !x.registered
    case Valuing(i) => x.defined == i + 1 <= |x.secrets| && x.ran == [] && Ready(s, x, i) && !x.created && !x.registered
    case Publishing => x.defined == |x.secrets| && x.ran == [] && Ready(s, x, |x.secrets|) && x.created && !x.registered
    case Killing => x.created && !x.registered
    case Registering => x.created && !x.registered
    case Unwinding => x.registered ==> x.created
    case Gone => x.defers == [] && (x.registered ==> x.created)
    case _ => x.defers == [] && x.created && x.registered
  }

  // The guest of a session past its wait, or of one that failed to publish it,
  // is not running, unless the activity check failed.
  predicate GuestOver(s: Shim, x: Session) {
    && (x.created <==> x.uuid in s.guests)
    && (x.registered && (x.pc.Reporting? || x.pc.Freeing? || x.pc.Closing? || x.pc.Gone?) && !x.checkFailed
      ==> !Running(s, x.uuid))
    && (x.created && !x.registered && (x.pc.Unwinding? || x.pc.Gone?) ==> !Running(s, x.uuid))
  }

  predicate Handles(x: Session) {
    && x.freed == (if x.registered && (x.pc.Closing? || x.pc.Gone?) then 1 else 0)
    && x.closed == (if x.registered && x.pc.Gone? then 1 else 0)
  }

  predicate SessionOk(s: Shim, id: nat)
    requires id in s.sessions
  {
    var x := s.sessions[id];
    && Deferred(x) && Kept(s, x) && Progress(s, x) && GuestOver(s, x) && Handles(x)
    && (Listed(x) ==> x.uuid in s.machines && s.machines[x.uuid] == id)
    && (!Listed(x) ==> x.uuid !in s.machines)
    && (Borrowing(x.pc) <==> id in s.hub.calls)
  }

  // Sessions share neither machine names nor secrets.
  predicate Apart(x: Session, y: Session) {
    x.uuid != y.uuid && forall i :: 0 <= i < |x.secrets| ==> x.secrets[i] !in y.secrets
  }

  predicate AllApart(s: Shim) {
    && (forall a :: a in s.sessions ==> Distinct(s.sessions[a].secrets))
    && (forall a, b :: a in s.sessions && b in s.sessions && a != b ==> Apart(s.sessions[a], s.sessions[b]))
  }

  predicate Owned(s: Shim) {
    && (forall u :: u in s.machines ==> s.machines[u] in s.sessions && s.sessions[s.machines[u]].uuid == u)
    && (forall id :: id in s.hub.calls ==> id in s.sessions)
  }

  ghost predicate Inv(s: Shim) {
    && H.Inv(s.hub) && AllApart(s) && Owned(s)
    && forall id :: id in s.sessions ==> SessionOk(s, id)
  }

  // ---- One step touches one session ----

  predicate Same<K, V(==)>(m: map<K, V>, m': map<K, V>, k: K) {
    (k in m <==> k in m') && (k in m ==> m[k] == m'[k])
  }

  // Nothing session b depends on has changed.
  predicate Untouched(s: Shim, s': Shim, b: nat)
    requires b in s.sessions
  {
    var x := s.sessions[b];
    && Same(s.sessions, s'.sessions, b)
    && Same(s.machines, s'.machines, x.uuid)
    && Same(s.guests, s'.guests, x.uuid)
    && (b in s.hub.calls <==> b in s'.hub.calls)
    && forall i :: 0 <= i < |x.secrets| ==> Same(s.secrets, s'.secrets, x.secrets[i])
  }

  lemma UntouchedOk(s: Shim, s': Shim, b: nat)
    requires b in s.sessions && SessionOk(s, b) && Untouched(s, s', b)
    ensures SessionOk(s', b)
  {
  }

  // Only the entries of session id change, and not its identifiers.
  predicate Modest(s: Shim, s': Shim, id: nat)
    requires id in s.sessions
  {
    var x := s.sessions[id];
    && id in s'.sessions && s'.sessions == s.sessions[id := s'.sessions[id]]
    && s'.sessions[id].uuid == x.uuid && s'.sessions[id].secrets == x.secrets
    && (s'.machines == s.machines || s'.machines == s.machines[x.uuid := id] || s'.machines == s.machines - {x.uuid})
    && (s'.hub == s.hub || H.BeginCall(s.hub, id) == H.Next(s'.hub) || H.EndCall(s.hub, id) == H.Next(s'.hub))
  }

  // A step of session id leaves that session in order and any other untouched.
  predicate Settles(s: Shim, o: Outcome, id: nat, b: nat)
    requires id in s.sessions && b in s.sessions
  {
    o.Next? ==> Modest(s, o.shim, id) && SessionOk(o.shim, id) && (b != id ==> Untouched(s, o.shim, b))
  }

  predicate Fits(s: Shim, id: nat, b: nat) {
    && id in s.sessions && b in s.sessions && SessionOk(s, id)
    && Distinct(s.sessions[id].secrets) && (b != id ==> Apart(s.sessions[id], s.sessions[b]))
  }

  lemma ReferenceSettles(s: Shim, id: nat, b: nat)
    requires Fits(s, id, b) && s.sessions[id].pc == Connecting
    ensures Settles(s, TakeReference(s, id), id, b)
  {
    var o := H.BeginCall(s.hub, id);
    assert o.Next? ==> o.hub.calls.Keys == s.hub.calls.Keys + {id};
  }

  lemma ConnectSettles(s: Shim, id: nat, b: nat)
    requires Fits(s, id, b)
    ensures Settles(s, ConnectStep(s, id), id, b)
  {
    if s.sessions[id].pc == Connecting && s.hub.conn.Some? { ReferenceSettles(s, id, b); }
  }

  lemma LookupSettles(s: Shim, id: nat, b: nat, found: bool)
    requires Fits(s, id, b)
    ensures Settles(s, LookupStep(s, id, found), id, b)
  {
  }

  lemma DefineApart(s: Shim, id: nat, b: nat)
    requires Fits(s, id, b)
    requires var x := s.sessions[id]; x.pc.Defining? && x.pc.next < |x.secrets|
    ensures Modest(s, DefineStep(s, id, true).shim, id) && (b != id ==> Untouched(s, DefineStep(s, id, true).shim, b))
  {
  }

  lemma DefineFails(s: Shim, id: nat, b: nat)
    requires Fits(s, id, b)
    ensures Settles(s, DefineStep(s, id, false), id, b)
  {
  }

  lemma DefineGrows(s: Shim, id: nat)
    requires id in s.sessions && SessionOk(s, id) && Distinct(s.sessions[id].secrets)
    requires var x := s.sessions[id]; x.pc.Defining? && x.pc.next < |x.secrets|
    ensures SessionOk(DefineStep(s, id, true).shim, id)
  {
    var x := s.sessions[id];
    assert x.defers + [x.secrets[x.defined]] + x.ran == x.secrets[..x.defined + 1];
  }

  lemma DefineSettles(s: Shim, id: nat, b: nat, ok: bool)
    requires Fits(s, id, b)
    ensures Settles(s, DefineStep(s, id, ok), id, b)
  {
    var x := s.sessions[id];
    if !ok {
      DefineFails(s, id, b);
    } else if x.pc.Defining? && x.pc.next < |x.secrets| {
      DefineGrows(s, id);
      DefineApart(s, id, b);
    }
  }

  lemma SetValueSettles(s: Shim, id: nat, b: nat, ok: bool)
    requires Fits(s, id, b)
    ensures Settles(s, SetValueStep(s, id, ok), id, b)
  {
  }

  lemma CreateSettles(s: Shim, id: nat, b: nat, ok: bool)
    requires Fits(s, id, b)
    ensures Settles(s, CreateStep(s, id, ok), id, b)
  {
  }

  lemma PublishSettles(s: Shim, id: nat, b: nat, ok: bool)
    requires Fits(s, id, b)
    ensures Settles(s, PublishStep(s, id, ok), id, b)
  {
  }

  lemma DestroySettles(s: Shim, id: nat, b: nat, after: Pc)
    requires Fits(s, id, b)
    requires var at := (s.sessions[id].pc, after);
             at == (Killing, Unwinding) || at == (KillingGuest, Reporting)
    ensures Settles(s, Retry(s, id, Destroyed, after), id, b)
  {
  }

  lemma RetrySettles(s: Shim, id: nat, b: nat, answer: Destroy, after: Pc)
    requires Fits(s, id, b)
    requires var at := (s.sessions[id].pc, after);
             at == (Killing, Unwinding) || at == (KillingGuest, Reporting)
    ensures Settles(s, Retry(s, id, answer, after), id, b)
  {
    if answer.Destroyed? { DestroySettles(s, id, b, after); }
  }

  lemma KillSettles(s: Shim, id: nat, b: nat, answer: Destroy)
    requires Fits(s, id, b)
    ensures Settles(s, KillStep(s, id, answer), id, b)
  {
    if s.sessions[id].pc == Killing {
      RetrySettles(s, id, b, answer, Unwinding);
    } else if s.sessions[id].pc == KillingGuest {
      RetrySettles(s, id, b, answer, Reporting);
    }
  }

  lemma RegisterSettles(s: Shim, id: nat, b: nat)
    requires Fits(s, id, b)
    ensures Settles(s, RegisterStep(s, id), id, b)
  {
  }

  lemma UndefineShrinks(s: Shim, id: nat, ok: bool)
    requires id in s.sessions && SessionOk(s, id) && Distinct(s.sessions[id].secrets)
    requires s.sessions[id].pc == Unwinding && s.sessions[id].defers != []
    ensures var x := s.sessions[id]; |x.defers| <= |x.secrets| && x.defers[|x.defers| - 1] == x.secrets[|x.defers| - 1]
    ensures SessionOk(UndefineStep(s, id, ok).shim, id)
  {
    var x := s.sessions[id];
    var n := |x.defers| - 1;
    assert x.defers[n] == (x.defers + x.ran)[n];
    assert x.defers[..n] + ([x.defers[n]] + x.ran) == x.defers + x.ran;
  }

  lemma UndefineSettles(s: Shim, id: nat, b: nat, ok: bool)
    requires Fits(s, id, b)
    ensures Settles(s, UndefineStep(s, id, ok), id, b)
  {
    var x := s.sessions[id];
    if x.pc == Unwinding && x.defers != [] { UndefineShrinks(s, id, ok); }
  }

  lemma LeaveSettles(s: Shim, id: nat, b: nat)
    requires Fits(s, id, b)
    ensures Settles(s, LeaveStep(s, id), id, b)
  {
  }

  lemma CheckSettles(s: Shim, id: nat, b: nat, isActive: Answer)
    requires Fits(s, id, b)
    ensures Settles(s, CheckStep(s, id, isActive), id, b)
  {
  }

  lemma EofSettles(s: Shim, id: nat, b: nat)
    requires Fits(s, id, b)
    ensures Settles(s, EofStep(s, id), id, b)
  {
  }

  lemma NoticeSettles(s: Shim, id: nat, b: nat)
    requires Fits(s, id, b)
    ensures Settles(s, NoticeStep(s, id), id, b)
  {
  }

  lemma ReportSettles(s: Shim, id: nat, b: nat)
    requires Fits(s, id, b)
    ensures Settles(s, ReportStep(s, id), id, b)
  {
  }

  lemma CleanUpSettles(s: Shim, id: nat, b: nat)
    requires Fits(s, id, b)
    ensures Settles(s, FreeStep(s, id), id, b) && Settles(s, UnregisterStep(s, id), id, b)
  {
  }

  predicate WaitLabel(l: Label) {
    l.Check? || l.ClientEof? || l.ShutdownNotice? || l.Report? || l.FreeDomain? || l.Unregister?
  }

  lemma WaitStepSettles(s: Shim, l: Label, b: nat)
    requires WaitLabel(l) && Fits(s, l.id, b)
    ensures Settles(s, SessionStep(s, l), l.id, b)
  {
    match l {
      case Check(id, isActive) => CheckSettles(s, id, b, isActive);
      case ClientEof(id) => EofSettles(s, id, b);
      case ShutdownNotice(id) => NoticeSettles(s, id, b);
      case Report(id) => ReportSettles(s, id, b);
      case FreeDomain(id) => CleanUpSettles(s, id, b);
      case Unregister(id) => CleanUpSettles(s, id, b);
    }
  }

  lemma StartStepSettles(s: Shim, l: Label, b: nat)
    requires OfSession(l) && !WaitLabel(l) && Fits(s, l.id, b)
    ensures Settles(s, SessionStep(s, l), l.id, b)
  {
    match l {
      case Connect(id) => ConnectSettles(s, id, b);
      case Lookup(id, found) => LookupSettles(s, id, b, found);
      case Define(id, ok) => DefineSettles(s, id, b, ok);
      case SetValue(id, ok) => SetValueSettles(s, id, b, ok);
      case Create(id, ok) => CreateSettles(s, id, b, ok);
      case Publish(id, ok) => PublishSettles(s, id, b, ok);
      case Kill(id, answer) => KillSettles(s, id, b, answer);
      case Register(id) => RegisterSettles(s, id, b);
      case Undefine(id, ok) => UndefineSettles(s, id, b, ok);
      case Leave(id) => LeaveSettles(s, id, b);
    }
  }

  lemma SessionStepSettles(s: Shim, l: Label, b: nat)
    requires OfSession(l) && Fits(s, l.id, b)
    ensures Settles(s, SessionStep(s, l), l.id, b)
  {
    if WaitLabel(l) { WaitStepSettles(s, l, b); } else { StartStepSettles(s, l, b); }
  }

  // ---- What a step leaves of the tables ----

  lemma ModestTables(s: Shim, s': Shim, id: nat)
    requires id in s.sessions && Modest(s, s', id) && AllApart(s) && Owned(s)
    ensures AllApart(s') && Owned(s')
  {
  }

  lemma SettledInv(s: Shim, s': Shim, id: nat)
    requires Inv(s) && id in s.sessions && Modest(s, s', id) && SessionOk(s', id)
    requires forall b :: b in s.sessions && b != id ==> Untouched(s, s', b)
    ensures Inv(s')
  {
    ModestTables(s, s', id);
    ModestHub(s, s', id);
    forall b | b in s'.sessions ensures SessionOk(s', b) {
      if b != id { UntouchedOk(s, s', b); }
    }
  }

  lemma ModestHub(s: Shim, s': Shim, id: nat)
    requires id in s.sessions && Modest(s, s', id) && H.Inv(s.hub)
    ensures H.Inv(s'.hub)
  {
    if s'.hub != s.hub {
      var step := if H.BeginCall(s.hub, id) == H.Next(s'.hub) then H.Acquire(id) else H.Release(id);
      H.StepKeepsInv(s.hub, step);
    }
  }

  lemma SessionFits(s: Shim, id: nat, b: nat)
    requires Inv(s) && id in s.sessions && b in s.sessions
    ensures Fits(s, id, b)
  {
  }

  lemma SessionStepKeepsInv(s: Shim, l: Label)
    requires Inv(s) && OfSession(l) && l.id in s.sessions && SessionStep(s, l).Next?
    ensures Inv(SessionStep(s, l).shim)
  {
    var o := SessionStep(s, l);
    SessionFits(s, l.id, l.id);
    SessionStepSettles(s, l, l.id);
    forall b | b in s.sessions && b != l.id ensures Untouched(s, o.shim, b) {
      SessionFits(s, l.id, b);
      SessionStepSettles(s, l, b);
    }
    SettledInv(s, o.shim, l.id);
  }

  lemma ArriveKeepsInv(s: Shim, id: nat, uuid: string, secrets: seq<string>)
    requires Inv(s) && ArriveStep(s, id, uuid, secrets).Next?
    ensures Inv(ArriveStep(s, id, uuid, secrets).shim)
  {
    var s' := ArriveStep(s, id, uuid, secrets).shim;
    ArriveTables(s, id, uuid, secrets);
    forall b | b in s.sessions ensures SessionOk(s', b) {
      UntouchedOk(s, s', b);
    }
    ArrivedOk(s', id);
  }

  lemma ArrivedOk(s: Shim, id: nat)
    requires id in s.sessions && s.sessions[id] == NewSession(s.sessions[id].uuid, s.sessions[id].secrets)
    requires s.sessions[id].uuid !in s.guests && s.sessions[id].uuid !in s.machines && id !in s.hub.calls
    requires forall k :: 0 <= k < |s.sessions[id].secrets| ==> s.sessions[id].secrets[k] !in s.secrets
    ensures SessionOk(s, id)
  {
  }

  lemma ArriveTables(s: Shim, id: nat, uuid: string, secrets: seq<string>)
    requires AllApart(s) && Owned(s) && Fresh(s, id, uuid, secrets)
    ensures AllApart(ArriveStep(s, id, uuid, secrets).shim) && Owned(ArriveStep(s, id, uuid, secrets).shim)
    ensures uuid !in s.machines && id !in s.hub.calls
  {
  }

  lemma QuitKeepsInv(s: Shim, uuid: string)
    requires Inv(s) && QuitStep(s, uuid).Next?
    ensures Inv(QuitStep(s, uuid).shim)
  {
    var s' := QuitStep(s, uuid).shim;
    forall b | b in s'.sessions ensures SessionOk(s', b) {
      assert SessionOk(s, b);
    }
  }

  predicate Disciplined(s: Shim, l: Label) {
    l.HubStep? ==> H.Disciplined(s.hub, l.step)
  }

  lemma SuperviseKeepsInv(s: Shim, step: H.Label)
    requires Inv(s) && H.Disciplined(s.hub, step) && SuperviseStep(s, step).Next?
    ensures Inv(SuperviseStep(s, step).shim)
  {
    var s' := SuperviseStep(s, step).shim;
    H.StepKeepsInv(s.hub, step);
    H.CallsStay(s.hub, step);
    assert s' == s.(hub := s'.hub);
    forall b | b in s'.sessions ensures SessionOk(s', b) {
      UntouchedOk(s, s', b);
    }
  }

  lemma EnvironmentKeepsInv(s: Shim, l: Label)
    requires Inv(s) && !OfSession(l) && Disciplined(s, l) && Do(s, l).Next?
    ensures Inv(Do(s, l).shim)
  {
    match l {
      case Arrive(id, uuid, secrets) => ArriveKeepsInv(s, id, uuid, secrets);
      case GuestQuits(uuid) => QuitKeepsInv(s, uuid);
      case HubStep(step) => SuperviseKeepsInv(s, step);
    }
  }

  lemma StepKeepsInv(s: Shim, l: Label)
    requires Inv(s) && Disciplined(s, l) && Do(s, l).Next?
    ensures Inv(Do(s, l).shim)
  {
    if OfSession(l) { SessionStepKeepsInv(s, l); } else { EnvironmentKeepsInv(s, l); }
  }

  lemma SessionNoFault(s: Shim, l: Label)
    requires OfSession(l) && l.id in s.sessions && Handles(s.sessions[l.id])
    requires !LiftHub(s, H.BeginCall(s.hub, l.id)).Fault? && !LiftHub(s, H.EndCall(s.hub, l.id)).Fault?
    ensures !SessionStep(s, l).Fault?
  {
  }

  lemma HubNoFault(s: Shim, id: nat)
    requires H.Inv(s.hub)
    ensures !LiftHub(s, H.BeginCall(s.hub, id)).Fault? && !LiftHub(s, H.EndCall(s.hub, id)).Fault?
  {
    H.NoFault(s.hub, H.Acquire(id));
    H.NoFault(s.hub, H.Release(id));
  }

  lemma InvHandles(s: Shim, id: nat)
    requires Inv(s) && id in s.sessions
    ensures Handles(s.sessions[id])
  {
    assert SessionOk(s, id);
  }

  // No handle is freed twice, no channel closed twice, and no call touches a
  // released connection.
  lemma NoFault(s: Shim, l: Label)
    requires Inv(s)
    ensures !Do(s, l).Fault?
  {
    if l.HubStep? {
      H.NoFault(s.hub, l.step);
    } else if OfSession(l) && l.id in s.sessions {
      InvHandles(s, l.id);
      HubNoFault(s, l.id);
      SessionNoFault(s, l);
    }
  }

  predicate AllDisciplined(s: Shim, labels: seq<Label>) {
    forall i :: 0 <= i < |labels| ==> Run(s, labels[..i]).Next? ==> Disciplined(Run(s, labels[..i]).shim, labels[i])
  }

  lemma StartInv(pointerErrors: bool)
    ensures Inv(Start(pointerErrors))
  {
    H.StartInv();
  }

  ghost predicate Reachable(s: Shim) {
    exists pointerErrors: bool, labels: seq<Label> ::
      AllDisciplined(Start(pointerErrors), labels) && Run(Start(pointerErrors), labels) == Next(s)
  }

  // So what follows from the invariant holds in every state that a run comes to.
  lemma ReachableInv(s: Shim)
    requires Reachable(s)
    ensures Inv(s)
  {
    var pointerErrors: bool, labels: seq<Label>
      :| AllDisciplined(Start(pointerErrors), labels) && Run(Start(pointerErrors), labels) == Next(s);
    StartInv(pointerErrors);
    RunsAreSafe(Start(pointerErrors), labels);
  }

  // Every interleaving of sessions, guests and connection events is free of
  // faults and keeps the invariant.
  lemma {:induction false} RunsAreSafe(s: Shim, labels: seq<Label>)
    requires Inv(s) && AllDisciplined(s, labels)
    ensures !Run(s, labels).Fault?
    ensures Run(s, labels).Next? ==> Inv(Run(s, labels).shim)
  {
    if labels != [] {
      var n := |labels| - 1;
      assert AllDisciplined(s, labels[..n]) by {
        assert forall i :: 0 <= i < n ==> labels[..n][..i] == labels[..i];
      }
      RunsAreSafe(s, labels[..n]);
      var o := Run(s, labels[..n]);
      if o.Next? {
        assert Disciplined(o.shim, labels[n]);
        NoFault(o.shim, labels[n]);
        if Do(o.shim, labels[n]).Next? { StepKeepsInv(o.shim, labels[n]); }
      }
    }
  }

  lemma {:induction false} RunSnoc(s: Shim, labels: seq<Label>, l: Label)
    ensures Run(s, labels + [l]) == if Run(s, labels).Next? then Do(Run(s, labels).shim, l) else Run(s, labels)
  {
    assert (labels + [l])[..|labels|] == labels;
  }

  lemma {:induction false} RunFront(s: Shim, l: Label, s1: Shim, rest: seq<Label>)
    requires Do(s, l) == Next(s1)
    ensures Run(s, [l] + rest) == Run(s1, rest)
  {
    if rest == [] {
      RunSnoc(s, [], l);
      assert [l] + rest == [] + [l];
    } else {
      var n := |rest| - 1;
      RunFront(s, l, s1, rest[..n]);
      RunSnoc(s, [l] + rest[..n], rest[n]);
      assert [l] + rest == ([l] + rest[..n]) + [rest[n]];
    }
  }

  // ---- What holds in every state that a run comes to ----

  // The table holds exactly the sessions between registration and clean-up.
  lemma RegistryExactly(s: Shim, u: string)
    requires Reachable(s)
    ensures u in s.machines <==> exists id :: id in s.sessions && s.sessions[id].uuid == u && Listed(s.sessions[id])
    ensures u in s.machines ==>
              var id := s.machines[u]; id in s.sessions && s.sessions[id].uuid == u && Listed(s.sessions[id])
  {
    ReachableInv(s);
    if u in s.machines {
      var id: nat := s.machines[u];
      assert SessionOk(s, id);
    }
    if id :| id in s.sessions && s.sessions[id].uuid == u && Listed(s.sessions[id]) {
      assert SessionOk(s, id);
    }
  }

  // A finished session has freed its domain handle and closed its channel
  // exactly once if it was registered, and not at all otherwise: a domain whose
  // status could not be published is stopped but its handle is never freed.
  lemma HandlesFreedExactly(s: Shim, id: nat)
    requires Reachable(s) && id in s.sessions && s.sessions[id].pc.Gone?
    ensures var x := s.sessions[id];
            x.freed == x.closed == (if x.registered then 1 else 0)
  {
    ReachableInv(s);
    assert SessionOk(s, id);
  }

  // The guest's life ends within the session's, unless the activity check failed.
  lemma GuestWithinSession(s: Shim, id: nat)
    requires Reachable(s) && id in s.sessions && s.sessions[id].pc.Gone? && !s.sessions[id].checkFailed
    ensures !Running(s, s.sessions[id].uuid)
  {
    ReachableInv(s);
    assert SessionOk(s, id);
  }

  // When the check does fail, a running guest is left behind with no session.
  lemma FailedCheckLeavesGuest(s: Shim, id: nat)
    requires Reachable(s) && id in s.sessions && s.sessions[id].pc == Checking && Running(s, s.sessions[id].uuid)
    ensures var labels := [Check(id, CheckError), FreeDomain(id), Unregister(id)];
            && Run(s, labels).Next?
            && Running(Run(s, labels).shim, s.sessions[id].uuid)
            && s.sessions[id].uuid !in Run(s, labels).shim.machines
  {
    ReachableInv(s);
    InvHandles(s, id);
    var s1 := CheckStep(s, id, CheckError).shim;
    ExitSteps(s, s1, id);
    RunThree(s, Check(id, CheckError), s1, FreeDomain(id), FreeStep(s1, id).shim, Unregister(id));
  }

  lemma ExitSteps(s: Shim, s1: Shim, id: nat)
    requires id in s.sessions && Handles(s.sessions[id]) && s.sessions[id].pc == Checking
    requires CheckStep(s, id, CheckError) == Next(s1)
    ensures Do(s, Check(id, CheckError)) == Next(s1)
    ensures id in s1.sessions && FreeStep(s1, id).Next? && Do(s1, FreeDomain(id)) == FreeStep(s1, id)
    ensures var s2 := FreeStep(s1, id).shim;
            && id in s2.sessions && Do(s2, Unregister(id)) == UnregisterStep(s2, id)
            && UnregisterStep(s2, id).Next?
            && UnregisterStep(s2, id).shim.machines == s.machines - {s.sessions[id].uuid}
            && UnregisterStep(s2, id).shim.guests == s.guests
  {
  }

  lemma {:induction false} RunThree(s: Shim, a: Label, s1: Shim, b: Label, s2: Shim, c: Label)
    requires Do(s, a) == Next(s1) && Do(s1, b) == Next(s2)
    ensures Run(s, [a, b, c]) == Do(s2, c)
  {
    assert [a, b, c] == [a] + [b, c] && [b, c] == [b] + [c] && [c] == [] + [c];
    RunFront(s, a, s1, [b, c]);
    RunFront(s1, b, s2, [c]);
    RunSnoc(s2, [], c);
  }

  // When the domain is created, every designed secret is defined with its value set.
  lemma SecretsReadyAtCreate(s: Shim, id: nat, ok: bool, i: nat)
    requires Reachable(s) && id in s.sessions && CreateStep(s, id, ok).Next?
    requires i < |s.sessions[id].secrets|
    ensures var k := s.sessions[id].secrets[i]; k in s.secrets && s.secrets[k]
  {
    ReachableInv(s);
    assert SessionOk(s, id);
  }

  // However startMachine ends, all secrets it defined have had their Undefine
  // run, once each and in reverse order, and libvirt keeps a secret exactly when its Undefine failed.
  lemma SecretsUndefinedAtExit(s: Shim, id: nat)
    requires Reachable(s) && id in s.sessions && LeaveStep(s, id).Next?
    ensures var x := s.sessions[id];
            && x.defined <= |x.secrets| && x.ran == x.secrets[..x.defined]
            && forall i :: 0 <= i < |x.secrets| ==> (x.secrets[i] in s.secrets <==> x.secrets[i] in x.stuck)
  {
    ReachableInv(s);
    assert SessionOk(s, id);
    UndefinedAtExit(s, id);
  }

  lemma UndefinedAtExit(s: Shim, id: nat)
    requires id in s.sessions && SessionOk(s, id) && s.sessions[id].defers == []
    ensures var x := s.sessions[id];
            && x.defined <= |x.secrets| && x.ran == x.secrets[..x.defined]
            && forall i :: 0 <= i < |x.secrets| ==> (x.secrets[i] in s.secrets <==> x.secrets[i] in x.stuck)
  {
    var x := s.sessions[id];
    assert [] + x.ran == x.ran;
  }

  // Exactly the sessions between Ref and the deferred Close hold a reference to
  // the connection, and each of them can use it and give it back.
  lemma BorrowedConnection(s: Shim, id: nat)
    requires Reachable(s) && id in s.sessions
    ensures Borrowing(s.sessions[id].pc) <==> id in s.hub.calls
    ensures Borrowing(s.sessions[id].pc) ==>
              H.UseCall(s.hub, id) == H.Next(s.hub) && H.EndCall(s.hub, id).Next?
  {
    ReachableInv(s);
    assert SessionOk(s, id);
    if id in s.hub.calls { H.CallLives(s.hub, id); }
  }

  // ---- The retry loop of stopMachine ----

  predicate Stopping(s: Shim, id: nat) {
    id in s.sessions && (s.sessions[id].pc == Killing || s.sessions[id].pc == KillingGuest)
  }

  // The loop ends only with a stopped guest.
  lemma StopMeansStopped(s: Shim, id: nat, answer: Destroy)
    requires Stopping(s, id) && KillStep(s, id, answer).Next? && !Stopping(KillStep(s, id, answer).shim, id)
    ensures !Running(KillStep(s, id, answer).shim, s.sessions[id].uuid)
  {
  }

  // Against a guest that stopped by itself the loop can end exactly when errors
  // have the dynamic type that the code asserts.
  lemma StopEndsExactly(s: Shim, id: nat)
    requires Stopping(s, id) && !Running(s, s.sessions[id].uuid)
    ensures (exists answer :: var o := KillStep(s, id, answer); o.Next? && !Stopping(o.shim, id)) <==> s.pointerErrors
  {
    var o := KillStep(s, id, NotRunning);
    assert s.pointerErrors ==> o.Next? && !Stopping(o.shim, id);
  }

  predicate StuckStopping(s: Shim, id: nat) {
    Stopping(s, id) && !s.pointerErrors && s.sessions[id].uuid in s.guests && !s.guests[s.sessions[id].uuid]
  }

  lemma StuckOwnStep(s: Shim, l: Label)
    requires OfSession(l) && StuckStopping(s, l.id) && SessionStep(s, l).Next?
    ensures SessionStep(s, l) == Next(s)
  {
  }

  lemma StuckApart(s: Shim, l: Label, id: nat)
    requires Inv(s) && OfSession(l) && l.id in s.sessions && l.id != id
    requires StuckStopping(s, id) && SessionStep(s, l).Next?
    ensures StuckStopping(SessionStep(s, l).shim, id)
  {
    SessionFits(s, l.id, id);
    SessionStepSettles(s, l, id);
    StepKeepsType(s, l);
  }

  lemma StepKeepsType(s: Shim, l: Label)
    requires OfSession(l) && l.id in s.sessions && SessionStep(s, l).Next?
    ensures SessionStep(s, l).shim.pointerErrors == s.pointerErrors
  {
  }

  lemma StuckElsewhere(s: Shim, l: Label, id: nat)
    requires !OfSession(l) && StuckStopping(s, id) && Do(s, l).Next?
    ensures StuckStopping(Do(s, l).shim, id)
  {
  }

  lemma StuckStep(s: Shim, l: Label, id: nat)
    requires Inv(s) && StuckStopping(s, id) && Do(s, l).Next?
    ensures StuckStopping(Do(s, l).shim, id)
  {
    if OfSession(l) {
      if l.id == id { StuckOwnStep(s, l); } else { StuckApart(s, l, id); }
    } else {
      StuckElsewhere(s, l, id);
    }
  }

  // With any other dynamic type such a session never ends, and its guest's
  // name and the connection reference stay taken.
  lemma {:induction false} StopNeverEnds(s: Shim, labels: seq<Label>, id: nat)
    requires Inv(s) && AllDisciplined(s, labels) && StuckStopping(s, id) && Run(s, labels).Next?
    ensures StuckStopping(Run(s, labels).shim, id)
  {
    if labels != [] {
      var n := |labels| - 1;
      assert AllDisciplined(s, labels[..n]) by {
        assert forall i :: 0 <= i < n ==> labels[..n][..i] == labels[..i];
      }
      StopNeverEnds(s, labels[..n], id);
      RunsAreSafe(s, labels[..n]);
      StuckStep(Run(s, labels[..n]).shim, labels[n], id);
    }
  }

  // ---- Every session can come to its end, unless it is stuck there ----

  // The steps that session id has left at most.
  function Rank(x: Session): nat {
    var n := |x.secrets|;
    match x.pc
    case Connecting => 4 * n + 20
    case Looking => 4 * n + 19
    case Defining(i) => if i <= n then 4 * (n - i) + i + 16 else 0
    case Valuing(i) => if i <= n then 4 * (n - i) + i + 15 else 0
    case Publishing => n + 15
    case Killing => n + 14
    case Registering => n + 14
    case Unwinding => |x.defers| + 13
    case Checking => 12
    case Waiting => 11
    case KillingGuest => 10
    case Reporting => 9
    case Freeing => 8
    case Closing => 7
    case Gone => 0
  }

  // A step that brings the session closer to its end and leaves it a way on.
  predicate Advances(s: Shim, o: Outcome, id: nat)
    requires id in s.sessions
  {
    && o.Next? && id in o.shim.sessions && Rank(o.shim.sessions[id]) < Rank(s.sessions[id])
    && !StuckStopping(o.shim, id)
  }

  lemma ConnectAdvances(s: Shim, id: nat)
    requires H.Inv(s.hub) && id in s.sessions && SessionOk(s, id)
    ensures s.sessions[id].pc == Connecting ==> Advances(s, ConnectStep(s, id), id)
    ensures s.sessions[id].pc == Unwinding && s.sessions[id].defers == [] ==> Advances(s, LeaveStep(s, id), id)
  {
    HubNoFault(s, id);
  }

  lemma DefineAdvances(s: Shim, id: nat)
    requires id in s.sessions && SessionOk(s, id)
    ensures var x := s.sessions[id];
            && (x.pc == Looking ==> Advances(s, LookupStep(s, id, false), id))
            && (x.pc.Defining? && x.pc.next < |x.secrets| ==> Advances(s, DefineStep(s, id, true), id))
            && (x.pc.Valuing? ==> Advances(s, SetValueStep(s, id, true), id))
  {
  }

  lemma CreateAdvances(s: Shim, id: nat)
    requires id in s.sessions && SessionOk(s, id)
    ensures var x := s.sessions[id];
            && (x.pc.Defining? && x.pc.next >= |x.secrets| ==> Advances(s, CreateStep(s, id, true), id))
            && (x.pc == Publishing ==> Advances(s, PublishStep(s, id, true), id))
  {
  }

  lemma RegisterAdvances(s: Shim, id: nat)
    requires id in s.sessions && SessionOk(s, id)
    ensures var x := s.sessions[id];
            && (x.pc == Registering ==> Advances(s, RegisterStep(s, id), id))
            && (x.pc == Unwinding && x.defers != [] ==> Advances(s, UndefineStep(s, id, true), id))
  {
    var x := s.sessions[id];
    assert x.pc == Registering ==> |x.defers| <= |x.secrets| by { assert |x.defers + x.ran| == x.defined; }
  }

  lemma KillAdvances(s: Shim, id: nat)
    requires id in s.sessions && SessionOk(s, id) && !StuckStopping(s, id)
    ensures Stopping(s, id) ==>
              Advances(s, KillStep(s, id, if Running(s, s.sessions[id].uuid) then Destroyed else NotRunning), id)
  {
    var x := s.sessions[id];
    assert |x.defers + x.ran| == x.defined;
  }

  lemma WaitAdvances(s: Shim, id: nat)
    requires id in s.sessions && SessionOk(s, id)
    ensures var x := s.sessions[id];
            var running := Running(s, x.uuid);
            && (x.pc == Checking ==> Advances(s, CheckStep(s, id, if running then Active else Inactive), id))
            && (x.pc == Waiting && running ==> Advances(s, EofStep(s, id), id))
            && (x.pc == Waiting && !running ==> Advances(s, NoticeStep(s, id), id))
  {
  }

  lemma EndAdvances(s: Shim, id: nat)
    requires id in s.sessions && SessionOk(s, id)
    ensures var x := s.sessions[id];
            && (x.pc == Reporting ==> Advances(s, ReportStep(s, id), id))
            && (x.pc == Freeing ==> Advances(s, FreeStep(s, id), id))
            && (x.pc == Closing ==> Advances(s, UnregisterStep(s, id), id))
  {
  }

  // What the session does next when nothing fails.
  function NextLabel(s: Shim, id: nat): (l: Label)
    requires id in s.sessions
    ensures OfSession(l) && l.id == id
  {
    var x := s.sessions[id];
    var running := Running(s, x.uuid);
    match x.pc
    case Connecting => Connect(id)
    case Looking => Lookup(id, false)
    case Defining(i) => if i < |x.secrets| then Define(id, true) else Create(id, true)
    case Valuing(_) => SetValue(id, true)
    case Publishing => Publish(id, true)
    case Killing => Kill(id, if running then Destroyed else NotRunning)
    case Registering => Register(id)
    case Unwinding => if x.defers != [] then Undefine(id, true) else Leave(id)
    case Checking => Check(id, if running then Active else Inactive)
    case Waiting => if running then ClientEof(id) else ShutdownNotice(id)
    case KillingGuest => Kill(id, if running then Destroyed else NotRunning)
    case Reporting => Report(id)
    case Freeing => FreeDomain(id)
    case Closing => Unregister(id)
    case Gone => Report(id)
  }

  lemma StartAdvances(s: Shim, id: nat)
    requires H.Inv(s.hub) && id in s.sessions && SessionOk(s, id)
    requires Borrowing(s.sessions[id].pc) || s.sessions[id].pc.Connecting?
    requires !StuckStopping(s, id)
    ensures Advances(s, SessionStep(s, NextLabel(s, id)), id)
  {
    match s.sessions[id].pc {
      case Connecting => ConnectAdvances(s, id);
      case Looking => DefineAdvances(s, id);
      case Defining(_) => DefineAdvances(s, id); CreateAdvances(s, id);
      case Valuing(_) => DefineAdvances(s, id);
      case Publishing => CreateAdvances(s, id);
      case Killing => KillAdvances(s, id);
      case Registering => RegisterAdvances(s, id);
      case Unwinding => RegisterAdvances(s, id); ConnectAdvances(s, id);
    }
  }

  lemma NextAdvances(s: Shim, id: nat)
    requires H.Inv(s.hub) && id in s.sessions && SessionOk(s, id)
    requires !s.sessions[id].pc.Gone? && !StuckStopping(s, id)
    ensures Advances(s, SessionStep(s, NextLabel(s, id)), id)
  {
    if Borrowing(s.sessions[id].pc) || s.sessions[id].pc.Connecting? {
      StartAdvances(s, id);
    } else {
      WaitAdvances(s, id);
      KillAdvances(s, id);
      EndAdvances(s, id);
    }
  }

  // One such step, and what it leads to.
  lemma Advance(s: Shim, id: nat) returns (l: Label, s1: Shim)
    requires Inv(s) && id in s.sessions && !s.sessions[id].pc.Gone? && !StuckStopping(s, id)
    ensures OfSession(l) && l.id == id && Do(s, l) == Next(s1)
    ensures Inv(s1) && id in s1.sessions && !StuckStopping(s1, id)
    ensures Rank(s1.sessions[id]) < Rank(s.sessions[id])
  {
    l := NextLabel(s, id);
    assert SessionOk(s, id);
    NextAdvances(s, id);
    s1 := SessionStep(s, l).shim;
    SessionStepKeepsInv(s, l);
  }

  // Steps of one session only.
  predicate OwnLabels(labels: seq<Label>, id: nat) {
    forall i :: 0 <= i < |labels| ==> OfSession(labels[i]) && labels[i].id == id
  }

  ghost predicate Finishes(s: Shim, labels: seq<Label>, id: nat) {
    && OwnLabels(labels, id) && Run(s, labels).Next?
    && id in Run(s, labels).shim.sessions && Run(s, labels).shim.sessions[id].pc.Gone?
  }

  lemma FinishesFirst(s: Shim, l: Label, s1: Shim, rest: seq<Label>, id: nat)
    requires OfSession(l) && l.id == id && Do(s, l) == Next(s1) && Finishes(s1, rest, id)
    ensures Finishes(s, [l] + rest, id)
  {
    RunFront(s, l, s1, rest);
  }

  lemma {:induction false} SessionFinishes(s: Shim, id: nat) returns (labels: seq<Label>)
    requires Inv(s) && id in s.sessions && !StuckStopping(s, id)
    ensures Finishes(s, labels, id)
    decreases Rank(s.sessions[id])
  {
    if s.sessions[id].pc.Gone? {
      labels := [];
    } else {
      var l, s1 := Advance(s, id);
      var rest := SessionFinishes(s1, id);
      labels := [l] + rest;
      FinishesFirst(s, l, s1, rest, id);
    }
  }

  // By its own steps, whatever the others are doing, a session can come to its
  // end exactly unless it retries to stop a guest that has stopped, against
  // errors of another type than the code asserts.
  lemma SessionFinishesExactly(s: Shim, id: nat)
    requires Inv(s) && id in s.sessions
    ensures (exists labels :: Finishes(s, labels, id)) <==> !StuckStopping(s, id)
  {
    if !StuckStopping(s, id) {
      var labels := SessionFinishes(s, id);
    } else if labels :| Finishes(s, labels, id) {
      StopNeverEnds(s, labels, id);
    }
  }
}
