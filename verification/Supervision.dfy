// Supervision of the libvirt connection: the connector goroutines, the close
// callback, the one-slot event channel, the consumer that keeps the current
// connection, and the calls that borrow it.
module Supervision {
  import opened Common
  import Backoff

  datatype Connector = Trying(attempt: nat) | Announcing(conn: nat)

  datatype Event = Ready(conn: nat) | Failed

  datatype Hub = Hub(
    connectors: seq<Connector>,
    // connections whose close callback is registered and has not fired, and
    // those whose Ready event has been sent
    open: set<nat>,
    announced: set<nat>,
    // callbacks blocked on sending Failed, and lazyUnregister goroutines to run
    callbacks: seq<nat>,
    lazies: seq<nat>,
    channel: seq<Event>,
    // the consumer, and what it has received
    conn: Option<nat>,
    received: seq<Event>,
    // startMachine calls between Ref and the deferred Close
    calls: map<nat, nat>,
    refs: multiset<nat>,
    next: nat)

  // Panic is a Close on a nil connection; BadHandle a Ref, use or Close of a
  // connection that has been released.
  datatype Outcome = Next(hub: Hub) | Disabled | Panic | BadHandle

  datatype Label =
    | ConnectErr(i: nat)
    | ConnectOk(i: nat)
    | SendReady(i: nat)
    | Fire(conn: nat)
    | SendFailed(i: nat)
    | Unregister(i: nat)
    | Consume
    | Acquire(id: nat)
    | Use(id: nat)
    | Release(id: nat)

  const START: Hub := Hub([Trying(0)], {}, {}, [], [], [], None, [], map[], multiset{}, 0)

  function Without<T>(q: seq<T>, i: nat): seq<T>
    requires i < |q|
  {
    q[..i] + q[i + 1..]
  }

  function Close(h: Hub, conn: nat): Outcome {
    if conn !in h.refs then BadHandle else Next(h.(refs := h.refs - multiset{conn}))
  }

  function ConsumeEvent(h: Hub): Outcome {
    if h.channel == [] then Disabled
    else
      var e := h.channel[0];
      var h' := h.(channel := h.channel[1..], received := h.received + [e]);
      match e
      case Ready(conn) => Next(h'.(conn := Some(conn)))
      case Failed => if h.conn.None? then Panic else Close(h'.(conn := None), h.conn.value)
  }

  // The close callback takes a reference for lazyUnregister.
  function FireCallback(h: Hub, conn: nat): Outcome {
    if conn !in h.open then Disabled
    else if conn !in h.refs then BadHandle
    else
      Next(h.(open := h.open - {conn}, refs := h.refs + multiset{conn},
              lazies := h.lazies + [conn], callbacks := h.callbacks + [conn]))
  }

  function FailConnect(h: Hub, i: nat): Outcome {
    if i >= |h.connectors| || !h.connectors[i].Trying? then Disabled
    else Next(h.(connectors := h.connectors[i := Trying(h.connectors[i].attempt + 1)]))
  }

  // A new connection, with its close callback registered.
  function OpenConnect(h: Hub, i: nat): Outcome {
    if i >= |h.connectors| || !h.connectors[i].Trying? then Disabled
    else
      Next(h.(connectors := h.connectors[i := Announcing(h.next)], open := h.open + {h.next},
              refs := h.refs + multiset{h.next}, next := h.next + 1))
  }

  function AnnounceReady(h: Hub, i: nat): Outcome {
    if i >= |h.connectors| || !h.connectors[i].Announcing? || h.channel != [] then Disabled
    else
      var conn := h.connectors[i].conn;
      Next(h.(connectors := Without(h.connectors, i), channel := [Ready(conn)], announced := h.announced + {conn}))
  }

  // The callback reports the failure and starts a new connector.
  function AnnounceFailed(h: Hub, i: nat): Outcome {
    if i >= |h.callbacks| || h.channel != [] then Disabled
    else Next(h.(callbacks := Without(h.callbacks, i), channel := [Failed], connectors := h.connectors + [Trying(0)]))
  }

  function LazyUnregister(h: Hub, i: nat): Outcome {
    if i >= |h.lazies| then Disabled
    else Close(h.(lazies := Without(h.lazies, i)), h.lazies[i])
  }

  function BeginCall(h: Hub, id: nat): Outcome {
    if id in h.calls || h.conn.None? then Disabled
    else if h.conn.value !in h.refs then BadHandle
    else Next(h.(calls := h.calls[id := h.conn.value], refs := h.refs + multiset{h.conn.value}))
  }

  function UseCall(h: Hub, id: nat): Outcome {
    if id !in h.calls then Disabled
    else if h.calls[id] !in h.refs then BadHandle
    else Next(h)
  }

  function EndCall(h: Hub, id: nat): Outcome {
    if id !in h.calls then Disabled
    else Close(h.(calls := h.calls - {id}), h.calls[id])
  }

  function Do(h: Hub, l: Label): Outcome {
    match l
    case ConnectErr(i) => FailConnect(h, i)
    case ConnectOk(i) => OpenConnect(h, i)
    case SendReady(i) => AnnounceReady(h, i)
    case Fire(conn) => FireCallback(h, conn)
    case SendFailed(i) => AnnounceFailed(h, i)
    case Unregister(i) => LazyUnregister(h, i)
    case Consume => ConsumeEvent(h)
    case Acquire(id) => BeginCall(h, id)
    case Use(id) => UseCall(h, id)
    case Release(id) => EndCall(h, id)
  }

  function Run(h: Hub, labels: seq<Label>): Outcome {
    if labels == [] then Next(h)
    else
      var o := Run(h, labels[..|labels| - 1]);
      if o.Next? then Do(o.hub, labels[|labels| - 1]) else o
  }

  // ---- One supervision token ----

  // Connectors at work, live connections, and callbacks in progress.
  function Tokens(h: Hub): nat {
    |h.connectors| + |h.open * h.announced| + |h.callbacks|
  }

  // A callback fires only for a connection whose Ready event has been sent.
  predicate Disciplined(h: Hub, l: Label) {
    l.Fire? ==> l.conn in h.announced
  }

  function Sent(h: Hub): seq<Event> { h.received + h.channel }

  predicate Alternates(events: seq<Event>) {
    forall i :: 0 <= i < |events| ==> (events[i].Ready? <==> i % 2 == 0)
  }

  // Exactly one of: a connector trying, a connector announcing, a live
  // connection, a callback in progress; and the last event fits.
  predicate Token(h: Hub) {
    || (h.callbacks == [] && h.open == {} && |Sent(h)| % 2 == 0 && |h.connectors| == 1 && h.connectors[0].Trying?)
    || (h.callbacks == [] && |Sent(h)| % 2 == 0 && |h.connectors| == 1 && h.connectors[0].Announcing?
        && h.open == {h.connectors[0].conn} && h.connectors[0].conn !in h.announced)
    || (h.callbacks == [] && h.connectors == [] && |Sent(h)| % 2 == 1 && Sent(h)[|Sent(h)| - 1].Ready?
        && h.open == {Sent(h)[|Sent(h)| - 1].conn} && Sent(h)[|Sent(h)| - 1].conn in h.announced)
    || (h.connectors == [] && h.open == {} && |Sent(h)| % 2 == 1 && |h.callbacks| == 1)
  }

  // The consumer holds a connection exactly while its last event was Ready.
  predicate Consumer(h: Hub) {
    && |h.channel| <= 1
    && Alternates(Sent(h))
    && (h.conn.Some? <==> h.received != [] && h.received[|h.received| - 1].Ready?)
    && (h.conn.Some? ==> h.received[|h.received| - 1] == Ready(h.conn.value))
  }

  function One(b: bool): nat { if b then 1 else 0 }

  function ConnectorHolds(x: Connector, c: nat): nat { One(x == Announcing(c)) }

  function EventHolds(e: Event, c: nat): nat { One(e == Ready(c)) }

  function Holds(x: nat, c: nat): nat { One(x == c) }

  // The announcing connector, the channel, the consumer, the unregister
  // goroutines, and the calls in flight.
  ghost function Holders(h: Hub, c: nat): nat {
    Count(ConnectorHolds, c, h.connectors) + Count(EventHolds, c, h.channel) + One(h.conn == Some(c))
    + Count(Holds, c, h.lazies) + CountMap(Holds, c, h.calls)
  }

  predicate Below(h: Hub) {
    (forall c :: c in h.open ==> c < h.next) && (forall c :: c in h.announced ==> c < h.next)
  }

  ghost predicate Inv(h: Hub) {
    Shaped(h) && forall c: nat :: Exact(h, c)
  }

  lemma StartInv()
    ensures Inv(START)
  {
    assert Count(ConnectorHolds, 0, [Trying(0)]) == 0;
    forall c: nat ensures Exact(START, c) {
      CountZero(ConnectorHolds, c, START.connectors);
    }
  }

  lemma CountWithout<T>(f: (T, nat) -> nat, c: nat, q: seq<T>, i: nat)
    requires i < |q|
    ensures Count(f, c, Without(q, i)) + f(q[i], c) == Count(f, c, q)
  {
    assert q == q[..i] + ([q[i]] + q[i + 1..]);
    CountAppend(f, c, q[..i], [q[i]] + q[i + 1..]);
    CountAppend(f, c, q[..i], q[i + 1..]);
  }

  // Each step changes a connection's count and its holders alike.
  ghost predicate Exact(h: Hub, c: nat) {
    h.refs[c] == Holders(h, c)
  }

  ghost predicate Keeps(o: Outcome, c: nat) {
    o.Next? ==> Exact(o.hub, c)
  }

  lemma ConnectorHolders(h: Hub, i: nat, c: nat)
    requires Exact(h, c)
    ensures Keeps(FailConnect(h, i), c) && Keeps(OpenConnect(h, i), c)
  {
    if i < |h.connectors| {
      CountUpdate(ConnectorHolds, c, h.connectors, i, Trying(0));
      if h.connectors[i].Trying? {
        CountUpdate(ConnectorHolds, c, h.connectors, i, Trying(h.connectors[i].attempt + 1));
        CountUpdate(ConnectorHolds, c, h.connectors, i, Announcing(h.next));
      }
    }
  }

  lemma ReadyHolders(h: Hub, i: nat, c: nat)
    requires Exact(h, c)
    ensures Keeps(AnnounceReady(h, i), c)
  {
    if i < |h.connectors| && h.connectors[i].Announcing? {
      CountWithout(ConnectorHolds, c, h.connectors, i);
      CountOne(EventHolds, c, Ready(h.connectors[i].conn));
    }
  }

  lemma FailedHolders(h: Hub, i: nat, c: nat)
    requires Exact(h, c)
    ensures Keeps(AnnounceFailed(h, i), c)
  {
    CountSnoc(ConnectorHolds, c, h.connectors, Trying(0));
    CountOne(EventHolds, c, Failed);
  }

  lemma LazyHolders(h: Hub, i: nat, conn: nat, c: nat)
    requires Exact(h, c)
    ensures Keeps(FireCallback(h, conn), c) && Keeps(LazyUnregister(h, i), c)
  {
    CountSnoc(Holds, c, h.lazies, conn);
    if i < |h.lazies| { CountWithout(Holds, c, h.lazies, i); }
  }

  lemma ConsumeHolders(h: Hub, c: nat)
    requires Exact(h, c) && |h.channel| <= 1
    requires h.channel != [] && h.channel[0].Ready? ==> h.conn.None?
    ensures Keeps(ConsumeEvent(h), c)
  {
    if h.channel != [] { CountOne(EventHolds, c, h.channel[0]); }
  }

  lemma CallHolders(h: Hub, id: nat, c: nat)
    requires Exact(h, c)
    ensures Keeps(BeginCall(h, id), c) && Keeps(EndCall(h, id), c)
  {
    if h.conn.Some? { CountMapUpdate(Holds, c, h.calls, id, h.conn.value); }
    if id in h.calls { CountMapRemove(Holds, c, h.calls, id); }
  }

  lemma HoldersStep(h: Hub, l: Label, c: nat)
    requires Exact(h, c) && |h.channel| <= 1
    requires h.channel != [] && h.channel[0].Ready? ==> h.conn.None?
    ensures Keeps(Do(h, l), c)
  {
    match l {
      case ConnectErr(i) => ConnectorHolders(h, i, c);
      case ConnectOk(i) => ConnectorHolders(h, i, c);
      case SendReady(i) => ReadyHolders(h, i, c);
      case Fire(conn) => LazyHolders(h, 0, conn, c);
      case SendFailed(i) => FailedHolders(h, i, c);
      case Unregister(i) => LazyHolders(h, i, 0, c);
      case Consume => ConsumeHolders(h, c);
      case Acquire(id) => CallHolders(h, id, c);
      case Use(id) =>
      case Release(id) => CallHolders(h, id, c);
    }
  }

  lemma AlternatesSnoc(events: seq<Event>, e: Event)
    requires Alternates(events) && (e.Ready? <==> |events| % 2 == 0)
    ensures Alternates(events + [e])
  {
  }

  // The next event always fits the consumer's state.
  lemma ConsumeFits(h: Hub)
    requires Consumer(h) && h.channel != []
    ensures h.channel[0].Ready? <==> h.conn.None?
    ensures h.received + [h.channel[0]] == Sent(h)
  {
    var n := |h.received|;
    assert Sent(h)[n] == h.channel[0];
    if n > 0 { assert Sent(h)[n - 1] == h.received[n - 1]; }
  }

  // Steps that send or receive nothing.
  lemma QuietStep(h: Hub, h': Hub)
    requires Consumer(h) && h'.channel == h.channel && h'.received == h.received && h'.conn == h.conn
    ensures Consumer(h') && Sent(h') == Sent(h)
  {
  }

  lemma SendStep(h: Hub, h': Hub, e: Event)
    requires Consumer(h) && h.channel == [] && h'.channel == [e] && h'.received == h.received && h'.conn == h.conn
    requires e.Ready? <==> |Sent(h)| % 2 == 0
    ensures Consumer(h') && Sent(h') == Sent(h) + [e]
  {
    assert Sent(h) == h.received;
    AlternatesSnoc(h.received, e);
  }

  lemma ConsumeStep(h: Hub)
    requires Consumer(h) && ConsumeEvent(h).Next?
    ensures Consumer(ConsumeEvent(h).hub) && Sent(ConsumeEvent(h).hub) == Sent(h)
  {
    ConsumeFits(h);
    var h' := ConsumeEvent(h).hub;
    assert h'.received == Sent(h) && h'.channel == [];
    assert Sent(h') == h'.received;
  }

  predicate Shaped(h: Hub) {
    Token(h) && Consumer(h) && Below(h)
  }

  predicate StaysShaped(o: Outcome) {
    o.Next? ==> Shaped(o.hub)
  }

  lemma ConnectorShape(h: Hub, i: nat)
    requires Shaped(h)
    ensures StaysShaped(FailConnect(h, i)) && StaysShaped(OpenConnect(h, i))
  {
    if FailConnect(h, i).Next? {
      QuietStep(h, FailConnect(h, i).hub);
      QuietStep(h, OpenConnect(h, i).hub);
    }
  }

  lemma ReadyShape(h: Hub, i: nat)
    requires Shaped(h)
    ensures StaysShaped(AnnounceReady(h, i))
  {
    if AnnounceReady(h, i).Next? { SendStep(h, AnnounceReady(h, i).hub, Ready(h.connectors[i].conn)); }
  }

  lemma FailedShape(h: Hub, i: nat)
    requires Shaped(h)
    ensures StaysShaped(AnnounceFailed(h, i))
  {
    if AnnounceFailed(h, i).Next? { SendStep(h, AnnounceFailed(h, i).hub, Failed); }
  }

  lemma FireShape(h: Hub, conn: nat)
    requires Shaped(h) && conn in h.announced
    ensures StaysShaped(FireCallback(h, conn))
  {
    if FireCallback(h, conn).Next? { QuietStep(h, FireCallback(h, conn).hub); }
  }

  lemma ConsumeShape(h: Hub)
    requires Shaped(h)
    ensures StaysShaped(ConsumeEvent(h))
  {
    if ConsumeEvent(h).Next? { ConsumeStep(h); }
  }

  // Steps that change only reference counts, calls and goroutines to run.
  lemma OtherShape(h: Hub, h': Hub)
    requires Shaped(h) && h' == h.(refs := h'.refs, calls := h'.calls, lazies := h'.lazies)
    ensures Shaped(h')
  {
    QuietStep(h, h');
  }

  lemma TokenStep(h: Hub, l: Label)
    requires Shaped(h) && Do(h, l).Next? && Disciplined(h, l)
    ensures Shaped(Do(h, l).hub)
  {
    match l {
      case ConnectErr(i) => ConnectorShape(h, i);
      case ConnectOk(i) => ConnectorShape(h, i);
      case SendReady(i) => ReadyShape(h, i);
      case SendFailed(i) => FailedShape(h, i);
      case Fire(conn) => FireShape(h, conn);
      case Consume => ConsumeShape(h);
      case Unregister(i) => OtherShape(h, LazyUnregister(h, i).hub);
      case Acquire(id) => OtherShape(h, BeginCall(h, id).hub);
      case Use(id) =>
      case Release(id) => OtherShape(h, EndCall(h, id).hub);
    }
  }

  lemma StepKeepsInv(h: Hub, l: Label)
    requires Inv(h) && Do(h, l).Next? && Disciplined(h, l)
    ensures Inv(Do(h, l).hub)
  {
    TokenStep(h, l);
    if h.channel != [] { ConsumeFits(h); }
    forall c: nat ensures Exact(Do(h, l).hub, c) {
      assert Exact(h, c);
      HoldersStep(h, l, c);
    }
  }

  // Only the calls themselves come and go as calls.
  lemma CallsStay(h: Hub, l: Label)
    requires !l.Acquire? && !l.Release? && Do(h, l).Next?
    ensures Do(h, l).hub.calls == h.calls
  {
  }

  // ---- The main results ----

  lemma TokensAreOne(h: Hub)
    requires Token(h)
    ensures Tokens(h) == 1
  {
    if h.connectors == [] && h.callbacks == [] {
      assert h.open * h.announced == h.open;
    } else {
      assert h.open * h.announced == {};
    }
  }

  // The number of tokens stays one exactly when no callback fires before its
  // connection's Ready event has been sent.
  lemma OneTokenExactly(h: Hub, l: Label)
    requires Inv(h) && Do(h, l).Next?
    ensures Tokens(Do(h, l).hub) == 1 <==> Disciplined(h, l)
  {
    if Disciplined(h, l) {
      TokenStep(h, l);
      TokensAreOne(Do(h, l).hub);
    }
  }

  // No step meets a nil connection, and none touches a released one.
  lemma NoFault(h: Hub, l: Label)
    requires Inv(h)
    ensures !Do(h, l).Panic? && !Do(h, l).BadHandle?
  {
    match l {
      case Fire(c) => if c in h.open { OpenIsHeld(h, c); }
      case Unregister(i) =>
        if i < |h.lazies| {
          assert Exact(h, h.lazies[i]);
          CountAt(Holds, h.lazies[i], h.lazies, i);
        }
      case Consume => if h.channel != [] { ConsumeFits(h); ConsumerLives(h); }
      case Acquire(id) => ConsumerLives(h);
      case Use(id) => if id in h.calls { CallLives(h, id); }
      case Release(id) => if id in h.calls { CallLives(h, id); }
      case _ =>
    }
  }

  lemma ConsumerLives(h: Hub)
    requires Inv(h)
    ensures h.conn.Some? ==> h.conn.value in h.refs
  {
    if h.conn.Some? { assert Exact(h, h.conn.value); }
  }

  lemma CallLives(h: Hub, id: nat)
    requires Inv(h) && id in h.calls
    ensures h.calls[id] in h.refs
  {
    var c: nat := h.calls[id];
    assert Exact(h, c);
    CountMapRemove(Holds, c, h.calls, id);
  }

  lemma OpenIsHeld(h: Hub, c: nat)
    requires Inv(h) && c in h.open
    ensures c in h.refs
  {
    assert Exact(h, c);
    if h.connectors != [] {
      CountAt(ConnectorHolds, c, h.connectors, 0);
    } else {
      var n := |Sent(h)| - 1;
      assert Sent(h)[n] == Ready(c);
      if h.channel != [] {
        assert h.channel[0] == Sent(h)[n];
        CountAt(EventHolds, c, h.channel, 0);
      } else {
        assert Sent(h) == h.received;
      }
    }
  }

  predicate AllDisciplined(h: Hub, labels: seq<Label>) {
    forall i :: 0 <= i < |labels| ==> Run(h, labels[..i]).Next? ==> Disciplined(Run(h, labels[..i]).hub, labels[i])
  }

  // Over every run in which callbacks fire only after Ready was sent: one token,
  // alternating events, a consumer that holds a connection exactly while its
  // last event was Ready, exact counts, and no fault.
  lemma {:induction false} SupervisedRuns(h: Hub, labels: seq<Label>)
    requires Inv(h) && AllDisciplined(h, labels)
    ensures !Run(h, labels).Panic? && !Run(h, labels).BadHandle?
    ensures Run(h, labels).Next? ==>
              var h' := Run(h, labels).hub;
              && Inv(h') && Tokens(h') == 1 && Alternates(h'.received)
              && (h'.conn.Some? <==> h'.received != [] && h'.received[|h'.received| - 1].Ready?)
  {
    if labels == [] {
      TokensAreOne(h);
      ReceivedAlternate(h);
    } else {
      var n := |labels| - 1;
      assert AllDisciplined(h, labels[..n]) by {
        assert forall i :: 0 <= i < n ==> labels[..n][..i] == labels[..i];
      }
      SupervisedRuns(h, labels[..n]);
      var o := Run(h, labels[..n]);
      if o.Next? {
        NoFault(o.hub, labels[n]);
        assert Disciplined(o.hub, labels[n]);
        if Do(o.hub, labels[n]).Next? {
          StepKeepsInv(o.hub, labels[n]);
          TokensAreOne(Do(o.hub, labels[n]).hub);
          ReceivedAlternate(Do(o.hub, labels[n]).hub);
        }
      }
    }
  }

  lemma ReceivedAlternate(h: Hub)
    requires Consumer(h)
    ensures Alternates(h.received)
  {
    assert forall i :: 0 <= i < |h.received| ==> h.received[i] == Sent(h)[i];
  }

  // A call in flight keeps its connection alive whatever happens around it.
  lemma CallsKeepTheirConnection(h: Hub, labels: seq<Label>, id: nat)
    requires Inv(h) && AllDisciplined(h, labels) && Run(h, labels).Next?
    requires id in Run(h, labels).hub.calls
    ensures var h' := Run(h, labels).hub;
            && h'.refs[h'.calls[id]] >= 1
            && UseCall(h', id) == Next(h') && EndCall(h', id).Next?
  {
    SupervisedRuns(h, labels);
    CallLives(Run(h, labels).hub, id);
  }

  // ---- The retries of a connector ----

  // The failed attempts since the connection was last lost, or since the start.
  function Failures(labels: seq<Label>): nat {
    if labels == [] then 0
    else
      match labels[|labels| - 1]
      case ConnectErr(_) => Failures(labels[..|labels| - 1]) + 1
      case SendFailed(_) => 0
      case _ => Failures(labels[..|labels| - 1])
  }

  predicate Attempts(h: Hub, n: nat) {
    forall i :: 0 <= i < |h.connectors| && h.connectors[i].Trying? ==> h.connectors[i].attempt == n
  }

  lemma AttemptsStep(h: Hub, l: Label, n: nat)
    requires Token(h) && Attempts(h, n) && Do(h, l).Next?
    ensures Attempts(Do(h, l).hub, match l case ConnectErr(_) => n + 1 case SendFailed(_) => 0 case _ => n)
  {
  }

  // Over every disciplined run from the start a connector that tries has failed
  // exactly that often since, so its next delay is what the policy says for the
  // time it has waited.
  lemma {:induction false} RetriesFollowThePolicy(labels: seq<Label>)
    requires AllDisciplined(START, labels) && Run(START, labels).Next?
    ensures Attempts(Run(START, labels).hub, Failures(labels))
    ensures Backoff.RECONNECT_DELAY[Backoff.Min(Failures(labels), |Backoff.RECONNECT_DELAY| - 1)]
         == Backoff.PolicyDelay(Backoff.TotalWait(Failures(labels)))
  {
    Backoff.TableEntry(Failures(labels));
    if labels != [] {
      var n := |labels| - 1;
      assert AllDisciplined(START, labels[..n]) by {
        assert forall i :: 0 <= i < n ==> labels[..n][..i] == labels[..i];
      }
      RetriesFollowThePolicy(labels[..n]);
      StartInv();
      SupervisedRuns(START, labels[..n]);
      AttemptsStep(Run(START, labels[..n]).hub, labels[n], Failures(labels[..n]));
    }
  }

  // ---- A callback before its connection is announced ----

  lemma RunSnoc(h: Hub, labels: seq<Label>, l: Label)
    ensures Run(h, labels + [l]) == if Run(h, labels).Next? then Do(Run(h, labels).hub, l) else Run(h, labels)
  {
    assert (labels + [l])[..|labels|] == labels;
  }

  lemma {:induction false} RunFront(h: Hub, l: Label, h1: Hub, rest: seq<Label>)
    requires Do(h, l) == Next(h1)
    ensures Run(h, [l] + rest) == Run(h1, rest)
  {
    if rest == [] {
      RunSnoc(h, [], l);
      assert [l] + rest == [] + [l];
    } else {
      var n := |rest| - 1;
      RunFront(h, l, h1, rest[..n]);
      RunSnoc(h, [l] + rest[..n], rest[n]);
      assert [l] + rest == ([l] + rest[..n]) + [rest[n]];
    }
  }

  // The states in which a connection is open but not announced: its connector is
  // about to announce it, and the last event, if any, was Failed.
  lemma UnannouncedState(h: Hub, c: nat)
    requires Inv(h) && c in h.open && c !in h.announced
    ensures h.callbacks == [] && h.connectors == [Announcing(c)] && |Sent(h)| % 2 == 0
    ensures h.channel == [] ==> h.conn.None?
    ensures h.channel != [] ==> h.channel == [Failed] && h.conn.Some?
  {
    assert h.connectors == [Announcing(c)];
    if h.channel == [] {
      assert Sent(h) == h.received;
    } else {
      assert h.channel == [h.channel[0]];
      assert Sent(h)[|Sent(h)| - 1] == h.channel[0];
      ConsumeFits(h);
    }
  }

  // A callback in progress, no connection at the consumer, nothing under way.
  predicate Doomed(h: Hub) {
    h.callbacks != [] && h.channel == [] && h.conn.None?
  }

  lemma DoomedPanics(h: Hub)
    requires Doomed(h)
    ensures Run(h, [SendFailed(0)] + [Consume]).Panic?
  {
    var h1 := AnnounceFailed(h, 0).hub;
    RunFront(h, SendFailed(0), h1, [Consume]);
    RunSnoc(h1, [], Consume);
    assert [] + [Consume] == [Consume];
  }

  // The steps, none of them a callback, after which the consumer closes nil.
  function Doom(h: Hub): seq<Label> {
    if h.channel == [] then [SendFailed(0)] + [Consume] else [Consume] + ([SendFailed(0)] + [Consume])
  }

  lemma FiredDoom(h: Hub, c: nat)
    requires Inv(h) && c in h.open && c !in h.announced
    ensures FireCallback(h, c).Next? && Run(FireCallback(h, c).hub, Doom(h)).Panic?
  {
    OpenIsHeld(h, c);
    UnannouncedState(h, c);
    var h1 := FireCallback(h, c).hub;
    if h.channel == [] {
      DoomedPanics(h1);
    } else {
      ConsumerLives(h);
      var h2 := ConsumeEvent(h1).hub;
      assert Doomed(h2);
      DoomedPanics(h2);
      RunFront(h1, Consume, h2, [SendFailed(0)] + [Consume]);
    }
  }

  // From every state in which a connection is open but not announced, its
  // callback leads the consumer to close nil.
  lemma EarlyCallbackPanics(h: Hub, c: nat)
    requires Inv(h) && c in h.open && c !in h.announced
    ensures Run(h, [Fire(c)] + Doom(h)).Panic?
  {
    FiredDoom(h, c);
    RunFront(h, Fire(c), FireCallback(h, c).hub, Doom(h));
  }

  lemma DoomDisciplined(h: Hub, h1: Hub)
    ensures AllDisciplined(h1, Doom(h))
  {
    var labels := Doom(h);
    forall i | 0 <= i < |labels| ensures !labels[i].Fire? {
      assert labels[i] in [Consume, SendFailed(0)];
    }
  }

  // From every state with an open connection: its callback may fire without the
  // consumer ever meeting nil, or anything a released connection, whatever
  // follows in order, exactly if the connection has been announced. Otherwise
  // two or three steps lead to a Close of nil.
  lemma FiringSafeExactly(h: Hub, c: nat)
    requires Inv(h) && c in h.open
    ensures FireCallback(h, c).Next?
    ensures (forall labels :: AllDisciplined(FireCallback(h, c).hub, labels) ==>
               !Run(FireCallback(h, c).hub, labels).Panic? && !Run(FireCallback(h, c).hub, labels).BadHandle?)
       <==> c in h.announced
  {
    OpenIsHeld(h, c);
    var h1 := FireCallback(h, c).hub;
    if c in h.announced {
      StepKeepsInv(h, Fire(c));
      forall labels | AllDisciplined(h1, labels) ensures !Run(h1, labels).Panic? && !Run(h1, labels).BadHandle? {
        SupervisedRuns(h1, labels);
      }
    } else {
      FiredDoom(h, c);
      DoomDisciplined(h, h1);
    }
  }
}
