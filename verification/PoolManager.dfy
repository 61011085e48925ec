// The pool manager: find, start or create the repository's storage pool on a
// connection, and send the outcome to the service.
module PoolManager {
  import opened Common
  import Naming
  import Text
  import Sessions

  datatype Pool = Pool(target: string, active: bool)

  // What libvirt knows, the references to pool handles given out by it, and the
  // references to the connection.
  datatype Libvirt = Libvirt(
    pools: map<string, Pool>,
    refs: multiset<nat>,
    next: nat,
    connRefs: int,
    // errors carry the pointer type rather than the value type
    pointerErrors: bool)

  // Which calls succeed, as far as libvirt's state lets them.
  datatype Answers = Answers(lookup: bool, create: bool, check: bool, start: bool)

  function Hand(lib: Libvirt): Libvirt {
    lib.(refs := lib.refs + multiset{lib.next}, next := lib.next + 1)
  }

  // The state after one load, and what was sent.
  datatype Loaded = Loaded(lib: Libvirt, sent: Option<nat>)

  // Libvirt refuses a second pool of the same name.
  function CreateSpec(lib: Libvirt, name: string, path: string, a: Answers): Loaded {
    var escaped := Naming.Escape(name);
    if a.create && escaped !in lib.pools then
      var pool := Pool(Naming.PoolTarget(path, name), true);
      Loaded(Hand(lib.(pools := lib.pools[escaped := pool])), Some(lib.next))
    else Loaded(lib, None)
  }

  function LoadSpec(lib: Libvirt, name: string, path: string, a: Answers): Loaded {
    if !a.lookup then Loaded(lib, None)
    else if name !in lib.pools then
      if lib.pointerErrors then Loaded(lib, None) else CreateSpec(lib, name, path, a)
    else
      var pool := lib.pools[name];
      if !a.check || (!pool.active && !a.start) then Loaded(lib.(next := lib.next + 1), None)
      else Loaded(Hand(lib).(pools := lib.pools[name := pool.(active := true)]), Some(lib.next))
  }

  // Loads one after the other, with what they sent.
  function LoadAll(lib: Libvirt, name: string, path: string, answers: seq<Answers>): (Libvirt, seq<Option<nat>>) {
    if answers == [] then (lib, [])
    else
      var (before, sent) := LoadAll(lib, name, path, answers[..|answers| - 1]);
      var r := LoadSpec(before, name, path, answers[|answers| - 1]);
      (r.lib, sent + [r.sent])
  }

  // The pool is there under its own name, can be checked, and runs or can be started.
  predicate Finds(lib: Libvirt, name: string, a: Answers) {
    a.lookup && name in lib.pools && a.check && (lib.pools[name].active || a.start)
  }

  // The lookup reports the pool as missing, in an error of the type that the code
  // asserts, and libvirt creates it under the escaped name.
  predicate Creates(lib: Libvirt, name: string, a: Answers) {
    && a.lookup && name !in lib.pools && !lib.pointerErrors
    && a.create && Naming.Escape(name) !in lib.pools
  }

  predicate Sound(lib: Libvirt) {
    forall h :: h in lib.refs ==> h < lib.next
  }

  class Manager {
    const name: string
    const path: string
    var lib: Libvirt
    // everything sent on Notify
    var notified: seq<Option<nat>>

    constructor (name: string, path: string, lib: Libvirt)
      ensures this.name == name && this.path == path && this.lib == lib && notified == []
    {
      this.name, this.path, this.lib, notified := name, path, lib, [];
    }

    method FreePool(h: nat)
      requires h in lib.refs
      modifies this`lib
      ensures lib == old(lib).(refs := old(lib.refs) - multiset{h})
    {
      lib := lib.(refs := lib.refs - multiset{h});
    }

    method LookupStoragePoolByName(n: string, a: Answers) returns (pool: Option<nat>, missing: bool)
      modifies this`lib
      ensures pool.Some? <==> a.lookup && n in lib.pools
      ensures pool.Some? ==> pool.value == old(lib.next) && lib == Hand(old(lib))
      ensures pool.None? ==> lib == old(lib) && (missing <==> a.lookup)
    {
      pool, missing := None, a.lookup;
      if a.lookup && n in lib.pools {
        pool, lib := Some(lib.next), Hand(lib);
      }
    }

    method Create(a: Answers) returns (pool: Option<nat>)
      modifies this`lib
      ensures CreateSpec(old(lib), name, path, a) == Loaded(lib, pool)
    {
      var escaped := Naming.Escape(name);
      var target := Naming.PathJoin([path, escaped]);
      if !a.create || escaped in lib.pools {
        return None;
      }
      pool := Some(lib.next);
      lib := Hand(lib.(pools := lib.pools[escaped := Pool(target, true)]));
    }

    // The branch for a pool that was found: start it, or free it again.
    method Activate(h: nat, a: Answers) returns (pool: Option<nat>)
      requires h in lib.refs && name in lib.pools
      modifies this`lib
      ensures pool == if a.check && (old(lib).pools[name].active || a.start) then Some(h) else None
      ensures lib == if pool.None? then old(lib).(refs := old(lib).refs - multiset{h})
                     else old(lib).(pools := old(lib).pools[name := old(lib).pools[name].(active := true)])
    {
      pool := Some(h);
      if !a.check {
        FreePool(h);
        return None;
      }
      if !lib.pools[name].active {
        if !a.start {
          FreePool(h);
          return None;
        }
        lib := lib.(pools := lib.pools[name := lib.pools[name].(active := true)]);
      } else {
        assert lib.pools[name := lib.pools[name].(active := true)] == lib.pools;
      }
    }

    // The lookup and what follows from it. A missing pool is created only when
    // the error has the value type that the code asserts.
    method Obtain(a: Answers) returns (pool: Option<nat>)
      requires Sound(lib)
      modifies this`lib
      ensures LoadSpec(old(lib), name, path, a) == Loaded(lib, pool)
    {
      var missing;
      pool, missing := LookupStoragePoolByName(name, a);
      if pool.None? {
        if missing && !lib.pointerErrors {
          pool := Create(a);
        }
      } else {
        pool := Activate(pool.value, a);
        assert old(lib.refs) + multiset{old(lib.next)} - multiset{old(lib.next)} == old(lib.refs);
      }
    }

    // The goroutine: it owns a reference to the connection, gives it back on
    // every path, and sends exactly once: a pool exactly if it found or created
    // one. It adds a pool to libvirt's exactly if it creates one.
    method LoadPool(a: Answers)
      requires Sound(lib) && lib.connRefs > 0
      modifies this
      ensures lib == LoadSpec(old(lib), name, path, a).lib.(connRefs := old(lib.connRefs) - 1)
      ensures notified == old(notified) + [LoadSpec(old(lib), name, path, a).sent]
      ensures notified[|old(notified)|].Some? <==> Finds(old(lib), name, a) || Creates(old(lib), name, a)
      ensures lib.pools.Keys == old(lib.pools.Keys) + (if Creates(old(lib), name, a) then {Naming.Escape(name)} else {})
    {
      var pool := Obtain(a);
      lib := lib.(connRefs := lib.connRefs - 1);
      notified := notified + [pool];
      DeliversExactly(old(lib), name, path, a);
      LoadKeys(old(lib), name, path, a);
    }

    // Load takes the goroutine's reference; here the goroutine runs at once.
    method Load(a: Answers)
      requires Sound(lib) && lib.connRefs > 0
      modifies this
      ensures lib == LoadSpec(old(lib), name, path, a).lib && lib.connRefs == old(lib.connRefs)
      ensures notified == old(notified) + [LoadSpec(old(lib), name, path, a).sent]
    {
      lib := lib.(connRefs := lib.connRefs + 1);
      LoadPool(a);
    }
  }

  // A load sends either nothing it keeps a reference to, or a new handle with
  // exactly one reference; it leaves every other reference alone.
  lemma OneReference(lib: Libvirt, name: string, path: string, a: Answers)
    requires Sound(lib)
    ensures var r := LoadSpec(lib, name, path, a);
            && Sound(r.lib) && r.lib.connRefs == lib.connRefs
            && r.lib.refs == lib.refs + Bag(r.sent)
            && (r.sent.Some? ==> r.sent.value !in lib.refs && r.lib.refs[r.sent.value] == 1)
  {
  }

  // The references over a whole history of loads are those sent, each once.
  lemma {:induction false} ReferencesOverLoads(lib: Libvirt, name: string, path: string, answers: seq<Answers>, h: nat)
    requires Sound(lib)
    ensures var (lib', sent) := LoadAll(lib, name, path, answers);
            && Sound(lib') && |sent| == |answers| && lib'.connRefs == lib.connRefs
            && (h >= lib.next ==> lib'.refs[h] == (if Some(h) in sent then 1 else 0))
            && (h < lib.next ==> lib'.refs[h] == lib.refs[h])
            && lib'.next >= lib.next
            && (forall i :: 0 <= i < |sent| && sent[i].Some? ==> lib.next <= sent[i].value < lib'.next)
  {
    if answers != [] {
      var n := |answers| - 1;
      ReferencesOverLoads(lib, name, path, answers[..n], h);
      OneReference(LoadAll(lib, name, path, answers[..n]).0, name, path, answers[n]);
    }
  }

  // The answers with which nothing fails that libvirt's state allows.
  const WILLING := Answers(true, true, true, true)

  // Whatever the answers: a pool is delivered exactly if it is found or created,
  // and the pools are those from before, with the created one running at its
  // target, or the found one running. A failed lookup changes nothing.
  lemma DeliversExactly(lib: Libvirt, name: string, path: string, a: Answers)
    ensures var r := LoadSpec(lib, name, path, a);
            && (r.sent.Some? <==> Finds(lib, name, a) || Creates(lib, name, a))
            && (r.lib.pools.Keys != lib.pools.Keys <==> Creates(lib, name, a))
            && r.lib.pools == (if Creates(lib, name, a) then
                                 lib.pools[Naming.Escape(name) := Pool(Naming.PoolTarget(path, name), true)]
                               else if Finds(lib, name, a) then lib.pools[name := lib.pools[name].(active := true)]
                               else lib.pools)
            && (!a.lookup ==> r == Loaded(lib, None))
  {
    if Creates(lib, name, a) {
      assert Naming.Escape(name) in LoadSpec(lib, name, path, a).lib.pools.Keys;
    }
  }

  // The state before load i of a history.
  function Before(lib: Libvirt, name: string, path: string, answers: seq<Answers>, i: nat): Libvirt
    requires i <= |answers|
  {
    LoadAll(lib, name, path, answers[..i]).0
  }

  ghost predicate CreatesBy(lib: Libvirt, name: string, path: string, answers: seq<Answers>) {
    exists i :: 0 <= i < |answers| && Creates(Before(lib, name, path, answers, i), name, answers[i])
  }

  lemma {:induction false} BeforeFront(lib: Libvirt, name: string, path: string, answers: seq<Answers>)
    requires answers != []
    ensures var n := |answers| - 1;
            && (forall i :: 0 <= i < n ==>
                  Before(lib, name, path, answers[..n], i) == Before(lib, name, path, answers, i))
            && (CreatesBy(lib, name, path, answers)
                <==> || CreatesBy(lib, name, path, answers[..n])
                     || Creates(Before(lib, name, path, answers, n), name, answers[n]))
  {
    var n := |answers| - 1;
    forall i | 0 <= i < n ensures Before(lib, name, path, answers[..n], i) == Before(lib, name, path, answers, i) {
      assert answers[..n][..i] == answers[..i];
    }
    if i :| 0 <= i < n && Creates(Before(lib, name, path, answers[..n], i), name, answers[..n][i]) {
      assert Creates(Before(lib, name, path, answers, i), name, answers[i]);
    }
    if i :| 0 <= i < |answers| && Creates(Before(lib, name, path, answers, i), name, answers[i]) {
      if i < n { assert Creates(Before(lib, name, path, answers[..n], i), name, answers[..n][i]); }
    }
  }

  // Over any history of loads each delivers exactly under the condition of its own.
  lemma {:induction false} DeliveriesOverLoads(lib: Libvirt, name: string, path: string, answers: seq<Answers>, i: nat)
    requires i < |answers|
    ensures var sent := LoadAll(lib, name, path, answers).1;
            && |sent| == |answers|
            && (sent[i].Some? <==> Finds(Before(lib, name, path, answers, i), name, answers[i])
                                   || Creates(Before(lib, name, path, answers, i), name, answers[i]))
  {
    var n := |answers| - 1;
    if i < n {
      DeliveriesOverLoads(lib, name, path, answers[..n], i);
      BeforeFront(lib, name, path, answers);
    } else {
      DeliversExactly(Before(lib, name, path, answers, n), name, path, answers[n]);
      if n > 0 { DeliveriesOverLoads(lib, name, path, answers[..n], n - 1); }
    }
  }

  // And the one pool that is new in the end is the one that some load created.
  // While every lookup fails nothing changes.
  lemma {:induction false} PoolsOverLoads(lib: Libvirt, name: string, path: string, answers: seq<Answers>)
    ensures var lib' := LoadAll(lib, name, path, answers).0;
            && lib'.pools.Keys
               == lib.pools.Keys + (if CreatesBy(lib, name, path, answers) then {Naming.Escape(name)} else {})
            && ((forall i :: 0 <= i < |answers| ==> !answers[i].lookup) ==> lib' == lib)
  {
    if answers != [] {
      var n := |answers| - 1;
      PoolsOverLoads(lib, name, path, answers[..n]);
      BeforeFront(lib, name, path, answers);
      LoadKeys(Before(lib, name, path, answers, n), name, path, answers[n]);
    }
  }

  lemma LoadKeys(lib: Libvirt, name: string, path: string, a: Answers)
    ensures var r := LoadSpec(lib, name, path, a);
            && r.lib.pools.Keys == lib.pools.Keys + (if Creates(lib, name, a) then {Naming.Escape(name)} else {})
            && (!a.lookup ==> r.lib == lib)
  {
    DeliversExactly(lib, name, path, a);
  }

  // The pool is created under the escaped name but looked up under the plain
  // one: after a creation, every later load finds it exactly when escaping
  // leaves the name unchanged, and otherwise never delivers a pool again.
  lemma {:induction false} ReloadExactly(lib: Libvirt, name: string, path: string, answers: seq<Answers>)
    requires name !in lib.pools && Naming.Escape(name) !in lib.pools && !lib.pointerErrors
    requires forall i :: 0 <= i < |answers| ==> answers[i] == WILLING
    ensures var first := LoadSpec(lib, name, path, WILLING);
            var (lib', sent) := LoadAll(first.lib, name, path, answers);
            && first.sent.Some? && lib'.pools == first.lib.pools && |sent| == |answers|
            && !lib'.pointerErrors
            && forall i :: 0 <= i < |sent| ==> (sent[i].Some? <==> Naming.Escape(name) == name)
  {
    if answers != [] {
      ReloadExactly(lib, name, path, answers[..|answers| - 1]);
      var (before, _) := LoadAll(LoadSpec(lib, name, path, WILLING).lib, name, path, answers[..|answers| - 1]);
      assert Naming.Escape(name) == name ==> before.pools[name := before.pools[name].(active := true)] == before.pools;
    }
  }

  // The same names decide whether the designer's disk paths lead into the pool.
  lemma ReloadFindsWhatTheDesignerUses(lib: Libvirt, name: string, path: string, file: string, format: string)
    requires name !in lib.pools && Naming.Escape(name) !in lib.pools && !lib.pointerErrors
    requires Naming.Plain(name) && file != "" && Text.Free(format, '/')
    ensures var first := LoadSpec(lib, name, path, WILLING).lib;
            && Naming.Escape(name) in first.pools
            && (LoadSpec(first, name, path, WILLING).sent.Some?
                <==> Naming.DiskPath(path, name, file, format)
                     == first.pools[Naming.Escape(name)].target + "/" + Naming.MakeVolName(file, format))
  {
    ReloadExactly(lib, name, path, [WILLING]);
    Naming.PathsAgreeExactly(path, name, file, format);
    DeliversExactly(LoadSpec(lib, name, path, WILLING).lib, name, path, WILLING);
  }

  // The pool manager asserts the value type of libvirt errors, the shim's retry
  // loop the pointer type: whichever it is, either a missing pool is never
  // created, or stopping a guest that stopped by itself never ends.
  lemma OnlyOneErrorTypeFits(lib: Libvirt, name: string, path: string, s: Sessions.Shim, id: nat)
    requires lib.pointerErrors == s.pointerErrors
    requires name !in lib.pools && Naming.Escape(name) !in lib.pools
    requires Sessions.Stopping(s, id) && !Sessions.Running(s, s.sessions[id].uuid)
    ensures LoadSpec(lib, name, path, WILLING).sent.Some?
       <==> forall answer :: var o := Sessions.KillStep(s, id, answer); o.Next? ==> Sessions.Stopping(o.shim, id)
  {
    Sessions.StopEndsExactly(s, id);
    DeliversExactly(lib, name, path, WILLING);
  }
}
