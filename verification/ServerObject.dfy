/** The mutable server: its methods and loops compute the critical sections of SecretServer. */
module ServerObject {
  import opened Identifiers
  import opened ResultOutbox
  import opened SecretServer
  import opened OwnershipInvariant
  import opened OwnershipSteps

  // ---------- what the loops rely on ----------

  lemma {:induction false} KeepAll(q: seq<nat>, out: set<nat>)
    requires forall i | i in q :: i !in out
    ensures Keep(q, out) == q
  {
    if q != [] { KeepAll(q[1..], out); }
  }

  lemma {:induction false} KeepAppend(q: seq<nat>, r: seq<nat>, out: set<nat>)
    ensures Keep(q + r, out) == Keep(q, out) + Keep(r, out)
  {
    if q == [] {
      assert q + r == r;
    } else {
      assert (q + r)[1..] == q[1..] + r;
      KeepAppend(q[1..], r, out);
    }
  }

  lemma KeepNext(q: seq<nat>, k: nat, out: set<nat>)
    requires k < |q|
    ensures Keep(q[..k + 1], out) == Keep(q[..k], out) + (if q[k] in out then [] else [q[k]])
  {
    assert q[..k + 1] == q[..k] + [q[k]];
    KeepAppend(q[..k], [q[k]], out);
    assert Keep([q[k]], out) == (if q[k] in out then [] else [q[k]]);
  }

  lemma {:induction false} KeepSplit(a: seq<nat>, id: nat, b: seq<nat>)
    requires id !in a && id !in b
    ensures Keep(a + [id] + b, {id}) == a + b
  {
    var q := a + [id] + b;
    if a == [] {
      assert q[1..] == b;
      KeepAll(b, {id});
    } else {
      assert q[1..] == a[1..] + [id] + b;
      KeepSplit(a[1..], id, b);
    }
  }

  /** Taking one element out of an ascending queue. */
  lemma KeepWithout(q: seq<nat>, k: nat)
    requires Ascending(q) && k < |q|
    ensures Keep(q, {q[k]}) == q[..k] + q[k + 1..]
  {
    assert q == q[..k] + [q[k]] + q[k + 1..];
    KeepSplit(q[..k], q[k], q[k + 1..]);
  }

  lemma OnlyInItsQueue(srv: Srv, id: nat, d: string)
    requires Shape(srv) && id in srv.cmds && d in srv.queue && id in srv.queue[d]
    ensures d == srv.cmds[id].order.deviceSN && !IsPending(srv, id)
  {
    assert AllFor(srv.cmds, d, srv.queue[d]);
    assert forall k | k in srv.pending && k.deviceSN == d :: Matches(srv, k) && k.localID !in QueueOf(srv, d);
  }

  lemma OtherQueuesKeep(srv: Srv, id: nat, d: string)
    requires Shape(srv) && id in srv.cmds && d in srv.queue
    requires d == srv.cmds[id].order.deviceSN ==> id !in srv.queue[d]
    ensures Keep(srv.queue[d], {id}) == srv.queue[d]
  {
    if id in srv.queue[d] { OnlyInItsQueue(srv, id, d); }
    KeepAll(srv.queue[d], {id});
  }

  lemma NotPendingKept(srv: Srv, id: nat)
    requires Shape(srv) && id in srv.cmds && !IsPending(srv, id)
    ensures Remove(srv, {id}).pending == srv.pending && Remove(srv, {id}).cmds == srv.cmds
  {
    PendingElsewhere(srv, id);
    hide Shape, Keep;
  }

  lemma QueueMemberFacts(srv: Srv, d: string, k: nat)
    requires Shape(srv) && d in srv.queue && k < |srv.queue[d]|
    ensures var id := srv.queue[d][k];
      && id in srv.cmds && srv.cmds[id].order.deviceSN == d && !IsPending(srv, id)
      && Keep(srv.queue[d], {id}) == srv.queue[d][..k] + srv.queue[d][k + 1..]
  {
    var id := srv.queue[d][k];
    assert Ascending(srv.queue[d]) && AllFor(srv.cmds, d, srv.queue[d]);
    KeepWithout(srv.queue[d], k);
    OnlyInItsQueue(srv, id, d);
  }

  lemma RemoveQueued(srv: Srv, d: string, k: nat)
    requires Shape(srv) && d in srv.queue && k < |srv.queue[d]|
    ensures var id := srv.queue[d][k];
      id in srv.cmds && srv.cmds[id].order.deviceSN == d
      && Remove(srv, {id}) == srv.(queue := srv.queue[d := srv.queue[d][..k] + srv.queue[d][k + 1..]])
  {
    var id := srv.queue[d][k];
    QueueMemberFacts(srv, d, k);
    NotPendingKept(srv, id);
    var r := Remove(srv, {id});
    assert r.queue.Keys == srv.queue.Keys && r.queue[d] == Keep(srv.queue[d], {id});
    forall e | e in srv.queue && e != d ensures r.queue[e] == srv.queue[e] { OtherQueuesKeep(srv, id, e); }
    hide Shape, Keep, IsPending;
    ChangedAt(r.queue, srv.queue, d, srv.queue[d][..k] + srv.queue[d][k + 1..]);
    RemoveParts(srv, {id});
    hide Remove;
  }

  lemma RemoveParts(srv: Srv, out: set<nat>)
    ensures var r := Remove(srv, out); r == srv.(queue := r.queue, pending := r.pending, cmds := r.cmds)
  {
    hide Keep;
  }

  lemma ChangedAt<K, V>(m: map<K, V>, n: map<K, V>, k: K, v: V)
    requires m.Keys == n.Keys && k in n && m[k] == v
    requires forall e | e in n && e != k :: m[e] == n[e]
    ensures m == n[k := v]
  {}

  /** The only entry for a pending command is under its own key. */
  lemma PendingElsewhere(srv: Srv, id: nat)
    requires Shape(srv) && id in srv.cmds
    ensures forall k | k in srv.pending :: srv.pending[k] == id <==> k == PendingKey(srv.cmds[id].order.deviceSN, id)
  {
    forall k | k in srv.pending ensures srv.pending[k] == id <==> k == PendingKey(srv.cmds[id].order.deviceSN, id) {
      assert Matches(srv, k);
    }
  }

  lemma PendingNotQueued(srv: Srv, id: nat, d: string)
    requires Shape(srv) && IsPending(srv, id) && d in srv.queue
    ensures Keep(srv.queue[d], {id}) == srv.queue[d]
  {
    assert Matches(srv, PendingKey(srv.cmds[id].order.deviceSN, id));
    OtherQueuesKeep(srv, id, d);
  }

  lemma RemovedEntry<K>(m: map<K, nat>, id: nat, key: K)
    requires forall k | k in m :: m[k] == id <==> k == key
    ensures (map k | k in m && m[k] !in {id} :: m[k]) == m - {key}
  {}

  lemma RemovedOneCommand(srv: Srv, id: nat)
    requires IsPending(srv, id)
    ensures Remove(srv, {id}).cmds == srv.cmds[id := srv.cmds[id].(writerActive := false)]
  {
    RemovedKeys(srv, {id});
    forall i | i in srv.cmds { RemovedCommand(srv, {id}, i); }
    hide Remove, IsPending;
  }

  lemma PendingQueuesKept(srv: Srv, id: nat)
    requires Shape(srv) && IsPending(srv, id)
    ensures Remove(srv, {id}).queue == srv.queue
  {
    forall d | d in srv.queue ensures Keep(srv.queue[d], {id}) == srv.queue[d] { PendingNotQueued(srv, id, d); }
    hide Shape, Keep, IsPending;
  }

  lemma RemovePending(srv: Srv, id: nat)
    requires Shape(srv) && IsPending(srv, id)
    ensures var key := PendingKey(srv.cmds[id].order.deviceSN, id);
      Remove(srv, {id})
        == srv.(pending := srv.pending - {key}, cmds := srv.cmds[id := srv.cmds[id].(writerActive := false)])
  {
    PendingElsewhere(srv, id);
    RemovedEntry(srv.pending, id, PendingKey(srv.cmds[id].order.deviceSN, id));
    hide Shape, Remove;
    RemoveParts(srv, {id});
    PendingQueuesKept(srv, id);
    RemovedOneCommand(srv, id);
    RemovedKeys(srv, {id});
    hide IsPending;
  }

  lemma {:induction false} KeepSame(q: seq<nat>, x: set<nat>, y: set<nat>)
    requires forall i | i in q :: i in x <==> i in y
    ensures Keep(q, x) == Keep(q, y)
  {
    if q != [] { KeepSame(q[1..], x, y); }
  }

  lemma KeepCons(x: nat, rest: seq<nat>, out: set<nat>)
    ensures Keep([x] + rest, out) == if x in out then Keep(rest, out) else [x] + Keep(rest, out)
  {
    assert ([x] + rest)[1..] == rest;
  }

  lemma {:induction false} KeepTwice(q: seq<nat>, x: set<nat>, y: set<nat>)
    ensures Keep(Keep(q, x), y) == Keep(q, x + y)
  {
    if q != [] {
      var rest := q[1..];
      assert q == [q[0]] + rest;
      KeepTwice(rest, x, y);
      KeepCons(q[0], rest, x);
      KeepCons(q[0], rest, x + y);
      KeepCons(q[0], Keep(rest, x), y);
      hide Keep;
    }
  }

  lemma RemovedCommand(srv: Srv, out: set<nat>, i: nat)
    requires i in srv.cmds
    ensures i in Remove(srv, out).cmds
    ensures Remove(srv, out).cmds[i] ==
      if i in out && IsPending(srv, i) then srv.cmds[i].(writerActive := false) else srv.cmds[i]
  {
    hide Keep;
  }

  lemma RemovedKeys(srv: Srv, out: set<nat>)
    ensures Remove(srv, out).cmds.Keys == srv.cmds.Keys
    ensures Remove(srv, out).pending == map k | k in srv.pending && srv.pending[k] !in out :: srv.pending[k]
  {
    hide Keep;
  }

  lemma TwiceCommand(srv: Srv, x: set<nat>, y: set<nat>, i: nat)
    requires Shape(srv) && i in srv.cmds
    ensures i in Remove(Remove(srv, x), y).cmds && i in Remove(srv, x + y).cmds
    ensures Remove(Remove(srv, x), y).cmds[i] == Remove(srv, x + y).cmds[i]
  {
    var r := Remove(srv, x);
    RemoveMembers(srv, x);
    RemovedCommand(srv, x, i);
    RemovedCommand(srv, x + y, i);
    RemovedCommand(r, y, i);
    assert IsPending(r, i) <==> IsPending(srv, i) && i !in x;
    hide Remove, Shape, IsPending, InQueue;
  }

  lemma FilteredTwice<K>(m: map<K, nat>, x: set<nat>, y: set<nat>, once: map<K, nat>, twice: map<K, nat>)
    requires once == map k | k in m && m[k] !in x :: m[k]
    requires twice == map k | k in once && once[k] !in y :: once[k]
    ensures twice == map k | k in m && m[k] !in x + y :: m[k]
  {}

  lemma TwicePending(srv: Srv, x: set<nat>, y: set<nat>)
    ensures Remove(Remove(srv, x), y).pending == Remove(srv, x + y).pending
  {
    RemovedKeys(srv, x);
    RemovedKeys(srv, x + y);
    RemovedKeys(Remove(srv, x), y);
    hide Remove;
    FilteredTwice(srv.pending, x, y, Remove(srv, x).pending, Remove(Remove(srv, x), y).pending);
  }

  lemma SameMap<V>(m: map<nat, V>, n: map<nat, V>)
    requires m.Keys == n.Keys && forall i | i in m :: m[i] == n[i]
    ensures m == n
  {}

  lemma TwiceCommands(srv: Srv, x: set<nat>, y: set<nat>)
    requires Shape(srv)
    ensures Remove(Remove(srv, x), y).cmds == Remove(srv, x + y).cmds
  {
    var once, twice := Remove(srv, x + y), Remove(Remove(srv, x), y);
    RemovedKeys(srv, x);
    RemovedKeys(srv, x + y);
    RemovedKeys(Remove(srv, x), y);
    hide Remove, Shape;
    forall i | i in twice.cmds ensures twice.cmds[i] == once.cmds[i] { TwiceCommand(srv, x, y, i); }
    SameMap(twice.cmds, once.cmds);
  }

  /** Removing in two goes is removing at once. */
  lemma RemoveTwice(srv: Srv, x: set<nat>, y: set<nat>)
    requires Shape(srv)
    ensures Remove(Remove(srv, x), y) == Remove(srv, x + y)
  {
    var once, twice := Remove(srv, x + y), Remove(Remove(srv, x), y);
    assert twice.queue == once.queue by {
      forall d | d in srv.queue ensures twice.queue[d] == once.queue[d] { KeepTwice(srv.queue[d], x, y); }
      hide Keep, Shape;
    }
    TwiceCommands(srv, x, y);
    TwicePending(srv, x, y);
    RemoveParts(srv, x + y);
    RemoveParts(srv, x);
    RemoveParts(Remove(srv, x), y);
    hide Remove, Shape;
  }

  /** The commands of `out` that are queued for the given devices, without repetition. */
  ghost predicate TakenOut(srv: Srv, out: set<nat>, done: set<string>, removed: seq<nat>) {
    && (forall a, b | 0 <= a < b < |removed| :: removed[a] != removed[b])
    && (forall i :: i in removed <==>
         i in out && i in srv.cmds && srv.cmds[i].order.deviceSN in done && InQueue(srv, i))
  }

  lemma TakenOutMore(srv: Srv, out: set<nat>, done: set<string>, removed: seq<nat>, d: string, dropped: seq<nat>)
    requires Shape(srv) && TakenOut(srv, out, done, removed) && d in srv.queue && d !in done
    requires Ascending(dropped) && forall i :: i in dropped <==> i in srv.queue[d] && i in out
    ensures TakenOut(srv, out, done + {d}, removed + dropped)
  {
    QueuedExists(srv, d);
    hide Shape;
    forall i ensures i in removed + dropped <==>
      i in out && i in srv.cmds && srv.cmds[i].order.deviceSN in done + {d} && InQueue(srv, i) {
      assert i in removed + dropped <==> i in removed || i in dropped;
    }
    forall a, b | 0 <= a < b < |removed + dropped| ensures (removed + dropped)[a] != (removed + dropped)[b] {
      assert a < |removed| ==> removed[a] in removed && removed[a] == (removed + dropped)[a];
      assert b >= |removed| ==> dropped[b - |removed|] in dropped && dropped[b - |removed|] == (removed + dropped)[b];
    }
  }

  /** The queued part of `out` has been taken out. */
  lemma QueuesDone(srv: Srv, after: Srv, out: set<nat>, removed: seq<nat>)
    requires Shape(srv) && TakenOut(srv, out, srv.queue.Keys, removed)
    requires after == srv.(queue := after.queue) && after.queue.Keys == srv.queue.Keys
    requires forall d | d in srv.queue :: after.queue[d] == Keep(srv.queue[d], out)
    ensures after == Remove(srv, Members(removed))
    ensures forall i :: i in removed <==> i in out && InQueue(srv, i)
  {
    var r := Remove(srv, Members(removed));
    assert forall i :: i in removed <==> i in out && InQueue(srv, i) by { hide Shape; }
    forall d | d in srv.queue ensures r.queue[d] == after.queue[d] {
      QueuedExists(srv, d);
      KeepSame(srv.queue[d], out, Members(removed));
    }
    ShapeApart(srv);
    assert r.pending == srv.pending && r.cmds == srv.cmds by { QueuedAreNotPending(srv, Members(removed)); }
    RemoveParts(srv, Members(removed));
    hide Shape, Keep, Remove, TakenOut;
  }

  lemma ShapeApart(srv: Srv)
    requires Shape(srv)
    ensures forall i :: !(InQueue(srv, i) && IsPending(srv, i))
  {
    hide Ascending, AllFor;
    forall i | IsPending(srv, i) ensures !InQueue(srv, i) {
      assert Matches(srv, PendingKey(srv.cmds[i].order.deviceSN, i));
    }
  }

  lemma QueuedAreNotPending(srv: Srv, out: set<nat>)
    requires Shape(srv) && forall i | i in out :: i in srv.cmds && !IsPending(srv, i)
    ensures Remove(srv, out).pending == srv.pending && Remove(srv, out).cmds == srv.cmds
  {
    forall k | k in srv.pending ensures srv.pending[k] !in out { assert Matches(srv, k); }
    hide Shape, Keep;
  }

  /** What is known of a key that the second loop of a supersession has not visited. */
  lemma Unvisited(srv: Srv, gone: set<nat>, key: PendingKey)
    requires Shape(srv) && key in srv.pending && key.localID !in gone
    ensures var r := Remove(srv, gone);
      && key in r.pending && r.pending[key] == key.localID == srv.pending[key]
      && key.localID in r.cmds && key.localID in srv.cmds && r.cmds[key.localID].order == srv.cmds[key.localID].order
      && srv.cmds[key.localID].order.deviceSN == key.deviceSN
      && IsPending(srv, key.localID) && IsPending(r, key.localID)
  {
    assert Matches(srv, key);
    RemovedCommand(srv, gone, key.localID);
    RemovedKeys(srv, gone);
    hide Remove, Shape;
  }

  /** The commands of `out` that are pending under one of the given keys. */
  ghost predicate Detached(srv: Srv, out: set<nat>, done: set<PendingKey>, removed: seq<nat>) {
    && (forall a, b | 0 <= a < b < |removed| :: removed[a] != removed[b])
    && (forall i :: i in removed <==> i in out && i in srv.cmds && PendingKey(srv.cmds[i].order.deviceSN, i) in done)
  }

  lemma DetachedMore(srv: Srv, out: set<nat>, done: set<PendingKey>, removed: seq<nat>, key: PendingKey)
    requires Detached(srv, out, done, removed) && key !in done
    requires key.localID in srv.cmds && srv.cmds[key.localID].order.deviceSN == key.deviceSN
    ensures key.localID !in removed
    ensures Detached(srv, out, done + {key}, if key.localID in out then removed + [key.localID] else removed)
  {}

  lemma RemoveOneMore(srv: Srv, gone: seq<nat>, id: nat)
    requires Shape(srv)
    ensures Remove(Remove(srv, Members(gone)), {id}) == Remove(srv, Members(gone + [id]))
  {
    RemoveTwice(srv, Members(gone), {id});
    assert Members(gone + [id]) == Members(gone) + {id};
    hide Remove, Shape;
  }

  lemma BothLoopsEnumerate(srv: Srv, out: set<nat>, queued: seq<nat>, detached: seq<nat>)
    requires Shape(srv) && TakenOut(srv, out, srv.queue.Keys, queued) && Detached(srv, out, srv.pending.Keys, detached)
    requires forall i | i in out :: i in srv.cmds && Waiting(srv, i)
    ensures Enumerates(queued + detached, out)
  {
    ShapeApart(srv);
    hide Shape;
    var all := queued + detached;
    assert forall i :: i in all <==> i in queued || i in detached;
    assert forall i | i in out && InQueue(srv, i) :: srv.cmds[i].order.deviceSN in srv.queue.Keys;
    assert forall i :: i in queued <==> i in out && InQueue(srv, i);
    assert forall i :: i in detached <==> i in out && IsPending(srv, i);
    hide InQueue, IsPending, TakenOut;
    forall a, b | 0 <= a < b < |all| ensures all[a] != all[b] {
      if a < |queued| <= b {
        assert all[a] == queued[a] && all[a] in queued && all[b] == detached[b - |queued|] && all[b] in detached;
      }
    }
    assert Members(all) == out;
  }

  lemma QueueSplits(srv: Srv, d: string, deploymentID: string, currentCommandID: string)
    requires Shape(srv) && d in srv.queue
    ensures Ascending(srv.queue[d])
    ensures forall i | i in srv.queue[d] ::
      i in srv.cmds
        && (i in Superseded(srv, deploymentID, currentCommandID) <==>
             Supersedes(srv.cmds[i], deploymentID, currentCommandID))
  {
    assert AllFor(srv.cmds, d, srv.queue[d]);
  }

  lemma PendingUnqueued(srv: Srv, out: set<nat>, queued: seq<nat>)
    requires Shape(srv) && TakenOut(srv, out, srv.queue.Keys, queued)
    ensures forall k | k in srv.pending ::
      k.localID !in queued && k.localID in srv.cmds && srv.cmds[k.localID].order.deviceSN == k.deviceSN
    ensures Detached(srv, out, {}, [])
    ensures Remove(srv, Members(queued)).pending == srv.pending
  {
    ShapeApart(srv);
    assert forall i | i in queued :: i in srv.cmds && !IsPending(srv, i) by { hide Shape, InQueue, IsPending; }
    QueuedAreNotPending(srv, Members(queued));
    hide Remove;
    forall k | k in srv.pending
      ensures k.localID in srv.cmds && srv.cmds[k.localID].order.deviceSN == k.deviceSN && IsPending(srv, k.localID) {
      assert Matches(srv, k);
    }
    hide Shape, InQueue, IsPending;
  }

  /** Every queue but those still to do is without the commands of `out`. */
  ghost predicate PartlySplit(srv: Srv, queue: map<string, seq<nat>>, todo: set<string>, out: set<nat>) {
    && queue.Keys == srv.queue.Keys
    && (forall d | d in queue :: queue[d] == if d in todo then srv.queue[d] else Keep(srv.queue[d], out))
  }

  lemma SplitMore(srv: Srv, queue: map<string, seq<nat>>, todo: set<string>, out: set<nat>, d: string,
    retained: seq<nat>)
    requires PartlySplit(srv, queue, todo, out) && d in srv.queue && retained == Keep(srv.queue[d], out)
    ensures PartlySplit(srv, queue[d := retained], todo - {d}, out)
  {
    hide Keep;
  }

  lemma AllSplit(srv: Srv, queue: map<string, seq<nat>>, todo: set<string>, out: set<nat>)
    requires PartlySplit(srv, queue, todo, out) && todo == {}
    ensures queue.Keys == srv.queue.Keys && forall d | d in srv.queue :: queue[d] == Keep(srv.queue[d], out)
  {}

  lemma VisitOne<T>(all: set<T>, todo: set<T>, x: T)
    requires x in todo && todo <= all
    ensures todo - {x} <= all && all - (todo - {x}) == all - todo + {x} && x !in all - todo
  {}

  /** The loop over the queues has visited all but `todo`. */
  ghost predicate QueuesSoFar(before: Srv, view: Srv, out: set<nat>, todo: set<string>, removed: seq<nat>) {
    && view == before.(queue := view.queue)
    && todo <= before.queue.Keys
    && PartlySplit(before, view.queue, todo, out)
    && TakenOut(before, out, before.queue.Keys - todo, removed)
  }

  lemma QueuesStart(before: Srv, out: set<nat>)
    ensures QueuesSoFar(before, before, out, before.queue.Keys, [])
  {
    assert before.queue.Keys - before.queue.Keys == {};
    TakenNone(before, out);
    hide TakenOut;
  }

  lemma QueuesAt(before: Srv, view: Srv, deploymentID: string, currentCommandID: string, todo: set<string>,
    removed: seq<nat>, d: string)
    requires Shape(before) && d in todo
    requires QueuesSoFar(before, view, Superseded(before, deploymentID, currentCommandID), todo, removed)
    ensures d in view.queue && d in before.queue && view.queue[d] == before.queue[d] && view.cmds == before.cmds
    ensures Ascending(view.queue[d])
    ensures forall i | i in view.queue[d] ::
      && i in view.cmds
      && (i in Superseded(before, deploymentID, currentCommandID) <==>
           Supersedes(view.cmds[i], deploymentID, currentCommandID))
  {
    QueueSplits(before, d, deploymentID, currentCommandID);
    hide Shape, Superseded, Supersedes, TakenOut, Ascending, Keep;
  }

  lemma QueuesStep(before: Srv, view: Srv, out: set<nat>, todo: set<string>, removed: seq<nat>, d: string,
    dropped: seq<nat>)
    requires Shape(before) && d in todo && d in before.queue && d in view.queue
    requires view.queue[d] == Keep(before.queue[d], out)
    requires Ascending(dropped) && forall i :: i in dropped <==> i in before.queue[d] && i in out
    requires QueuesSoFar(before, view.(queue := view.queue[d := before.queue[d]]), out, todo, removed)
    ensures QueuesSoFar(before, view, out, todo - {d}, removed + dropped)
  {
    VisitOne(before.queue.Keys, todo, d);
    TakenOutMore(before, out, before.queue.Keys - todo, removed, d, dropped);
    SplitMore(before, view.queue[d := before.queue[d]], todo, out, d, view.queue[d]);
    assert view.queue[d := before.queue[d]][d := view.queue[d]] == view.queue;
    hide Shape, TakenOut, PartlySplit, Ascending, Keep;
  }

  lemma QueuesEnd(before: Srv, view: Srv, out: set<nat>, removed: seq<nat>)
    requires Shape(before) && QueuesSoFar(before, view, out, {}, removed)
    ensures view == Remove(before, Members(removed)) && TakenOut(before, out, before.queue.Keys, removed)
  {
    assert before.queue.Keys - {} == before.queue.Keys;
    AllSplit(before, view.queue, {}, out);
    hide Shape, TakenOut, PartlySplit, Remove, Keep;
    QueuesDone(before, view, out, removed);
  }

  /** The loop over the pending commands has visited all but `todo`. */
  ghost predicate PendingSoFar(before: Srv, view: Srv, out: set<nat>, todo: set<PendingKey>, queued: seq<nat>,
    removed: seq<nat>) {
    && view == Remove(before, Members(queued + removed))
    && todo <= before.pending.Keys
    && Detached(before, out, before.pending.Keys - todo, removed)
    && TakenOut(before, out, before.queue.Keys, queued)
  }

  lemma PendingStart(before: Srv, out: set<nat>, queued: seq<nat>)
    requires Shape(before) && TakenOut(before, out, before.queue.Keys, queued)
    ensures PendingSoFar(before, Remove(before, Members(queued)), out, Remove(before, Members(queued)).pending.Keys,
      queued, [])
  {
    PendingUnqueued(before, out, queued);
    assert queued + [] == queued;
    assert before.pending.Keys - before.pending.Keys == {};
    hide Shape, TakenOut, Detached, Remove;
  }

  lemma PendingAt(before: Srv, view: Srv, deploymentID: string, currentCommandID: string, todo: set<PendingKey>,
                  queued: seq<nat>, removed: seq<nat>, key: PendingKey)
    requires Shape(before) && key in todo
    requires PendingSoFar(before, view, Superseded(before, deploymentID, currentCommandID), todo, queued, removed)
    ensures Shape(view) && key in view.pending && view.pending[key] == key.localID && IsPending(view, key.localID)
    ensures key.localID in view.cmds
    ensures key.localID in Superseded(before, deploymentID, currentCommandID)
            <==> Supersedes(view.cmds[key.localID], deploymentID, currentCommandID)
  {
    var out := Superseded(before, deploymentID, currentCommandID);
    PendingUnqueued(before, out, queued);
    VisitOne(before.pending.Keys, todo, key);
    DetachedMore(before, out, before.pending.Keys - todo, removed, key);
    hide TakenOut, Detached, Members;
    NotGone(queued, removed, key.localID);
    Unvisited(before, Members(queued + removed), key);
    PendingSuperseded(before, key.localID, deploymentID, currentCommandID);
    RemoveShape(before, Members(queued + removed));
    hide Shape, Superseded, Remove, IsPending;
  }

  lemma PendingStep(before: Srv, view: Srv, out: set<nat>, todo: set<PendingKey>, queued: seq<nat>, removed: seq<nat>,
    key: PendingKey)
    requires Shape(before) && key in todo && PendingSoFar(before, view, out, todo, queued, removed)
    ensures if key.localID in out then
              PendingSoFar(before, Remove(view, {key.localID}), out, todo - {key}, queued, removed + [key.localID])
            else
              PendingSoFar(before, view, out, todo - {key}, queued, removed)
  {
    hide Shape, TakenOut, Detached, Remove, Members;
    PendingUnqueued(before, out, queued);
    VisitOne(before.pending.Keys, todo, key);
    DetachedMore(before, out, before.pending.Keys - todo, removed, key);
    RemoveOneMore(before, queued + removed, key.localID);
    assert queued + (removed + [key.localID]) == queued + removed + [key.localID];
  }

  lemma PendingEnd(before: Srv, view: Srv, out: set<nat>, queued: seq<nat>, removed: seq<nat>)
    requires PendingSoFar(before, view, out, {}, queued, removed)
    ensures view == Remove(before, Members(queued + removed)) && Detached(before, out, before.pending.Keys, removed)
  {
    assert before.pending.Keys - {} == before.pending.Keys;
    hide TakenOut, Detached, Remove, Members;
  }

  lemma NotGone(queued: seq<nat>, removed: seq<nat>, id: nat)
    requires id !in queued && id !in removed
    ensures id !in Members(queued + removed)
  {}

  lemma TakenNone(srv: Srv, out: set<nat>)
    ensures TakenOut(srv, out, {}, [])
  {}

  lemma SupersededWait(srv: Srv, deploymentID: string, currentCommandID: string)
    ensures forall i | i in Superseded(srv, deploymentID, currentCommandID) :: i in srv.cmds && Waiting(srv, i)
  {
    hide Waiting, Supersedes;
  }

  lemma SupersededGone(srv: Srv, deploymentID: string, currentCommandID: string, removed: seq<nat>)
    requires Shape(srv) && Enumerates(removed, Superseded(srv, deploymentID, currentCommandID))
    ensures forall i :: i in removed <==>
      i in srv.cmds && Waiting(srv, i) && srv.cmds[i].order.deploymentID == deploymentID
      && srv.cmds[i].order.commandID != currentCommandID
    ensures forall a, b | 0 <= a < b < |removed| :: removed[a] != removed[b]
    ensures var after := Remove(srv, Superseded(srv, deploymentID, currentCommandID));
      forall i :: Waiting(after, i) <==> Waiting(srv, i) && i !in removed
  {
    var out := Superseded(srv, deploymentID, currentCommandID);
    RemoveMembers(srv, out);
    assert forall i :: i in removed <==> i in Members(removed);
    assert forall i :: i in removed <==> i in out;
    hide Shape, Remove, InQueue, IsPending;
  }

  lemma EnumeratedMembers(out: seq<nat>, ids: set<nat>)
    requires Enumerates(out, ids)
    ensures Members(out) == ids
  {}

  lemma PendingSuperseded(srv: Srv, id: nat, deploymentID: string, currentCommandID: string)
    requires IsPending(srv, id)
    ensures id in Superseded(srv, deploymentID, currentCommandID) <==>
      Supersedes(srv.cmds[id], deploymentID, currentCommandID)
  {}

  // ---------- shutting down and flushing ----------

  /** The second half of a shutdown, seen before and after the queues are dropped. */
  lemma ClearedCommutes(srv: Srv, id: nat)
    ensures Remove(srv.(queue := map[], closed := true), {id}) == Remove(srv, {id}).(queue := map[], closed := true)
  {
    hide Keep;
  }

  lemma ClearedShape(srv: Srv)
    requires Shape(srv)
    ensures Shape(srv.(queue := map[], closed := true))
  {
    hide Ascending, AllFor;
    var r := srv.(queue := map[], closed := true);
    forall k | k in r.pending ensures Matches(r, k) { assert Matches(srv, k); }
  }

  lemma ClearedPending(srv: Srv, id: nat)
    ensures IsPending(srv.(queue := map[], closed := true), id) == IsPending(srv, id)
  {}

  lemma ClearedDetach(srv: Srv, id: nat)
    requires Shape(srv) && IsPending(srv, id)
    ensures var cleared := srv.(queue := map[], closed := true);
      && Shape(cleared) && IsPending(cleared, id)
      && Remove(cleared, {id}) == Remove(srv, {id}).(queue := map[], closed := true)
  {
    ClearedShape(srv);
    ClearedPending(srv, id);
    ClearedCommutes(srv, id);
    hide Shape, IsPending, Remove;
  }

  ghost function AfterFlush(srv: Srv, order: seq<string>, now: int, outcomes: string -> Persist): Srv {
    if order == [] then srv
    else
      var before := AfterFlush(srv, order[..|order| - 1], now, outcomes);
      var c := order[|order| - 1];
      if c in before.awaiting then FlushOne(before, c, now, outcomes(c)).0 else before
  }

  // ---------- the object ----------

  /** The server while it is shut down: closed, with empty queues. */
  function Cleared(srv: Srv): Srv { srv.(queue := map[], closed := true) }

  lemma ClearedStart(before: Srv, queued: seq<nat>)
    requires Shape(before) && TakenOut(before, AllWaiting(before), before.queue.Keys, queued)
    ensures var view := Remove(before, Members(queued));
      && Cleared(view) == before.(queue := map[], closed := true)
      && PendingSoFar(before, view, AllWaiting(before), before.pending.Keys, queued, [])
  {
    QueuedGone(before, queued);
    PendingStart(before, AllWaiting(before), queued);
    hide Shape, TakenOut, AllWaiting, PendingSoFar;
  }

  lemma ClearedKeeps(srv: Srv)
    ensures Cleared(srv).pending == srv.pending
  {}

  /** The first k commands of a queue are split into those that stay and those that go. */
  ghost predicate SplitSoFar(q: seq<nat>, k: nat, out: set<nat>, retained: seq<nat>, dropped: seq<nat>)
    requires k <= |q|
  {
    && retained == Keep(q[..k], out)
    && Ascending(dropped) && forall i :: i in dropped <==> i in q[..k] && i in out
  }

  lemma DroppedNext(q: seq<nat>, k: nat, out: set<nat>, dropped: seq<nat>)
    requires k < |q| && Ascending(q) && Ascending(dropped)
    requires forall i :: i in dropped <==> i in q[..k] && i in out
    ensures var more := if q[k] in out then dropped + [q[k]] else dropped;
      Ascending(more) && forall i :: i in more <==> i in q[..k + 1] && i in out
  {
    assert forall i | i in q[..k] :: i < q[k];
    hide Ascending;
    assert forall i :: i in q[..k + 1] <==> i in q[..k] || i == q[k] by { assert q[..k + 1] == q[..k] + [q[k]]; }
    if q[k] in out { AppendAscends(dropped, q[k]); }
  }

  lemma SplitNext(q: seq<nat>, k: nat, out: set<nat>, retained: seq<nat>, dropped: seq<nat>)
    requires k < |q| && Ascending(q) && SplitSoFar(q, k, out, retained, dropped)
    ensures if q[k] in out then SplitSoFar(q, k + 1, out, retained, dropped + [q[k]])
            else SplitSoFar(q, k + 1, out, retained + [q[k]], dropped)
  {
    hide Ascending, Keep;
    KeepNext(q, k, out);
    DroppedNext(q, k, out, dropped);
    assert retained + [] == retained;
  }

  lemma SplitWhole(q: seq<nat>, out: set<nat>, retained: seq<nat>, dropped: seq<nat>)
    requires SplitSoFar(q, |q|, out, retained, dropped)
    ensures retained == Keep(q, out) && Ascending(dropped) && forall i :: i in dropped <==> i in q && i in out
  {
    assert q[..|q|] == q;
    hide Ascending, Keep;
  }

  class Server {
    var closed: bool
    var outboxFailed: bool
    var cmdID: nat
    var ids: set<string>
    var queue: map<string, seq<nat>>
    var pending: map<PendingKey, nat>
    var cmds: map<nat, Command>
    var awaiting: map<string, AwaitingResult>
    const outbox: Outbox

    ghost function View(): Srv
      reads this, outbox
    {
      Srv(closed, outboxFailed, cmdID, ids, queue, pending, cmds, awaiting, outbox.View())
    }

    constructor (outbox: Outbox)
      ensures this.outbox == outbox
      ensures View() == Srv(false, false, 0, {}, map[], map[], map[], map[], outbox.View())
    {
      this.outbox := outbox;
      closed, outboxFailed, cmdID, ids := false, false, 0, {};
      queue, pending, cmds, awaiting := map[], map[], map[], map[];
    }

    method ReserveSecretCommand(commandID: string) returns (ok: bool, code: string)
      modifies this`ids
      ensures (View(), ok, code) == Reserve(old(View()), commandID)
    {
      if !ValidUUID(commandID) {
        return false, "stale_deployment_command";
      }
      if closed {
        return false, "deployment_cancelled";
      }
      if outboxFailed {
        return false, "deployment_delivery_unavailable";
      }
      if commandID in ids {
        return false, "";
      }
      var waiting, capacity := outbox.Admit(commandID, |ids|);
      if waiting {
        return false, "";
      }
      if !capacity {
        return false, "network_unavailable";
      }
      if |ids| >= MAX_COMMANDS {
        return false, "network_unavailable";
      }
      ids := ids + {commandID};
      return true, "";
    }

    method ReleaseSecretCommand(commandID: string)
      modifies this`ids
      ensures View() == Release(old(View()), commandID)
    {
      ids := ids - {commandID};
    }

    method EnqueueSecretCommand(command: Command) returns (outcome: QueueOutcome)
      modifies this`cmdID, this`cmds, this`queue
      ensures (View(), outcome) == EnqueueCommand(old(View()), command)
    {
      if !ValidUUID(command.order.deploymentID) || !ValidUUID(command.order.commandID)
        || !ValidIdentifier(command.order.deviceSN) {
        return Closed;
      }
      if closed {
        return Closed;
      }
      if command.order.commandID !in ids {
        return NoReservation;
      }
      if |ids| > MAX_COMMANDS {
        return NoReservation;
      }
      cmdID := cmdID + 1;
      cmds := cmds[cmdID := command.(id := cmdID)];
      var deviceSN := command.order.deviceSN;
      queue := queue[deviceSN := (if deviceSN in queue then queue[deviceSN] else []) + [cmdID]];
      outcome := Queued;
    }

    /** The pre-serve timer: takes the command out of its queue if it still is there. */
    method ExpireQueuedDeleteCommand(id: nat) returns (removed: bool)
      requires Shape(View()) && id in cmds
      modifies this`queue
      ensures removed == InQueue(old(View()), id)
      ensures View() == if removed then Remove(old(View()), {id}) else old(View())
    {
      var deviceSN := cmds[id].order.deviceSN;
      if deviceSN !in queue {
        return false;
      }
      var q := queue[deviceSN];
      for index := 0 to |q|
        invariant id !in q[..index]
        invariant queue == old(queue)
      {
        if q[index] == id {
          RemoveQueued(View(), deviceSN, index);
          queue := queue[deviceSN := q[..index] + q[index + 1..]];
          return true;
        }
      }
      removed := false;
    }

    method DetachExactPendingSecretCommandLocked(id: nat) returns (removed: bool)
      requires Shape(View()) && id in cmds
      modifies this`pending, this`cmds
      ensures removed == IsPending(old(View()), id)
      ensures View() == if removed then Remove(old(View()), {id}) else old(View())
    {
      var key := PendingKey(cmds[id].order.deviceSN, id);
      if key !in pending || pending[key] != id {
        PendingElsewhere(View(), id);
        return false;
      }
      RemovePending(View(), id);
      cmds := cmds[id := cmds[id].(writerActive := false)];
      pending := pending - {key};
      removed := true;
    }

    method ClaimSecretCommandWriter(deviceSN: string, now: int) returns (outcome: ClaimOutcome)
      requires Shape(View())
      modifies this`pending, this`cmds, this`queue
      ensures (View(), outcome) == ClaimWriter(old(View()), deviceSN, now)
    {
      hide Shape, Spent;
      var todo := pending.Keys;
      while todo != {}
        invariant todo <= pending.Keys
        invariant View() == old(View())
        invariant forall k | k in pending.Keys - todo :: k.deviceSN != deviceSN
        decreases |todo|
      {
        var key :| key in todo;
        todo := todo - {key};
        if key.deviceSN == deviceSN {
          var id := pending[key];
          TheOnlyPending(View(), key);
          var c := cmds[id];
          if c.writerActive {
            return Busy;
          }
          assert Spent(c, now)
            == (c.serveAttempts >= MAX_SERVE_ATTEMPTS
              || (c.firstServedAt.Some? && now >= c.firstServedAt.value + SERVE_DEADLINE)) by {
            SpentIs(c, now);
          }
          if c.serveAttempts >= MAX_SERVE_ATTEMPTS
            || (c.firstServedAt.Some? && now >= c.firstServedAt.value + SERVE_DEADLINE) {
            var _ := DetachExactPendingSecretCommandLocked(id);
            return Exhausted(id);
          }
          cmds := cmds[id := c.(writerActive := true, serveAttempts := c.serveAttempts + 1)];
          return Serve(id);
        }
      }
      assert PendingOf(View(), deviceSN) == None;
      if deviceSN !in queue || queue[deviceSN] == [] {
        return Idle;
      }
      var q := queue[deviceSN];
      var id := q[0];
      QueuedExists(View(), deviceSN);
      queue := queue[deviceSN := q[1..]];
      pending := pending[PendingKey(deviceSN, id) := id];
      cmds := cmds[id := cmds[id].(firstServedAt := Some(now), serveAttempts := 1, writerActive := true)];
      outcome := Serve(id);
    }

    method ReleaseSecretCommandWriter(id: nat)
      requires Shape(View()) && id in cmds
      modifies this`cmds
      ensures View() == ReleaseWriter(old(View()), id)
    {
      var key := PendingKey(cmds[id].order.deviceSN, id);
      PendingElsewhere(View(), id);
      if key in pending && pending[key] == id {
        cmds := cmds[id := cmds[id].(writerActive := false)];
      }
    }

    method MarkSecretCommandServed(id: nat)
      requires Shape(View()) && id in cmds
      modifies this`cmds
      ensures View() == MarkServed(old(View()), id)
    {
      var key := PendingKey(cmds[id].order.deviceSN, id);
      PendingElsewhere(View(), id);
      if key in pending && pending[key] == id {
        cmds := cmds[id := cmds[id].(served := true, writerActive := false)];
      }
    }

    /** The check before the write, with the payload lock held. */
    method BeginSecretCommandWrite(id: nat) returns (ok: bool)
      requires Shape(View()) && id in cmds
      modifies this`cmds
      ensures (View(), ok) == BeginWrite(old(View()), id)
    {
      var key := PendingKey(cmds[id].order.deviceSN, id);
      PendingElsewhere(View(), id);
      if key !in pending || pending[key] != id || !cmds[id].writerActive {
        return false;
      }
      if |cmds[id].payload| == 0 {
        cmds := cmds[id := cmds[id].(writerActive := false)];
        return false;
      }
      ok := true;
    }

    /** The first critical section of an acknowledgement, and the result it will report. */
    method CompleteSecretCommand(key: PendingKey, returnCode: int) returns (result: Option<Result>)
      requires Shape(View())
      modifies this`pending, this`cmds
      ensures result == Completion(old(View()), key, returnCode)
      ensures View() == if result.Some? then Remove(old(View()), {old(pending)[key]}) else old(View())
    {
      if key !in pending {
        return None;
      }
      assert Matches(View(), key);
      var id := pending[key];
      var c := cmds[id];
      if c.order.operation == "delete" && !c.served {
        return None;
      }
      var removed := DetachExactPendingSecretCommandLocked(id);
      if !removed {
        return None;
      }
      var reported := Result(c.order.operation, "applied", c.order.deviceSN, c.order.sha256, "", c.order.commandID,
                             c.order.attempt, c.order.vaultAssetID, returnCode);
      if returnCode != 0 {
        reported := reported.(status := "failed", errorCode := "device_command_failed");
      }
      result := Some(reported);
    }

    method EnqueueBiometricResultLocked(deploymentID: string, result: Result, now: int, p: Persist)
      returns (outcome: EnqueueOutcome)
      modifies this`awaiting, this`ids, outbox
      ensures (View(), outcome) == EnqueueResult(old(View()), deploymentID, result, now, p)
    {
      if !ValidUUID(deploymentID) || !ValidUUID(result.commandID) || !ValidIdentifier(result.deviceSN) {
        awaiting := awaiting - {result.commandID};
        ids := ids - {result.commandID};
        return Corrupt;
      }
      outcome := outbox.EnqueueWithCommit(deploymentID, result, now, p);
      if outcome.Committed? {
        awaiting := awaiting - {result.commandID};
        ids := ids - {result.commandID};
      } else if result.commandID !in awaiting {
        awaiting := awaiting[result.commandID := AwaitingResult(deploymentID, result)];
      }
    }

    /** The commands of a queue that stay, and those that are superseded. */
    method SplitQueue(q: seq<nat>, deploymentID: string, currentCommandID: string, ghost out: set<nat>)
      returns (retained: seq<nat>, dropped: seq<nat>)
      requires Ascending(q)
      requires forall i | i in q :: i in cmds && (i in out <==> Supersedes(cmds[i], deploymentID, currentCommandID))
      ensures retained == Keep(q, out)
      ensures Ascending(dropped) && forall i :: i in dropped <==> i in q && i in out
    {
      retained, dropped := [], [];
      assert q[..0] == [] && SplitSoFar(q, 0, out, retained, dropped);
      hide Ascending, Keep, Supersedes, SplitSoFar;
      for k := 0 to |q|
        invariant SplitSoFar(q, k, out, retained, dropped)
      {
        SplitNext(q, k, out, retained, dropped);
        if Supersedes(cmds[q[k]], deploymentID, currentCommandID) {
          dropped := dropped + [q[k]];
        } else {
          retained := retained + [q[k]];
        }
      }
      SplitWhole(q, out, retained, dropped);
    }

    method SplitDevice(d: string, deploymentID: string, currentCommandID: string, ghost out: set<nat>)
      returns (dropped: seq<nat>)
      requires d in queue && Ascending(queue[d])
      requires forall i | i in queue[d] ::
        i in cmds && (i in out <==> Supersedes(cmds[i], deploymentID, currentCommandID))
      modifies this`queue
      ensures queue == old(queue)[d := Keep(old(queue)[d], out)]
      ensures Ascending(dropped) && forall i :: i in dropped <==> i in old(queue)[d] && i in out
    {
      hide Ascending, Keep, Supersedes;
      var retained;
      retained, dropped := SplitQueue(queue[d], deploymentID, currentCommandID, out);
      queue := queue[d := retained];
    }

    /** The loop over the queues. */
    method SplitQueues(deploymentID: string, currentCommandID: string) returns (removed: seq<nat>)
      requires Shape(View())
      modifies this`queue
      ensures View() == Remove(old(View()), Members(removed))
      ensures TakenOut(old(View()), Superseded(old(View()), deploymentID, currentCommandID), old(queue).Keys, removed)
    {
      ghost var before := View();
      ghost var out := Superseded(before, deploymentID, currentCommandID);
      removed := [];
      var devices := queue.Keys;
      QueuesStart(before, out);
      hide Shape, Superseded, Supersedes, TakenOut, Remove, QueuesSoFar, Ascending, Keep;
      while devices != {}
        invariant QueuesSoFar(before, View(), out, devices, removed)
        decreases |devices|
      {
        var d :| d in devices;
        QueuesAt(before, View(), deploymentID, currentCommandID, devices, removed, d);
        ghost var during := queue;
        var dropped := SplitDevice(d, deploymentID, currentCommandID, out);
        assert queue[d := before.queue[d]] == during;
        QueuesStep(before, View(), out, devices, removed, d, dropped);
        devices := devices - {d};
        removed := removed + dropped;
      }
      QueuesEnd(before, View(), out, removed);
    }

    method DetachIfSuperseded(id: nat, deploymentID: string, currentCommandID: string) returns (removed: bool)
      requires Shape(View()) && IsPending(View(), id)
      modifies this`pending, this`cmds
      ensures removed == Supersedes(old(cmds)[id], deploymentID, currentCommandID)
      ensures View() == if removed then Remove(old(View()), {id}) else old(View())
    {
      removed := Supersedes(cmds[id], deploymentID, currentCommandID);
      if removed {
        removed := DetachExactPendingSecretCommandLocked(id);
      }
    }

    /** The loop over the pending commands; the queued ones are out already. */
    method DetachSuperseded(deploymentID: string, currentCommandID: string, ghost before: Srv, ghost queued: seq<nat>)
      returns (removed: seq<nat>)
      requires Shape(before) && View() == Remove(before, Members(queued))
      requires TakenOut(before, Superseded(before, deploymentID, currentCommandID), before.queue.Keys, queued)
      modifies this`pending, this`cmds
      ensures View() == Remove(before, Members(queued + removed))
      ensures Detached(before, Superseded(before, deploymentID, currentCommandID), before.pending.Keys, removed)
    {
      ghost var out := Superseded(before, deploymentID, currentCommandID);
      removed := [];
      var keys := pending.Keys;
      PendingStart(before, out, queued);
      hide Shape, Superseded, Supersedes, TakenOut, Detached, Remove, PendingSoFar, IsPending;
      while keys != {}
        invariant PendingSoFar(before, View(), out, keys, queued, removed)
        decreases |keys|
      {
        var key :| key in keys;
        PendingAt(before, View(), deploymentID, currentCommandID, keys, queued, removed, key);
        ghost var during := View();
        var id := pending[key];
        var superseded := DetachIfSuperseded(id, deploymentID, currentCommandID);
        PendingStep(before, during, out, keys, queued, removed, key);
        if superseded {
          removed := removed + [id];
        }
        keys := keys - {key};
      }
      PendingEnd(before, View(), out, queued, removed);
    }

    method SupersedeSecretDeployment(deploymentID: string, currentCommandID: string) returns (removed: seq<nat>)
      requires Shape(View())
      modifies this`queue, this`pending, this`cmds
      ensures View() == Remove(old(View()), Superseded(old(View()), deploymentID, currentCommandID))
      ensures forall i :: i in removed <==>
        i in old(cmds) && Waiting(old(View()), i) && old(cmds)[i].order.deploymentID == deploymentID
        && old(cmds)[i].order.commandID != currentCommandID
      ensures forall a, b | 0 <= a < b < |removed| :: removed[a] != removed[b]
      ensures forall i :: Waiting(View(), i) <==> Waiting(old(View()), i) && i !in removed
    {
      ghost var before := View();
      ghost var out := Superseded(before, deploymentID, currentCommandID);
      hide Shape, Superseded, Supersedes, TakenOut, Detached, Remove, Keep, Ascending, PartlySplit, Members, Enumerates;
      hide IsPending, InQueue, QueueOf;
      var queued := SplitQueues(deploymentID, currentCommandID);
      var detached := DetachSuperseded(deploymentID, currentCommandID, before, queued);
      SupersededWait(before, deploymentID, currentCommandID);
      BothLoopsEnumerate(before, out, queued, detached);
      EnumeratedMembers(queued + detached, out);
      removed := queued + detached;
      SupersededGone(before, deploymentID, currentCommandID, removed);
    }

    /** Every queue is emptied; what was in it comes back. */
    method DrainQueues() returns (removed: seq<nat>)
      requires Shape(View())
      modifies this`queue
      ensures View() == old(View()).(queue := map[])
      ensures TakenOut(old(View()), AllWaiting(old(View())), old(queue).Keys, removed)
    {
      ghost var before := View();
      removed := [];
      var devices := queue.Keys;
      DrainStart(before);
      hide Shape, AllWaiting, TakenOut, DrainSoFar;
      while devices != {}
        invariant DrainSoFar(before, View(), devices, removed)
        decreases |devices|
      {
        var d :| d in devices;
        DrainStep(before, View(), devices, removed, d);
        removed := removed + queue[d];
        queue := queue - {d};
        devices := devices - {d};
      }
      DrainEnd(before, View(), removed);
    }

    method FlushPendingBiometricResult(commandID: string, now: int, p: Persist) returns (outcome: EnqueueOutcome)
      requires commandID in awaiting
      modifies this`awaiting, this`ids, outbox
      ensures (View(), outcome) == FlushOne(old(View()), commandID, now, p)
    {
      var waiting := awaiting[commandID];
      outcome := outbox.EnqueueWithCommit(waiting.deploymentID, waiting.result, now, p);
      if outcome.Committed? {
        awaiting := awaiting - {commandID};
        ids := ids - {commandID};
      }
    }

    /** Flushes what could not be stored; the environment decides how each attempt to persist ends. */
    method FlushPendingBiometricResults(now: int, outcomes: string -> Persist)
      returns (flushed: bool, ghost order: seq<string>)
      modifies this`awaiting, this`ids, outbox
      ensures View() == AfterFlush(old(View()), order, now, outcomes)
      ensures Lists(order, old(awaiting).Keys)
      ensures flushed <==> awaiting == map[]
    {
      flushed, order := true, [];
      var todo := awaiting.Keys;
      ghost var before := View();
      ghost var all := todo;
      FlushStart(before, now, outcomes);
      hide FlushSoFar, FlushOne, AfterFlush, Lists;
      while todo != {}
        invariant FlushSoFar(before, View(), todo, order, now, outcomes, flushed)
        decreases |todo|
      {
        var c :| c in todo;
        FlushAt(before, View(), todo, order, now, outcomes, flushed, c);
        ghost var during := View();
        var outcome := FlushPendingBiometricResult(c, now, outcomes(c));
        FlushStep(before, during, todo, order, now, outcomes, flushed, c);
        todo := todo - {c};
        flushed := flushed && outcome.Committed?;
        order := order + [c];
      }
      FlushEnd(before, View(), order, now, outcomes, flushed);
    }

    method ShutdownBiometricDelivery() returns (removed: seq<nat>)
      requires Shape(View())
      modifies this`closed, this`queue, this`pending, this`cmds, this`ids
      ensures old(closed) ==> View() == old(View()) && removed == []
      ensures !old(closed) ==> View() == Shutdown(old(View())) && Enumerates(removed, AllWaiting(old(View())))
    {
      if closed {
        return [];
      }
      ghost var before := View();
      ghost var out := AllWaiting(before);
      hide Shape, AllWaiting, TakenOut, Detached, Remove, Enumerates;
      closed := true;
      ShapeWhenClosed(before);
      var queued := DrainQueues();
      var detached := DetachAll(before, queued);
      AllWait(before);
      BothLoopsEnumerate(before, out, queued, detached);
      EnumeratedMembers(queued + detached, out);
      ids := {};
      removed := queued + detached;
    }

    method DetachCleared(id: nat, ghost view: Srv)
      requires Shape(view) && IsPending(view, id) && View() == Cleared(view)
      modifies this`pending, this`cmds
      ensures View() == Cleared(Remove(view, {id}))
    {
      ClearedDetach(view, id);
      hide Shape, IsPending, Remove;
      var _ := DetachExactPendingSecretCommandLocked(id);
    }

    lemma OwnPending()
      ensures pending == View().pending
    {}

    /** The loop over the pending commands; the queues are empty. */
    method DetachAll(ghost before: Srv, ghost queued: seq<nat>) returns (removed: seq<nat>)
      requires Shape(before) && View() == before.(queue := map[], closed := true)
      requires TakenOut(before, AllWaiting(before), before.queue.Keys, queued)
      modifies this`pending, this`cmds
      ensures View() == Cleared(Remove(before, Members(queued + removed)))
      ensures Detached(before, AllWaiting(before), before.pending.Keys, removed)
    {
      ghost var out := AllWaiting(before);
      ghost var view := Remove(before, Members(queued));
      ClearedStart(before, queued);
      hide Shape, AllWaiting, TakenOut, Detached, Remove, PendingSoFar, IsPending, Cleared, Members;
      removed := [];
      var keys := pending.Keys;
      hide View;
      while keys != {}
        invariant PendingSoFar(before, view, out, keys, queued, removed)
        invariant View() == Cleared(view)
        decreases |keys|
      {
        var key :| key in keys;
        AllPendingAt(before, view, keys, queued, removed, key);
        PendingStep(before, view, out, keys, queued, removed, key);
        assert View().pending == view.pending by { ClearedKeeps(view); }
        assert pending == View().pending by { OwnPending(); }
        var id := pending[key];
        DetachCleared(id, view);
        removed := removed + [id];
        view := Remove(view, {id});
        keys := keys - {key};
      }
      PendingEnd(before, view, out, queued, removed);
    }
  }

  ghost predicate Lists(order: seq<string>, keys: set<string>) {
    (forall c :: c in order <==> c in keys) && forall a, b | 0 <= a < b < |order| :: order[a] != order[b]
  }

  /** The flush has tried every waiting result but those in `todo`. */
  ghost predicate FlushSoFar(before: Srv, view: Srv, todo: set<string>, order: seq<string>, now: int,
                             outcomes: string -> Persist, flushed: bool) {
    && view == AfterFlush(before, order, now, outcomes)
    && todo <= before.awaiting.Keys && todo <= view.awaiting.Keys
    && Lists(order, before.awaiting.Keys - todo)
    && (flushed <==> view.awaiting.Keys == todo)
  }

  lemma FlushStart(srv: Srv, now: int, outcomes: string -> Persist)
    ensures FlushSoFar(srv, srv, srv.awaiting.Keys, [], now, outcomes, true)
  {}

  lemma FlushAt(before: Srv, view: Srv, todo: set<string>, order: seq<string>, now: int, outcomes: string -> Persist,
                flushed: bool, c: string)
    requires FlushSoFar(before, view, todo, order, now, outcomes, flushed) && c in todo
    ensures c in view.awaiting
  {
    hide AfterFlush, Lists;
  }

  lemma FlushedKeys(srv: Srv, c: string, now: int, p: Persist)
    requires c in srv.awaiting
    ensures var (after, outcome) := FlushOne(srv, c, now, p);
      after.awaiting == if outcome.Committed? then srv.awaiting - {c} else srv.awaiting
  {
    hide Enqueue;
  }

  lemma ListsMore(order: seq<string>, all: set<string>, todo: set<string>, c: string)
    requires Lists(order, all - todo) && c in todo && todo <= all
    ensures Lists(order + [c], all - (todo - {c}))
  {
    VisitOne(all, todo, c);
  }

  lemma FlushStep(before: Srv, view: Srv, todo: set<string>, order: seq<string>, now: int, outcomes: string -> Persist,
                  flushed: bool, c: string)
    requires FlushSoFar(before, view, todo, order, now, outcomes, flushed) && c in todo && c in view.awaiting
    ensures var (after, outcome) := FlushOne(view, c, now, outcomes(c));
      FlushSoFar(before, after, todo - {c}, order + [c], now, outcomes, flushed && outcome.Committed?)
  {
    FlushNext(before, view, order, c, now, outcomes);
    FlushedKeys(view, c, now, outcomes(c));
    ListsMore(order, before.awaiting.Keys, todo, c);
    hide AfterFlush, FlushOne, Lists;
    OneLess(view.awaiting.Keys, todo, c);
  }

  lemma OneLess<T>(all: set<T>, todo: set<T>, x: T)
    requires x in todo && todo <= all
    ensures todo - {x} <= all - {x} && todo - {x} <= all && all != todo - {x}
    ensures all - {x} == todo - {x} <==> all == todo
  {
    if all - {x} == todo - {x} {
      assert all == all - {x} + {x} && todo == todo - {x} + {x};
    }
  }

  lemma FlushEnd(before: Srv, view: Srv, order: seq<string>, now: int, outcomes: string -> Persist, flushed: bool)
    requires FlushSoFar(before, view, {}, order, now, outcomes, flushed)
    ensures view == AfterFlush(before, order, now, outcomes) && Lists(order, before.awaiting.Keys)
    ensures flushed <==> view.awaiting == map[]
  {
    assert before.awaiting.Keys - {} == before.awaiting.Keys;
    hide AfterFlush, Lists;
    assert view.awaiting.Keys == {} <==> view.awaiting == map[];
  }

  lemma ShapeWhenClosed(srv: Srv)
    requires Shape(srv)
    ensures Shape(srv.(closed := true))
    ensures AllWaiting(srv.(closed := true)) == AllWaiting(srv)
    ensures forall out, done, removed | TakenOut(srv.(closed := true), out, done, removed) ::
      TakenOut(srv, out, done, removed)
  {
    hide Ascending, AllFor;
    var r := srv.(closed := true);
    forall k | k in r.pending ensures Matches(r, k) { assert Matches(srv, k); }
    forall i ensures InQueue(r, i) == InQueue(srv, i) && IsPending(r, i) == IsPending(srv, i) {}
    hide InQueue, IsPending;
  }

  lemma AllWait(srv: Srv)
    ensures forall i | i in AllWaiting(srv) :: i in srv.cmds && Waiting(srv, i)
  {
    hide Waiting;
  }

  lemma QueuedGone(srv: Srv, queued: seq<nat>)
    requires Shape(srv) && TakenOut(srv, AllWaiting(srv), srv.queue.Keys, queued)
    ensures Remove(srv, Members(queued)).(queue := map[]) == srv.(queue := map[])
  {
    PendingUnqueued(srv, AllWaiting(srv), queued);
    ShapeApart(srv);
    assert forall i | i in queued :: i in srv.cmds && !IsPending(srv, i) by {
      hide Shape, InQueue, IsPending, AllWaiting;
    }
    QueuedAreNotPending(srv, Members(queued));
    RemoveParts(srv, Members(queued));
    hide Shape, Remove, TakenOut;
  }

  lemma AllPendingAt(before: Srv, view: Srv, todo: set<PendingKey>, queued: seq<nat>, removed: seq<nat>,
    key: PendingKey)
    requires Shape(before) && key in todo && PendingSoFar(before, view, AllWaiting(before), todo, queued, removed)
    ensures Shape(view) && key in view.pending && view.pending[key] == key.localID && IsPending(view, key.localID)
    ensures key.localID in view.cmds && key.localID in AllWaiting(before)
  {
    var out := AllWaiting(before);
    PendingUnqueued(before, out, queued);
    VisitOne(before.pending.Keys, todo, key);
    DetachedMore(before, out, before.pending.Keys - todo, removed, key);
    hide TakenOut, Detached, Members;
    NotGone(queued, removed, key.localID);
    Unvisited(before, Members(queued + removed), key);
    RemoveShape(before, Members(queued + removed));
    hide Shape, Remove, IsPending, InQueue;
  }

  lemma FlushNext(srv: Srv, sofar: Srv, order: seq<string>, c: string, now: int, outcomes: string -> Persist)
    requires sofar == AfterFlush(srv, order, now, outcomes) && c in sofar.awaiting
    ensures AfterFlush(srv, order + [c], now, outcomes) == FlushOne(sofar, c, now, outcomes(c)).0
  {
    assert (order + [c])[..|order|] == order;
  }

  lemma AllQueuedWait(srv: Srv, d: string)
    requires Shape(srv) && d in srv.queue
    ensures Ascending(srv.queue[d])
    ensures forall i | i in srv.queue[d] :: i in AllWaiting(srv)
  {
    assert AllFor(srv.cmds, d, srv.queue[d]);
  }

  /** The queues of all devices but those in `todo` are gone. */
  ghost predicate DrainSoFar(before: Srv, view: Srv, todo: set<string>, removed: seq<nat>) {
    && view == before.(queue := view.queue)
    && view.queue.Keys == todo && todo <= before.queue.Keys
    && (forall d | d in todo :: view.queue[d] == before.queue[d])
    && TakenOut(before, AllWaiting(before), before.queue.Keys - todo, removed)
  }

  lemma DrainStart(before: Srv)
    ensures DrainSoFar(before, before, before.queue.Keys, [])
  {
    assert before.queue.Keys - before.queue.Keys == {};
    TakenNone(before, AllWaiting(before));
    hide TakenOut;
  }

  lemma DrainStep(before: Srv, view: Srv, todo: set<string>, removed: seq<nat>, d: string)
    requires Shape(before) && DrainSoFar(before, view, todo, removed) && d in todo
    ensures d in view.queue
    ensures DrainSoFar(before, view.(queue := view.queue - {d}), todo - {d}, removed + view.queue[d])
  {
    VisitOne(before.queue.Keys, todo, d);
    AllQueuedWait(before, d);
    TakenOutMore(before, AllWaiting(before), before.queue.Keys - todo, removed, d, before.queue[d]);
    hide Shape, TakenOut, Ascending, AllWaiting;
  }

  lemma DrainEnd(before: Srv, view: Srv, removed: seq<nat>)
    requires DrainSoFar(before, view, {}, removed)
    ensures view == before.(queue := map[]) && TakenOut(before, AllWaiting(before), before.queue.Keys, removed)
  {
    assert before.queue.Keys - {} == before.queue.Keys;
    hide TakenOut, AllWaiting;
  }

  lemma SpentIs(c: Command, now: int)
    ensures Spent(c, now)
      == (c.serveAttempts >= MAX_SERVE_ATTEMPTS
        || (c.firstServedAt.Some? && now >= c.firstServedAt.value + SERVE_DEADLINE))
  {}

  lemma QueuedExists(srv: Srv, d: string)
    requires Shape(srv) && d in srv.queue
    ensures forall i | i in srv.queue[d] :: i in srv.cmds && srv.cmds[i].order.deviceSN == d
  {
    assert AllFor(srv.cmds, d, srv.queue[d]);
  }

  lemma TheOnlyPending(srv: Srv, key: PendingKey)
    requires Shape(srv) && key in srv.pending
    ensures PendingOf(srv, key.deviceSN) == Some(key.localID)
    ensures srv.pending[key] == key.localID && IsPending(srv, key.localID)
  {
    var k :| k in srv.pending && k.deviceSN == key.deviceSN && PendingOf(srv, key.deviceSN) == Some(k.localID);
    assert k == key;
    assert Matches(srv, key);
    hide Ascending, AllFor, Matches;
  }
}
