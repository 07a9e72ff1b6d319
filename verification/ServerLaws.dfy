/** What each critical section of the server does to the commands, the ids and the results. */
module ServerLaws {
  import opened Identifiers
  import opened ResultOutbox
  import opened SecretServer
  import opened OwnershipInvariant
  import opened OwnershipSteps

  // ---------- reserving an id ----------

  /** An id is granted exactly if it is a UUID, the server is open with a working outbox, nothing holds the id,
      no record of it is stored, fewer than 16 ids are reserved, and ids and records are fewer than 64. */
  lemma ReservationRule(srv: Srv, commandID: string)
    ensures var (after, granted, code) := Reserve(srv, commandID);
      && (granted <==>
            && ValidUUID(commandID) && !srv.closed && !srv.outboxFailed && commandID !in srv.ids
            && (forall r | r in srv.store.records :: r.result.commandID != commandID)
            && |srv.ids| < 16 && |srv.store.records| + |srv.ids| < 64)
      && after == (if granted then srv.(ids := srv.ids + {commandID}) else srv)
      && (granted ==> code == "")
  {
    hide ValidUUID;
    StoredIndex(srv.store.records, commandID);
  }

  lemma StoredIndex(doc: seq<Record>, commandID: string)
    ensures CommandIndex(doc, commandID) == |doc| <==> forall r | r in doc :: r.result.commandID != commandID
  {
    var k := CommandIndex(doc, commandID);
    if k < |doc| { assert doc[k] in doc; }
  }

  /** A refusal tells why, and says nothing about an id that is held or reported already. */
  lemma RefusalCodes(srv: Srv, commandID: string)
    requires !Reserve(srv, commandID).1
    ensures var code := Reserve(srv, commandID).2;
      if !ValidUUID(commandID) then code == "stale_deployment_command"
      else if srv.closed then code == "deployment_cancelled"
      else if srv.outboxFailed then code == "deployment_delivery_unavailable"
      else if commandID in srv.ids || exists r :: r in srv.store.records && r.result.commandID == commandID
      then code == ""
      else code == "network_unavailable"
  {
    hide ValidUUID;
    StoredIndex(srv.store.records, commandID);
  }

  // ---------- queueing ----------

  /** A command is queued exactly if its ids are valid, the server is open and its id is reserved; it comes last
      in the queue of its device, under the next local id, and nothing else changes. */
  lemma QueueingRule(srv: Srv, order: Order, payload: string, lease: int, d: string)
    ensures var (after, outcome) := EnqueueCommand(srv, NewCommand(order, payload, lease));
      var id := srv.cmdID + 1;
      && (outcome.Queued? <==>
            && ValidUUID(order.deploymentID) && ValidUUID(order.commandID) && ValidIdentifier(order.deviceSN)
            && !srv.closed && order.commandID in srv.ids && |srv.ids| <= 16)
      && (!outcome.Queued? ==> after == srv)
      && (outcome.Queued? ==>
            && after.cmdID == id
            && after.cmds == srv.cmds[id := Command(id, order, lease, payload, None, 0, false, false)]
            && QueueOf(after, d) == QueueOf(srv, d) + (if d == order.deviceSN then [id] else [])
            && after == srv.(cmdID := id, cmds := after.cmds, queue := after.queue))
  {
    hide ValidUUID, ValidIdentifier;
  }

  // ---------- claiming ----------

  /** A poll serves the pending command of the device again unless a request is still at it, it was claimed three
      times, or 30 seconds have passed since the first claim. */
  lemma PendingIsServedAgain(srv: Srv, id: nat, now: int)
    requires Shape(srv) && IsPending(srv, id)
    ensures var c := srv.cmds[id];
      var (after, outcome) := ClaimWriter(srv, c.order.deviceSN, now);
      if c.writerActive then outcome == Busy && after == srv
      else if c.serveAttempts < 3 && (c.firstServedAt.Some? ==> now < c.firstServedAt.value + 30_000) then
        outcome == Serve(id)
        && after == srv.(cmds := srv.cmds[id := c.(writerActive := true, serveAttempts := c.serveAttempts + 1)])
      else outcome == Exhausted(id) && after == Remove(srv, {id})
  {
    PendingIs(srv, id);
    hide Shape, PendingOf, IsPending, Remove, QueueOf;
  }

  lemma PendingIs(srv: Srv, id: nat)
    requires Shape(srv) && IsPending(srv, id)
    ensures PendingOf(srv, srv.cmds[id].order.deviceSN) == Some(id)
  {
    var key := PendingKey(srv.cmds[id].order.deviceSN, id);
    var k :| k in srv.pending && k.deviceSN == key.deviceSN && PendingOf(srv, key.deviceSN) == Some(k.localID);
    assert k == key;
    hide Ascending, AllFor, Matches;
  }

  /** A poll of a device with nothing pending claims the oldest queued command, for the first time, and leaves
      the others in line. */
  lemma OldestIsServedFirst(srv: Srv, d: string, now: int)
    requires Shape(srv) && forall k | k in srv.pending :: k.deviceSN != d
    ensures var (after, outcome) := ClaimWriter(srv, d, now);
      var q := QueueOf(srv, d);
      if q == [] then outcome == Idle && after == srv
      else
        && outcome == Serve(q[0]) && q[0] in srv.cmds && IsPending(after, q[0])
        && (forall i | i in q :: q[0] <= i)
        && after.cmds == srv.cmds[q[0] :=
             srv.cmds[q[0]].(firstServedAt := Some(now), serveAttempts := 1, writerActive := true)]
        && after.pending == srv.pending[PendingKey(d, q[0]) := q[0]]
        && QueueOf(after, d) == q[1..]
        && (forall e | e != d :: QueueOf(after, e) == QueueOf(srv, e))
        && after == srv.(queue := after.queue, pending := after.pending, cmds := after.cmds)
  {
    var q := QueueOf(srv, d);
    if q != [] { assert Ascending(q) && AllFor(srv.cmds, d, q); }
    hide Shape, AllFor, Spent, Remove;
  }

  // ---------- writing ----------

  /** The bytes go out exactly if the command is still pending with this request and keeps its payload; a request
      that finds the payload gone gives the command up. */
  lemma WritingRule(srv: Srv, id: nat)
    ensures var (after, begins) := BeginWrite(srv, id);
      && (begins <==> IsPending(srv, id) && srv.cmds[id].writerActive && srv.cmds[id].payload != "")
      && after == if IsPending(srv, id) && srv.cmds[id].writerActive && !begins
                  then srv.(cmds := srv.cmds[id := srv.cmds[id].(writerActive := false)]) else srv
  {
    hide IsPending;
  }

  /** Giving up and having served free the command for the next poll, while it is pending. */
  lemma FreeingRule(srv: Srv, id: nat)
    ensures ReleaseWriter(srv, id) ==
      if IsPending(srv, id) then srv.(cmds := srv.cmds[id := srv.cmds[id].(writerActive := false)]) else srv
    ensures MarkServed(srv, id) ==
      if IsPending(srv, id) then srv.(cmds := srv.cmds[id := srv.cmds[id].(writerActive := false, served := true)])
      else srv
    ensures id in srv.cmds ==> ZeroPayload(srv, id) == srv.(cmds := srv.cmds[id := srv.cmds[id].(payload := "")])
  {
    hide IsPending;
  }

  // ---------- ending ----------

  /** An acknowledgement ends the pending command of that device and local id, but no deletion that was not
      written; the report is made of the order and the return code. */
  lemma AcknowledgementRule(srv: Srv, d: string, localID: nat, returnCode: int)
    requires Shape(srv)
    ensures var c := if localID in srv.cmds then Some(srv.cmds[localID]) else None;
      Completion(srv, PendingKey(d, localID), returnCode) ==
        if c.None? || c.value.order.deviceSN != d || !IsPending(srv, localID)
          || (c.value.order.operation == "delete" && !c.value.served) then None
        else Some(Result(c.value.order.operation, if returnCode == 0 then "applied" else "failed", d,
                         c.value.order.sha256, if returnCode == 0 then "" else "device_command_failed",
                         c.value.order.commandID, c.value.order.attempt, c.value.order.vaultAssetID, returnCode))
  {
    if PendingKey(d, localID) in srv.pending { assert Matches(srv, PendingKey(d, localID)); }
    hide Shape, Ascending, AllFor, Matches;
  }

  /** Taking commands out ends their waiting, keeps the others in their order, and stops the requests at them. */
  lemma TakingOut(srv: Srv, out: set<nat>, d: string, i: nat)
    requires Shape(srv)
    ensures var after := Remove(srv, out);
      && (Waiting(after, i) <==> Waiting(srv, i) && i !in out)
      && (IsPending(after, i) <==> IsPending(srv, i) && i !in out)
      && Ascending(QueueOf(after, d)) && (forall j :: j in QueueOf(after, d) <==> j in QueueOf(srv, d) && j !in out)
      && after.cmds.Keys == srv.cmds.Keys
      && (i in srv.cmds ==>
            after.cmds[i] == if i in out && IsPending(srv, i) then srv.cmds[i].(writerActive := false) else srv.cmds[i])
      && after == srv.(queue := after.queue, pending := after.pending, cmds := after.cmds)
  {
    RemoveMembers(srv, out);
    RemoveQueues(srv, out);
    hide Shape, Keep, AllFor, InQueue;
  }

  /** A supersession takes out exactly the waiting commands of the deployment that have another id. */
  lemma SupersededAre(srv: Srv, deploymentID: string, currentCommandID: string)
    ensures forall i :: i in Superseded(srv, deploymentID, currentCommandID) <==>
      i in srv.cmds && Waiting(srv, i) && srv.cmds[i].order.deploymentID == deploymentID
      && srv.cmds[i].order.commandID != currentCommandID
  {
    hide Waiting;
  }

  /** A shutdown closes the server and leaves no command waiting and no id reserved; results that wait to be
      stored, and the stored ones, stay. */
  lemma ShutdownRule(srv: Srv, i: nat)
    requires Shape(srv)
    ensures var after := Shutdown(srv);
      && after.closed && after.ids == {} && after.queue == map[] && after.pending == map[]
      && !Waiting(after, i)
      && after.cmds.Keys == srv.cmds.Keys
      && (i in srv.cmds ==>
            after.cmds[i] == if IsPending(srv, i) then srv.cmds[i].(writerActive := false) else srv.cmds[i])
      && after == srv.(closed := true, ids := {}, queue := map[], pending := map[], cmds := after.cmds)
  {
    TakingOut(srv, AllWaiting(srv), "", i);
    AllPendingOut(srv);
    assert i in srv.cmds ==> (i in AllWaiting(srv) <==> Waiting(srv, i));
    hide Shape, Remove, AllWaiting;
  }

  // ---------- results ----------

  /** A result that is stored frees its id; one that is not waits, and the first one that waits stays. A result
      without valid ids is given up together with its id. */
  lemma HandingOverRule(srv: Srv, deploymentID: string, result: Result, now: int, p: Persist)
    ensures var (after, outcome) := EnqueueResult(srv, deploymentID, result, now, p);
      var c := result.commandID;
      if !ValidUUID(deploymentID) || !ValidUUID(c) || !ValidIdentifier(result.deviceSN) then
        outcome == Corrupt && after == srv.(ids := srv.ids - {c}, awaiting := srv.awaiting - {c})
      else
        && (after.store, outcome) == Enqueue(srv.store, deploymentID, result, now, p)
        && after.ids == (if outcome.Committed? then srv.ids - {c} else srv.ids)
        && after.awaiting ==
             (if outcome.Committed? then srv.awaiting - {c}
              else if c in srv.awaiting then srv.awaiting
              else srv.awaiting[c := AwaitingResult(deploymentID, result)])
        && after == srv.(store := after.store, ids := after.ids, awaiting := after.awaiting)
  {
    hide ValidUUID, ValidIdentifier, Enqueue;
  }

  /** A flush that stores a waiting result frees its id; one that does not leaves it waiting. */
  lemma FlushRule(srv: Srv, c: string, now: int, p: Persist)
    requires c in srv.awaiting
    ensures var (after, outcome) := FlushOne(srv, c, now, p);
      && (after.store, outcome) ==
           Enqueue(srv.store, srv.awaiting[c].deploymentID, srv.awaiting[c].result, now, p)
      && after == if outcome.Committed? then
                    srv.(store := after.store, ids := srv.ids - {c}, awaiting := srv.awaiting - {c})
                  else srv.(store := after.store)
  {
    hide Enqueue;
  }
}
