/** The state that the secret command lifecycle shares under the server lock.

    `Srv` is that state as a value and the functions below are its critical sections.
    `Server` in ServerObject is the mutable object whose loops are proved against those functions. */
module SecretServer {
  import opened Identifiers
  import opened ResultOutbox
  import opened Claims

  const MAX_COMMANDS := 16
  const MAX_SERVE_ATTEMPTS := 3
  const SERVE_DEADLINE := 30_000
  const WRITE_TIMEOUT := 20_000

  /** What the cloud asked for; it never changes. */
  datatype Order = Order(
    deviceSN: string,
    deploymentID: string,
    commandID: string,
    operation: string,
    attempt: int,
    vaultAssetID: string,
    sha256: string,
    personnelID: string,
    kind: string,
    bioType: int,
    slotIndex: int)
  {
    function Reported(status: string, errorCode: string, returnCode: int): Result {
      Result(operation, status, deviceSN, sha256, errorCode, commandID, attempt, vaultAssetID, returnCode)
    }
  }

  /** A command in the queue or with a scanner; its local id is its identity. */
  datatype Command = Command(
    id: nat,
    order: Order,
    leaseExpiresAt: int,
    payload: string,
    firstServedAt: Option<int>,
    serveAttempts: nat,
    writerActive: bool,
    served: bool)
  {
    /** The claim that a recheck before serving has to match. */
    function Expected(): Deletion {
      Deletion("delete", order.deploymentID, order.commandID, order.attempt, leaseExpiresAt, order.deviceSN,
               order.personnelID, order.vaultAssetID, order.kind, order.bioType, order.slotIndex)
    }
  }

  function NewCommand(order: Order, payload: string, lease: int): Command {
    Command(0, order, lease, payload, None, 0, false, false)
  }

  datatype PendingKey = PendingKey(deviceSN: string, localID: nat)

  datatype AwaitingResult = AwaitingResult(deploymentID: string, result: Result)

  datatype Srv = Srv(
    closed: bool,
    outboxFailed: bool,
    cmdID: nat,
    ids: set<string>,
    queue: map<string, seq<nat>>,
    pending: map<PendingKey, nat>,
    cmds: map<nat, Command>,
    awaiting: map<string, AwaitingResult>,
    store: Store)

  datatype QueueOutcome = Queued | Closed | NoReservation

  datatype ClaimOutcome = Idle | Busy | Exhausted(id: nat) | Serve(id: nat)

  // ---------- reading the state ----------

  function QueueOf(srv: Srv, deviceSN: string): seq<nat> {
    if deviceSN in srv.queue then srv.queue[deviceSN] else []
  }

  predicate InQueue(srv: Srv, id: nat) {
    id in srv.cmds && id in QueueOf(srv, srv.cmds[id].order.deviceSN)
  }

  predicate IsPending(srv: Srv, id: nat) {
    id in srv.cmds && PendingKey(srv.cmds[id].order.deviceSN, id) in srv.pending
  }

  predicate Waiting(srv: Srv, id: nat) { InQueue(srv, id) || IsPending(srv, id) }

  ghost predicate Ascending(q: seq<nat>) {
    forall a, b | 0 <= a < b < |q| :: q[a] < q[b]
  }

  ghost predicate OlderThanAll(id: nat, q: seq<nat>) {
    forall i | i in q :: id < i
  }

  ghost predicate AllFor(cmds: map<nat, Command>, deviceSN: string, q: seq<nat>) {
    forall i | i in q :: i in cmds && cmds[i].order.deviceSN == deviceSN
  }

  ghost predicate Matches(srv: Srv, key: PendingKey) {
    && key in srv.pending
    && srv.pending[key] == key.localID
    && key.localID in srv.cmds
    && srv.cmds[key.localID].order.deviceSN == key.deviceSN
    && OlderThanAll(key.localID, QueueOf(srv, key.deviceSN))
  }

  /** Keys agree with commands, queues ascend, and a device has one pending command, older
      than all it has queued. */
  ghost predicate Shape(srv: Srv) {
    && (forall i | i in srv.cmds :: 0 < i <= srv.cmdID && srv.cmds[i].id == i)
    && (forall d | d in srv.queue :: Ascending(srv.queue[d]) && AllFor(srv.cmds, d, srv.queue[d]))
    && (forall k | k in srv.pending :: Matches(srv, k))
    && (forall k, l | k in srv.pending && l in srv.pending && k.deviceSN == l.deviceSN :: k == l)
  }

  // ---------- the critical sections ----------

  function Reserve(srv: Srv, commandID: string): (Srv, bool, string) {
    if !ValidUUID(commandID) then (srv, false, "stale_deployment_command")
    else if srv.closed then (srv, false, "deployment_cancelled")
    else if srv.outboxFailed then (srv, false, "deployment_delivery_unavailable")
    else if commandID in srv.ids then (srv, false, "")
    else
      var (waiting, capacity) := Admission(srv.store, commandID, |srv.ids|);
      if waiting then (srv, false, "")
      else if !capacity || |srv.ids| >= MAX_COMMANDS then (srv, false, "network_unavailable")
      else (srv.(ids := srv.ids + {commandID}), true, "")
  }

  function Release(srv: Srv, commandID: string): Srv {
    srv.(ids := srv.ids - {commandID})
  }

  function EnqueueCommand(srv: Srv, command: Command): (Srv, QueueOutcome) {
    if !ValidUUID(command.order.deploymentID) || !ValidUUID(command.order.commandID)
      || !ValidIdentifier(command.order.deviceSN)
       || srv.closed then (srv, Closed)
    else if command.order.commandID !in srv.ids || |srv.ids| > MAX_COMMANDS then (srv, NoReservation)
    else
      var id := srv.cmdID + 1;
      (srv.(cmdID := id,
            cmds := srv.cmds[id := command.(id := id)],
            queue := srv.queue[command.order.deviceSN := QueueOf(srv, command.order.deviceSN) + [id]]),
       Queued)
  }

  /** A sequence without the members of a set, in its own order. */
  function Keep(q: seq<nat>, out: set<nat>): (r: seq<nat>)
    ensures forall i :: i in r <==> i in q && i !in out
  {
    if q == [] then [] else (if q[0] in out then [] else [q[0]]) + Keep(q[1..], out)
  }

  /** Takes commands out of every queue and detaches those that are pending. */
  function Remove(srv: Srv, out: set<nat>): Srv {
    srv.(queue := map d | d in srv.queue :: Keep(srv.queue[d], out),
         pending := map k | k in srv.pending && srv.pending[k] !in out :: srv.pending[k],
         cmds := map i | i in srv.cmds ::
           if i in out && PendingKey(srv.cmds[i].order.deviceSN, i) in srv.pending
           then srv.cmds[i].(writerActive := false) else srv.cmds[i])
  }

  predicate Supersedes(c: Command, deploymentID: string, currentCommandID: string) {
    c.order.deploymentID == deploymentID && c.order.commandID != currentCommandID
  }

  function Superseded(srv: Srv, deploymentID: string, currentCommandID: string): set<nat> {
    set i | i in srv.cmds && Waiting(srv, i) && Supersedes(srv.cmds[i], deploymentID, currentCommandID)
  }

  /** The pending command of a device, whichever a map iteration meets first. */
  ghost function PendingOf(srv: Srv, deviceSN: string): Option<nat> {
    if k :| k in srv.pending && k.deviceSN == deviceSN then Some(k.localID) else None
  }

  predicate Spent(c: Command, now: int) {
    || c.serveAttempts >= MAX_SERVE_ATTEMPTS
    || (c.firstServedAt.Some? && now >= c.firstServedAt.value + SERVE_DEADLINE)
  }

  ghost function ClaimWriter(srv: Srv, deviceSN: string, now: int): (Srv, ClaimOutcome)
    requires Shape(srv)
  {
    match PendingOf(srv, deviceSN)
    case Some(id) =>
      var c := srv.cmds[id];
      if c.writerActive then (srv, Busy)
      else if Spent(c, now) then (Remove(srv, {id}), Exhausted(id))
      else (srv.(cmds := srv.cmds[id := c.(writerActive := true, serveAttempts := c.serveAttempts + 1)]), Serve(id))
    case None =>
      var q := QueueOf(srv, deviceSN);
      if q == [] then (srv, Idle) else (TakeFirst(srv, deviceSN, now), Serve(q[0]))
  }

  /** The oldest queued command of a device becomes its pending one. */
  function TakeFirst(srv: Srv, deviceSN: string, now: int): Srv
    requires Shape(srv) && QueueOf(srv, deviceSN) != []
  {
    var q := QueueOf(srv, deviceSN);
    var c := srv.cmds[q[0]];
    srv.(queue := srv.queue[deviceSN := q[1..]],
         pending := srv.pending[PendingKey(deviceSN, q[0]) := q[0]],
         cmds := srv.cmds[q[0] := c.(firstServedAt := Some(now), serveAttempts := 1, writerActive := true)])
  }

  /** The check made with the payload lock held, just before the bytes go out. */
  function BeginWrite(srv: Srv, id: nat): (Srv, bool) {
    if !IsPending(srv, id) || !srv.cmds[id].writerActive then (srv, false)
    else if srv.cmds[id].payload == "" then (ReleaseWriter(srv, id), false)
    else (srv, true)
  }

  function ReleaseWriter(srv: Srv, id: nat): Srv {
    if !IsPending(srv, id) then srv
    else srv.(cmds := srv.cmds[id := srv.cmds[id].(writerActive := false)])
  }

  function MarkServed(srv: Srv, id: nat): Srv {
    if !IsPending(srv, id) then srv
    else srv.(cmds := srv.cmds[id := srv.cmds[id].(writerActive := false, served := true)])
  }

  function ZeroPayload(srv: Srv, id: nat): Srv {
    if id !in srv.cmds then srv else srv.(cmds := srv.cmds[id := srv.cmds[id].(payload := "")])
  }

  /** Whether an acknowledgement ends the command, and with which result. */
  function Completion(srv: Srv, key: PendingKey, returnCode: int): Option<Result> {
    if key !in srv.pending || srv.pending[key] !in srv.cmds then None
    else
      var c := srv.cmds[srv.pending[key]];
      if c.order.operation == "delete" && !c.served then None
      else if returnCode == 0 then Some(c.order.Reported("applied", "", 0))
      else Some(c.order.Reported("failed", "device_command_failed", returnCode))
  }

  function Forget(srv: Srv, commandID: string): Srv {
    srv.(ids := srv.ids - {commandID}, awaiting := srv.awaiting - {commandID})
  }

  function EnqueueResult(srv: Srv, deploymentID: string, result: Result, now: int, p: Persist): (Srv, EnqueueOutcome) {
    if !ValidUUID(deploymentID) || !ValidUUID(result.commandID) || !ValidIdentifier(result.deviceSN) then
      (Forget(srv, result.commandID), Corrupt)
    else
      var (store, outcome) := Enqueue(srv.store, deploymentID, result, now, p);
      var after := srv.(store := store);
      if outcome.Committed? then (Forget(after, result.commandID), outcome)
      else if result.commandID in srv.awaiting then (after, outcome)
      else (after.(awaiting := srv.awaiting[result.commandID := AwaitingResult(deploymentID, result)]), outcome)
  }

  function FlushOne(srv: Srv, commandID: string, now: int, p: Persist): (Srv, EnqueueOutcome)
    requires commandID in srv.awaiting
  {
    var waiting := srv.awaiting[commandID];
    var (store, outcome) := Enqueue(srv.store, waiting.deploymentID, waiting.result, now, p);
    var after := srv.(store := store);
    (if outcome.Committed? then Forget(after, commandID) else after, outcome)
  }

  function Members(out: seq<nat>): set<nat> { set i | i in out }

  predicate Enumerates(out: seq<nat>, ids: set<nat>) {
    Members(out) == ids && forall a, b | 0 <= a < b < |out| :: out[a] != out[b]
  }

  function AllWaiting(srv: Srv): set<nat> {
    set i | i in srv.cmds && Waiting(srv, i)
  }

  function Shutdown(srv: Srv): Srv {
    Remove(srv, AllWaiting(srv)).(queue := map[], closed := true, ids := {})
  }
}
