/** Every interleaving of the secret command lifecycle.

    `System` adds to the shared state the goroutines that are between two critical sections:
    processes, terminators, writers and the outbox worker, and a history of what happened.
    A `Step` is one critical section, or one action of the cloud, a scanner or a timer. */
module Lifecycle {
  import opened Identifiers
  import Text
  import opened ResultOutbox
  import opened Claims
  import opened SecretServer

  /** What a process does with an id it reserved. */
  datatype Stage =
    | Started
    | Ordered(order: Order)
    | Superseding(order: Order)
    | Abandoned

  /** Who will release a reserved id. */
  datatype Owner =
    | Processing(stage: Stage)
    | Holding(id: nat)
    | Owing(origin: Option<nat>)

  /** Why a command left: a result to report, nothing to report, or a shutdown. */
  datatype Ending = Report(result: Result) | Discard | Drop

  /** A command that was detached; its payload is zeroed before anything is reported. */
  datatype Terminator = Terminator(ending: Ending, zeroed: bool)

  datatype Writer =
    | Checking
    | Rechecking
    | Leased(lease: int)
    | Rechecked(lease: int)
    | Ready
    | Writing(sent: string)

  datatype Worker = Resting | Posting(record: Record) | Settled(record: Record) | Refused(record: Record) | Stopped

  datatype Fate = Applied | Failed | Discarded

  datatype Exit = Exit(id: nat, fate: Fate)

  datatype ServeClaim = ServeClaim(id: nat, deviceSN: string, attempt: nat, at: int)

  datatype Commit = Commit(origin: Option<nat>, deploymentID: string, result: Result)

  /** What a deletion has to go through, in the order it happens. */
  datatype Milestone =
    | ClaimMatched(id: nat, claim: Deletion)
    | LeaseHeld(id: nat, lease: int, at: int)
    | DeviceMatched(id: nat)
    | FullyWritten(id: nat, bytes: string)
    | Acknowledged(id: nat, returnCode: int)

  datatype System = System(
    srv: Srv,
    owner: map<string, Owner>,
    terms: map<nat, Terminator>,
    writers: map<nat, Writer>,
    worker: Worker,
    now: int,
    // history
    original: map<nat, string>,
    owed: set<(string, Result)>,
    exits: seq<Exit>,
    claims: seq<ServeClaim>,
    commits: seq<Commit>,
    trail: seq<Milestone>)

  datatype CloudClaim = ToDeploy(deployment: Deployment) | ToDelete(deletion: Deletion)

  datatype RecheckAnswer = NoAnswer(code: string) | Answer(claim: Option<Deletion>)

  /** What the process that reserved an id does. */
  datatype ProcessStep =
    | ReserveID
    | CloudClaims(claim: CloudClaim)
    | SupersedeOthers(out: seq<nat>)
    | ReportFailure(code: string, p: Persist)
    | QueueCommand(payload: string, lease: int)
    | ReleaseID

  /** What the request that claimed a command does to serve it. */
  datatype WriterStep =
    | CheckDevice(code: string)
    | RecheckClaim(answer: RecheckAnswer)
    | CheckLease
    | RecheckDevice(code: string)
    | StartWrite
    | WriteSome(upTo: nat)
    | FinishWrite
    | BreakWrite(timeout: bool)

  /** What ends a command. */
  datatype EndingStep =
    | PreServeTimer
    | DeadlineTimer
    | Zero
    | EndCommand(p: Persist)

  /** What moves results out. */
  datatype OutboxStep =
    | Flush(commandID: string, p: Persist)
    | PickRecord(record: Record)
    | CloudAnswers(settled: bool)
    | DropRecord(p: Persist)
    | PostponeRecord(p: Persist)

  datatype Step =
    | Tick(elapsed: nat)
    | Process(commandID: string, act: ProcessStep)
    | Poll(deviceSN: string)
    | Serving(id: nat, does: WriterStep)
    | Ack(deviceSN: string, localID: nat, returnCode: int)
    | EndingOf(id: nat, ends: EndingStep)
    | Delivery(part: OutboxStep)
    | CloseServer(out: seq<nat>)

  // ---------- shared pieces ----------

  function Wire(id: nat, payload: string): string { "C:" + Text.Decimal(id) + ":" + payload }

  function FateOf(e: Ending): Fate {
    if !e.Report? then Discarded else if e.result.status == "applied" then Applied else Failed
  }

  predicate Live(s: System, id: nat) { Waiting(s.srv, id) }

  /** Commands whose id is still reserved on their behalf. */
  predicate Held(s: System, id: nat) {
    Live(s, id) || (id in s.terms && !s.terms[id].ending.Drop?)
  }

  /** Some commands leave at once, all for the same reason. */
  function Leave(s: System, out: seq<nat>, ending: Ending): System {
    s.(srv := Remove(s.srv, Members(out)),
       terms := s.terms + map i | i in out :: Terminator(ending, false),
       exits := s.exits + seq(|out|, k requires 0 <= k < |out| => Exit(out[k], FateOf(ending))))
  }

  /** enqueueBiometricResultLocked, with the bookkeeping of who owns the id afterwards. */
  function SendResult(s: System, origin: Option<nat>, deploymentID: string, result: Result, p: Persist): System {
    var (srv, outcome) := EnqueueResult(s.srv, deploymentID, result, s.now, p);
    if outcome.Committed? then CommitTo(s, srv, origin, deploymentID, result)
    else if outcome.Corrupt? && result.commandID !in srv.awaiting then
      s.(srv := srv, owner := s.owner - {result.commandID})
    else s.(srv := srv, owner := s.owner[result.commandID := Owing(origin)])
  }

  function CommitTo(s: System, srv: Srv, origin: Option<nat>, deploymentID: string, result: Result): System {
    s.(srv := srv,
       owner := s.owner - {result.commandID},
       owed := s.owed + {(deploymentID, result)},
       commits := s.commits + [Commit(origin, deploymentID, result)])
  }

  function EndWriter(s: System, id: nat): System { s.(writers := s.writers - {id}) }

  // ---------- processes ----------

  function OrderOf(claim: CloudClaim): Order {
    match claim
    case ToDeploy(c) =>
      Order(c.deviceSN, c.deploymentID, c.commandID, "", 0, "", c.asset.sha256, c.personnelID,
            c.asset.kind, c.asset.bioType, c.asset.slotIndex)
    case ToDelete(c) =>
      Order(c.deviceSN, c.deploymentID, c.commandID, "delete", c.attempt, c.vaultAssetID, "", c.personnelID,
            c.kind, c.bioType, c.slotIndex)
  }

  /** The validators of claimed work, for the deployment and device the process was started with. */
  predicate ValidClaim(claim: CloudClaim, commandID: string, now: int) {
    match claim
    case ToDeploy(c) =>
      ValidUUID(c.deploymentID) && ValidIdentifier(c.deviceSN) && c.commandID == commandID
      && ValidDeployment(c, c.deploymentID, c.deviceSN)
    case ToDelete(c) =>
      ValidUUID(c.deploymentID) && ValidIdentifier(c.deviceSN) && c.commandID == commandID
      && ValidDeletion(c, c.deploymentID, c.deviceSN) && c.leaseExpiresAt > now
  }

  predicate InStage(s: System, commandID: string) {
    commandID in s.owner && s.owner[commandID].Processing?
  }

  function SetStage(s: System, commandID: string, stage: Stage): System {
    s.(owner := s.owner[commandID := Processing(stage)])
  }

  function Reserved(s: System, commandID: string): System {
    var (srv, ok, _) := Reserve(s.srv, commandID);
    if ok then s.(srv := srv, owner := s.owner[commandID := Processing(Started)]) else s
  }

  function Released(s: System, commandID: string): System {
    s.(srv := Release(s.srv, commandID), owner := s.owner - {commandID})
  }

  /** Success hands the id over to the command; any other outcome leaves it to the deferred release. */
  function Queue(s: System, commandID: string, payload: string, lease: int): System
    requires InStage(s, commandID) && s.owner[commandID].stage.Superseding?
  {
    var command := NewCommand(s.owner[commandID].stage.order, payload, lease);
    var (srv, outcome) := EnqueueCommand(s.srv, command);
    if outcome.Queued? then
      s.(srv := srv,
         owner := s.owner[commandID := Holding(srv.cmdID)],
         original := s.original[srv.cmdID := payload])
    else SetStage(s, commandID, Abandoned)
  }

  // ---------- serving ----------

  ghost function Polled(s: System, deviceSN: string): System
    requires Shape(s.srv)
  {
    var (srv, outcome) := ClaimWriter(s.srv, deviceSN, s.now);
    match outcome
    case Idle => s
    case Busy => s
    case Exhausted(id) => Leave(s, [id], Report(NetworkFailure(s, id)))
    case Serve(id) =>
      s.(srv := srv,
         writers := s.writers[id := Checking],
         claims := s.claims + [ServeClaim(id, deviceSN, srv.cmds[id].serveAttempts, s.now)])
  }

  function NetworkFailure(s: System, id: nat): Result
    requires id in s.srv.cmds
  {
    s.srv.cmds[id].order.Reported("failed", "network_unavailable", -1)
  }

  /** The compatibility check made for every command that is claimed. */
  function Checked(s: System, id: nat, code: string): System
    requires id in s.srv.cmds
  {
    if code != "" then EndWriter(FailServed(s, id, code), id)
    else s.(writers := s.writers[id := if s.srv.cmds[id].order.operation == "delete" then Rechecking else Ready])
  }

  /** failServedSecretCommand: only the one that detaches the command reports it. */
  function FailServed(s: System, id: nat, code: string): System
    requires id in s.srv.cmds
  {
    if IsPending(s.srv, id) then Leave(s, [id], Report(s.srv.cmds[id].order.Reported("failed", code, -1))) else s
  }

  function DiscardServed(s: System, id: nat): System {
    if IsPending(s.srv, id) then Leave(s, [id], Discard) else s
  }

  /** claimBiometricDeletion followed by the comparison with what the command was queued for. */
  function RecheckCode(c: Command, answer: RecheckAnswer, now: int): string {
    match answer
    case NoAnswer(code) => code
    case Answer(None) => "stale_deployment_attempt"
    case Answer(Some(claim)) =>
      if claim.commandID != c.order.commandID then "stale_deployment_command"
      else if !ValidDeletion(claim, c.order.deploymentID, c.order.deviceSN) || claim.leaseExpiresAt <= now
        then "invalid_deployment_claim"
      else if claim.attempt != c.order.attempt || claim.vaultAssetID != c.order.vaultAssetID
        then "stale_deployment_attempt"
      else if !SameDeletion(c.Expected(), claim) then "stale_deployment_attempt"
      else ""
  }

  function Recheck(s: System, id: nat, answer: RecheckAnswer): System
    requires id in s.srv.cmds
  {
    var code := RecheckCode(s.srv.cmds[id], answer, s.now);
    if code == "network_unavailable" || code == "deployment_claim_failed" then
      EndWriter(s.(srv := ReleaseWriter(s.srv, id)), id)
    else if code != "" || answer.NoAnswer? then EndWriter(DiscardServed(s, id), id)
    else
      s.(writers := s.writers[id := Leased(answer.claim.value.leaseExpiresAt)],
         trail := s.trail + [ClaimMatched(id, answer.claim.value)])
  }

  predicate LeaseBoundsWrite(lease: int, now: int) { lease > 0 && lease > now + WRITE_TIMEOUT }

  function Lease(s: System, id: nat): System
    requires id in s.writers && s.writers[id].Leased?
  {
    var lease := s.writers[id].lease;
    if !LeaseBoundsWrite(lease, s.now) then EndWriter(s.(srv := ReleaseWriter(s.srv, id)), id)
    else s.(writers := s.writers[id := Rechecked(lease)], trail := s.trail + [LeaseHeld(id, lease, s.now)])
  }

  function Recompat(s: System, id: nat, code: string): System
    requires id in s.writers && s.writers[id].Rechecked? && id in s.srv.cmds
  {
    if code != "" then EndWriter(FailServed(s, id, code), id)
    else
      s.(srv := s.srv.(cmds := s.srv.cmds[id := s.srv.cmds[id].(leaseExpiresAt := s.writers[id].lease)]),
         writers := s.writers[id := Ready],
         trail := s.trail + [DeviceMatched(id)])
  }

  function Begin(s: System, id: nat): System {
    var (srv, ok) := BeginWrite(s.srv, id);
    if ok then s.(writers := s.writers[id := Writing("")]) else EndWriter(s.(srv := srv), id)
  }

  /** The write call copies from the payload buffer while it runs. */
  function Advance(s: System, id: nat, upTo: nat): System
    requires id in s.srv.cmds
  {
    var wire := Wire(id, s.srv.cmds[id].payload);
    if upTo <= |wire| && id in s.writers && s.writers[id].Writing? && |s.writers[id].sent| <= upTo
    then s.(writers := s.writers[id := Writing(s.writers[id].sent + wire[|s.writers[id].sent|..upTo])])
    else s
  }

  function Complete(s: System, id: nat): System
    requires id in s.writers && s.writers[id].Writing?
  {
    EndWriter(s.(srv := MarkServed(s.srv, id), trail := s.trail + [FullyWritten(id, s.writers[id].sent)]), id)
  }

  /** A write that timed out fails the command; one that broke leaves it to the next poll. */
  function Broken(s: System, id: nat, timeout: bool): System
    requires id in s.srv.cmds
  {
    if timeout then EndWriter(FailServed(s, id, "network_unavailable"), id)
    else EndWriter(s.(srv := ReleaseWriter(s.srv, id)), id)
  }

  function Acked(s: System, key: PendingKey, returnCode: int): System {
    match Completion(s.srv, key, returnCode)
    case None => s
    case Some(result) =>
      var id := s.srv.pending[key];
      Leave(s, [id], Report(result)).(trail := s.trail + [Acknowledged(id, returnCode)])
  }

  // ---------- endings ----------

  /** zeroPayload takes the payload lock, so it waits for a running write. */
  function Zeroed(s: System, id: nat): System
    requires id in s.terms
  {
    s.(srv := ZeroPayload(s.srv, id), terms := s.terms[id := s.terms[id].(zeroed := true)])
  }

  function Ended(s: System, id: nat, p: Persist): System
    requires id in s.terms && id in s.srv.cmds
  {
    var t := s.(terms := s.terms - {id});
    var c := s.srv.cmds[id];
    match s.terms[id].ending
    case Drop => t
    case Discard => t.(srv := Release(s.srv, c.order.commandID), owner := s.owner - {c.order.commandID})
    case Report(result) => SendResult(t, Some(id), c.order.deploymentID, result, p)
  }

  function Flushed(s: System, commandID: string, p: Persist): System
    requires commandID in s.srv.awaiting && commandID in s.owner && s.owner[commandID].Owing?
  {
    var (srv, outcome) := FlushOne(s.srv, commandID, s.now, p);
    var waiting := s.srv.awaiting[commandID];
    if outcome.Committed? then CommitTo(s, srv, s.owner[commandID].origin, waiting.deploymentID, waiting.result)
    else s.(srv := srv)
  }

  // ---------- the outbox worker ----------

  function Dropped(s: System, p: Persist): System
    requires s.worker.Settled?
  {
    var (store, ok) := Delete(s.srv.store, s.worker.record.deploymentID, s.worker.record.result.commandID, p);
    WorkerDone(s, store, ok)
  }

  function Postponed(s: System, p: Persist): System
    requires s.worker.Refused?
  {
    var (store, ok) := Retry(s.srv.store, s.worker.record.deploymentID, s.worker.record.result.commandID, s.now, p);
    WorkerDone(s, store, ok)
  }

  function WorkerDone(s: System, store: Store, ok: bool): System {
    s.(srv := s.srv.(store := store, outboxFailed := s.srv.outboxFailed || !ok),
       worker := if ok then Resting else Stopped)
  }

  function Closing(s: System, out: seq<nat>): System {
    var t := Leave(s, out, Drop);
    t.(srv := Shutdown(s.srv),
       owner := map c | c in s.owner && !(s.owner[c].Holding? && s.owner[c].id in out) :: s.owner[c])
  }

  // ---------- the transition relation ----------

  predicate InWriter(s: System, id: nat) { id in s.writers && id in s.srv.cmds }

  predicate ProcessEnabled(s: System, c: string, act: ProcessStep) {
    match act
    case ReserveID => true
    case CloudClaims(claim) => InStage(s, c) && s.owner[c].stage.Started? && ValidClaim(claim, c, s.now)
    case SupersedeOthers(out) =>
      InStage(s, c) && s.owner[c].stage.Ordered?
      && Enumerates(out, Superseded(s.srv, s.owner[c].stage.order.deploymentID, c))
    case ReportFailure(code, _) => InStage(s, c) && s.owner[c].stage.Superseding? && ValidErrorCode(code)
    case QueueCommand(_, _) => InStage(s, c) && s.owner[c].stage.Superseding?
    case ReleaseID => InStage(s, c)
  }

  function ProcessApply(s: System, c: string, act: ProcessStep): System
    requires ProcessEnabled(s, c, act)
  {
    match act
    case ReserveID => Reserved(s, c)
    case CloudClaims(claim) => SetStage(s, c, Ordered(OrderOf(claim)))
    case SupersedeOthers(out) => SetStage(Leave(s, out, Discard), c, Superseding(s.owner[c].stage.order))
    case ReportFailure(code, p) =>
      var order := s.owner[c].stage.order;
      SendResult(s, None, order.deploymentID, order.Reported("failed", code, -1), p)
    case QueueCommand(payload, lease) => Queue(s, c, payload, lease)
    case ReleaseID => Released(s, c)
  }

  predicate WriterEnabled(s: System, id: nat, does: WriterStep) {
    && InWriter(s, id)
    && match does
       case CheckDevice(code) => s.writers[id].Checking? && (code == "" || ValidErrorCode(code))
       case RecheckClaim(_) => s.writers[id].Rechecking?
       case CheckLease => s.writers[id].Leased?
       case RecheckDevice(code) => s.writers[id].Rechecked? && (code == "" || ValidErrorCode(code))
       case StartWrite => s.writers[id].Ready?
       case WriteSome(_) => s.writers[id].Writing?
       case FinishWrite => s.writers[id].Writing? && |s.writers[id].sent| == |Wire(id, s.srv.cmds[id].payload)|
       case BreakWrite(_) => s.writers[id].Writing?
  }

  function WriterApply(s: System, id: nat, does: WriterStep): System
    requires WriterEnabled(s, id, does)
  {
    match does
    case CheckDevice(code) => Checked(s, id, code)
    case RecheckClaim(answer) => Recheck(s, id, answer)
    case CheckLease => Lease(s, id)
    case RecheckDevice(code) => Recompat(s, id, code)
    case StartWrite => Begin(s, id)
    case WriteSome(upTo) => Advance(s, id, upTo)
    case FinishWrite => Complete(s, id)
    case BreakWrite(timeout) => Broken(s, id, timeout)
  }

  predicate EndingEnabled(s: System, id: nat, ends: EndingStep) {
    && id in s.srv.cmds
    && match ends
       case PreServeTimer => s.srv.cmds[id].order.operation == "delete"
       case DeadlineTimer => true
       case Zero => id in s.terms && !(id in s.writers && s.writers[id].Writing?)
       case EndCommand(_) => id in s.terms && s.terms[id].zeroed
  }

  function EndingApply(s: System, id: nat, ends: EndingStep): System
    requires EndingEnabled(s, id, ends)
  {
    match ends
    case PreServeTimer => if InQueue(s.srv, id) then Leave(s, [id], Discard) else s
    case DeadlineTimer => FailServed(s, id, "network_unavailable")
    case Zero => Zeroed(s, id)
    case EndCommand(p) => Ended(s, id, p)
  }

  predicate OutboxEnabled(s: System, part: OutboxStep) {
    match part
    case Flush(c, _) => c in s.srv.awaiting && c in s.owner && s.owner[c].Owing?
    case PickRecord(record) => s.worker.Resting? && record in s.srv.store.records
    case CloudAnswers(_) => s.worker.Posting?
    case DropRecord(_) => s.worker.Settled?
    case PostponeRecord(_) => s.worker.Refused?
  }

  function OutboxApply(s: System, part: OutboxStep): System
    requires OutboxEnabled(s, part)
  {
    match part
    case Flush(c, p) => Flushed(s, c, p)
    case PickRecord(record) => s.(worker := Posting(record))
    case CloudAnswers(settled) =>
      if settled then s.(worker := Settled(s.worker.record), owed := s.owed - {s.worker.record.Value()})
      else s.(worker := Refused(s.worker.record))
    case DropRecord(p) => Dropped(s, p)
    case PostponeRecord(p) => Postponed(s, p)
  }

  ghost predicate Enabled(s: System, step: Step) {
    match step
    case Tick(_) => true
    case Process(c, act) => ProcessEnabled(s, c, act)
    case Poll(_) => Shape(s.srv)
    case Serving(id, does) => WriterEnabled(s, id, does)
    case Ack(_, _, returnCode) => -1_000_000 <= returnCode <= 1_000_000
    case EndingOf(id, ends) => EndingEnabled(s, id, ends)
    case Delivery(part) => OutboxEnabled(s, part)
    case CloseServer(out) => !s.srv.closed && Enumerates(out, AllWaiting(s.srv))
  }

  ghost function Apply(s: System, step: Step): System
    requires Enabled(s, step)
  {
    match step
    case Tick(elapsed) => s.(now := s.now + elapsed)
    case Process(c, act) => ProcessApply(s, c, act)
    case Poll(d) => Polled(s, d)
    case Serving(id, does) => WriterApply(s, id, does)
    case Ack(d, localID, returnCode) => Acked(s, PendingKey(d, localID), returnCode)
    case EndingOf(id, ends) => EndingApply(s, id, ends)
    case Delivery(part) => OutboxApply(s, part)
    case CloseServer(out) => Closing(s, out)
  }

  /** A server that opened an outbox holding `document`. */
  ghost predicate Init(s: System) {
    && Reopens(s.srv.store.records)
    && s.srv == Srv(false, s.srv.outboxFailed, 0, {}, map[], map[], map[], map[],
                    Store(s.srv.store.records, {s.srv.store.records}))
    && s == System(s.srv, map[], map[], map[], Resting, s.now, map[], Values(s.srv.store.records), [], [], [], [])
    && s.now > 0
  }

  function Values(doc: seq<Record>): set<(string, Result)> { set r | r in doc :: r.Value() }

  /** s reaches t by the given steps. */
  ghost predicate Run(s: System, steps: seq<Step>, t: System)
    decreases |steps|
  {
    if steps == [] then s == t
    else Enabled(s, steps[0]) && Run(Apply(s, steps[0]), steps[1..], t)
  }

  ghost predicate Reachable(t: System) {
    exists s, steps :: Init(s) && Run(s, steps, t)
  }
}
