/** What each step of the lifecycle does to the commands, in every reachable state. */
module StepLaws {
  import opened Identifiers
  import Text
  import opened ResultOutbox
  import opened Claims
  import opened SecretServer
  import opened Lifecycle
  import opened OwnershipInvariant
  import opened OwnershipSteps
  import opened OwnershipTheorems
  import opened ServerLaws

  // ---------- leaving ----------

  /** The report that a command failed in the agent, or in front of the device. */
  predicate FailureFor(order: Order, code: string, ending: Ending) {
    ending == Report(Result(order.operation, "failed", order.deviceSN, order.sha256, code, order.commandID,
                            order.attempt, order.vaultAssetID, -1))
  }

  /** One command leaves; everyone else waits on. */
  ghost predicate LeftAlone(s: System, t: System, id: nat, ending: Ending, fate: Fate) {
    && (forall i :: Waiting(t.srv, i) <==> Waiting(s.srv, i) && i != id)
    && t.terms == s.terms[id := Terminator(ending, false)]
    && t.exits == s.exits + [Exit(id, fate)]
  }

  lemma LeaveOne(s: System, id: nat, ending: Ending)
    ensures var t := Leave(s, [id], ending);
      && t.terms == s.terms[id := Terminator(ending, false)] && t.exits == s.exits + [Exit(id, FateOf(ending))]
      && t == s.(srv := Remove(s.srv, {id}), terms := t.terms, exits := t.exits)
  {
    assert Members([id]) == {id};
    hide Remove, FateOf;
  }

  lemma LeaveAlone(s: System, id: nat, ending: Ending)
    requires Shape(s.srv)
    ensures var t := Leave(s, [id], ending);
      LeftAlone(s, t, id, ending, FateOf(ending)) && t == s.(srv := t.srv, terms := t.terms, exits := t.exits)
  {
    RemoveMembers(s.srv, {id});
    LeaveOne(s, id, ending);
    hide Shape, Remove, FateOf, InQueue, IsPending, Leave;
  }

  /** A command that is still pending fails with the code; one that already left is left alone. */
  ghost predicate FailsWith(s: System, t: System, id: nat, code: string)
    requires id in s.srv.cmds
  {
    if IsPending(s.srv, id) then
      id in t.terms && FailureFor(s.srv.cmds[id].order, code, t.terms[id].ending)
      && LeftAlone(s, t, id, t.terms[id].ending, Failed)
    else t == s.(writers := t.writers)
  }

  lemma FailServedFails(s: System, id: nat, code: string)
    requires Shape(s.srv) && id in s.srv.cmds
    ensures FailsWith(s, FailServed(s, id, code), id, code) && FailServed(s, id, code).writers == s.writers
  {
    hide Shape, IsPending, InQueue, Leave, LeftAlone;
    if IsPending(s.srv, id) {
      var ending := Report(s.srv.cmds[id].order.Reported("failed", code, -1));
      LeaveAlone(s, id, ending);
      assert FateOf(ending) == Failed && FailureFor(s.srv.cmds[id].order, code, ending);
      TermIn(s, Leave(s, [id], ending), id, ending, Failed);
    }
  }

  lemma TermIn(s: System, t: System, id: nat, ending: Ending, fate: Fate)
    requires LeftAlone(s, t, id, ending, fate)
    ensures id in t.terms && t.terms[id].ending == ending
  {
    hide Waiting;
  }

  lemma WriterFails(s: System, t: System, id: nat, code: string)
    requires id in s.srv.cmds && FailsWith(s, t, id, code) && t.writers == s.writers
    ensures FailsWith(s, EndWriter(t, id), id, code) && EndWriter(t, id).writers == s.writers - {id}
  {
    hide Waiting, IsPending, FailureFor;
  }

  /** A request that fails its command is over. */
  lemma RequestFails(s: System, id: nat, code: string)
    requires Shape(s.srv) && id in s.srv.cmds
    ensures var t := EndWriter(FailServed(s, id, code), id);
      FailsWith(s, t, id, code) && t.writers == s.writers - {id}
  {
    FailServedFails(s, id, code);
    hide Shape, FailsWith, FailServed;
    WriterFails(s, FailServed(s, id, code), id, code);
  }

  lemma ReachableShape(s: System)
    requires Reachable(s)
    ensures Shape(s.srv)
  {
    ReachableIsSafe(s);
    hide Reachable, Shape, Sound, Roomy;
  }

  // ---------- processes ----------

  /** After a supersession no waiting command of the deployment has another id, and every other command
      that waited still waits. */
  lemma NoOtherCommandWaits(s: System, c: string, out: seq<nat>)
    requires Reachable(s) && ProcessEnabled(s, c, SupersedeOthers(out))
    ensures var t := ProcessApply(s, c, SupersedeOthers(out));
      var deploymentID := s.owner[c].stage.order.deploymentID;
      && (forall i | Waiting(t.srv, i) && t.srv.cmds[i].order.deploymentID == deploymentID ::
            t.srv.cmds[i].order.commandID == c)
      && (forall i | Waiting(s.srv, i) &&
            (s.srv.cmds[i].order.deploymentID != deploymentID || s.srv.cmds[i].order.commandID == c) ::
            Waiting(t.srv, i))
      && (forall i | Waiting(s.srv, i) && !Waiting(t.srv, i) ::
            i in t.terms && t.terms[i] == Terminator(Discard, false) && Exit(i, Discarded) in t.exits)
  {
    ReachableShape(s);
    SupersededAre(s.srv, s.owner[c].stage.order.deploymentID, c);
    LeaveMany(s, out, Discard, Discarded);
    assert forall i :: i in out <==> i in Members(out);
    hide Reachable, Shape, Waiting, Leave;
  }

  lemma LeaveMany(s: System, out: seq<nat>, ending: Ending, fate: Fate)
    requires Shape(s.srv) && FateOf(ending) == fate
    ensures var t := Leave(s, out, ending);
      && (forall i :: Waiting(t.srv, i) <==> Waiting(s.srv, i) && i !in out)
      && (forall i :: Waiting(t.srv, i) ==> i in s.srv.cmds && t.srv.cmds[i].order == s.srv.cmds[i].order)
      && (forall i | i in out :: i in t.terms && t.terms[i] == Terminator(ending, false) && Exit(i, fate) in t.exits)
  {
    var t := Leave(s, out, ending);
    RemoveMembers(s.srv, Members(out));
    RemoveQueues(s.srv, Members(out));
    forall i | Waiting(t.srv, i) ensures i in s.srv.cmds && t.srv.cmds[i].order == s.srv.cmds[i].order {}
    forall i | i in out ensures Exit(i, fate) in t.exits {
      var k :| 0 <= k < |out| && out[k] == i;
      assert t.exits[|s.exits| + k] == Exit(i, fate);
    }
    hide Shape, Remove, FateOf, InQueue, IsPending;
  }

  /** The order that a process works on is the one the cloud gave. */
  lemma OrdersAreClaims(s: System, c: string, claim: CloudClaim)
    requires ProcessEnabled(s, c, CloudClaims(claim))
    ensures var t := ProcessApply(s, c, CloudClaims(claim));
      && InStage(t, c) && t.owner[c].stage.Ordered?
      && var o := t.owner[c].stage.order;
         match claim
         case ToDeploy(d) =>
           && o.commandID == c == d.commandID && o.deploymentID == d.deploymentID && o.deviceSN == d.deviceSN
           && o.operation == "" && o.attempt == 0 && o.vaultAssetID == "" && o.sha256 == d.asset.sha256
           && o.personnelID == d.personnelID && o.kind == d.asset.kind && o.bioType == d.asset.bioType
           && o.slotIndex == d.asset.slotIndex
         case ToDelete(d) =>
           && o.commandID == c == d.commandID && o.deploymentID == d.deploymentID && o.deviceSN == d.deviceSN
           && o.operation == "delete" && o.attempt == d.attempt && o.vaultAssetID == d.vaultAssetID && o.sha256 == ""
           && o.personnelID == d.personnelID && o.kind == d.kind && o.bioType == d.bioType
           && o.slotIndex == d.slotIndex && d.leaseExpiresAt > s.now
  {
    hide ValidDeployment, ValidDeletion, ValidUUID, ValidIdentifier;
  }

  /** The result is stored and the id free, or the result waits and holds the id. */
  ghost predicate HandedOver(s: System, t: System, deploymentID: string, result: Result, p: Persist) {
    if p.Persisted? then
      && t.srv.store.records == s.srv.store.records + [Record(deploymentID, result, 0, s.now)]
      && result.commandID !in t.owner && result.commandID !in t.srv.ids && result.commandID !in t.srv.awaiting
    else
      && t.srv.store.records == s.srv.store.records
      && result.commandID in t.srv.awaiting
      && t.srv.awaiting[result.commandID] == AwaitingResult(deploymentID, result)
      && result.commandID in t.owner && t.owner[result.commandID].Owing?
  }

  lemma SendHands(s: System, u: System, origin: Option<nat>, dep: string, result: Result, p: Persist)
    requires Owners(s) && Roomy(s) && Reports(s, u, result.commandID) && ValidUUID(dep) && ValidResult(result)
    ensures HandedOver(s, SendResult(u, origin, dep, result, p), dep, result, p)
  {
    SendOutcome(s, u, origin, dep, result, p);
    hide SendResult, Owners, Roomy, ValidUUID, ValidResult, StoreKept, Reports;
  }

  /** A process that fails reports its own order and the code it failed with. */
  lemma ProcessesReportTheirOrder(s: System, c: string, code: string, p: Persist)
    requires Reachable(s) && ProcessEnabled(s, c, ReportFailure(code, p))
    ensures var t, o := ProcessApply(s, c, ReportFailure(code, p)), s.owner[c].stage.order;
      HandedOver(s, t, o.deploymentID, Result(o.operation, "failed", o.deviceSN, o.sha256, code, c, o.attempt,
                                              o.vaultAssetID, -1), p)
  {
    ReachableIsSafe(s);
    var order := s.owner[c].stage.order;
    FailureIsValid(order, code, -1);
    ReportsAlone(s, c);
    assert ValidUUID(order.deploymentID) && order.commandID == c;
    hide Reachable, Owners, Sound, Roomy, Reports, ValidResult, ValidUUID, ValidErrorCode, Reportable, SendResult;
    hide HandedOver;
    SendHands(s, s, None, order.deploymentID, order.Reported("failed", code, -1), p);
  }

  /** What a terminator does once the payload is zeroed: it reports what it holds, or releases the id, or, after
      a shutdown, neither. */
  ghost predicate Settles(s: System, t: System, id: nat, p: Persist)
    requires id in s.terms && id in s.srv.cmds
  {
    var order := s.srv.cmds[id].order;
    && t.terms == s.terms - {id}
    && match s.terms[id].ending
       case Drop => t == s.(terms := t.terms)
       case Discard =>
         order.commandID !in t.owner && order.commandID !in t.srv.ids && t.srv == s.srv.(ids := t.srv.ids)
       case Report(result) => result.commandID == order.commandID && HandedOver(s, t, order.deploymentID, result, p)
  }

  lemma ReportSettles(s: System, id: nat, p: Persist)
    requires Owners(s) && Sound(s) && Roomy(s) && EndingEnabled(s, id, EndCommand(p)) && s.terms[id].ending.Report?
    ensures Settles(s, Ended(s, id, p), id, p)
  {
    var order := s.srv.cmds[id].order;
    var result := s.terms[id].ending.result;
    var u := s.(terms := s.terms - {id});
    EndHolds(s, id);
    assert ValidUUID(order.deploymentID) && ValidResult(result) && result.commandID == order.commandID;
    hide Owners, Sound, Roomy, Reports, ValidUUID, ValidResult, SendResult, HandedOver;
    SendHands(s, u, Some(id), order.deploymentID, result, p);
    SendTerms(u, Some(id), order.deploymentID, result, p);
  }

  lemma QuietSettles(s: System, id: nat, p: Persist)
    requires EndingEnabled(s, id, EndCommand(p)) && !s.terms[id].ending.Report?
    ensures Settles(s, Ended(s, id, p), id, p)
  {}

  /** A command that was taken out is reported with what its terminator holds, or its id is released; one that
      was dropped by a shutdown does neither. */
  lemma TerminatorsSettle(s: System, id: nat, p: Persist)
    requires Reachable(s) && EndingEnabled(s, id, EndCommand(p))
    ensures Settles(s, Ended(s, id, p), id, p)
  {
    ReachableIsSafe(s);
    hide Reachable, Owners, Sound, Roomy, Settles, Ended;
    if s.terms[id].ending.Report? { ReportSettles(s, id, p); } else { QuietSettles(s, id, p); }
  }

  lemma SendTerms(s: System, origin: Option<nat>, dep: string, result: Result, p: Persist)
    ensures SendResult(s, origin, dep, result, p).terms == s.terms
  {
    hide EnqueueResult;
  }

  // ---------- polls and their requests ----------

  /** The command is with a request that starts to check it, and this claim is on record. */
  predicate Claimed(s: System, t: System, id: nat, d: string, attempt: nat) {
    && t.writers == s.writers[id := Checking]
    && t.claims == s.claims + [ServeClaim(id, d, attempt, s.now)]
    && t == s.(srv := t.srv, writers := t.writers, claims := t.claims)
  }

  lemma PollClaims(s: System, d: string)
    requires Shape(s.srv)
    ensures var (after, outcome) := ClaimWriter(s.srv, d, s.now);
      var t := Polled(s, d);
      match outcome
      case Idle => t == s
      case Busy => t == s
      case Exhausted(id) => id in s.srv.cmds && t == Leave(s, [id], Report(NetworkFailure(s, id)))
      case Serve(id) => id in after.cmds && t.srv == after && Claimed(s, t, id, d, after.cmds[id].serveAttempts)
  {
    if PendingOf(s.srv, d).Some? { PendingIsLive(s.srv, d); }
    hide Shape, PendingOf, Spent, Leave, QueueOf, TakeFirst;
  }

  /** The pending command is claimed once more, or it was claimed too often or for too long, and fails. */
  ghost predicate ServedAgain(s: System, t: System, id: nat)
    requires id in s.srv.cmds
  {
    var c := s.srv.cmds[id];
    if c.serveAttempts < 3 && (c.firstServedAt.Some? ==> s.now < c.firstServedAt.value + 30_000) then
      && t.srv == s.srv.(cmds := s.srv.cmds[id := c.(writerActive := true, serveAttempts := c.serveAttempts + 1)])
      && Claimed(s, t, id, c.order.deviceSN, c.serveAttempts + 1)
    else FailsWith(s, t, id, "network_unavailable")
  }

  lemma ExhaustedFails(s: System, id: nat)
    requires Shape(s.srv) && id in s.srv.cmds && IsPending(s.srv, id)
    ensures FailsWith(s, Leave(s, [id], Report(NetworkFailure(s, id))), id, "network_unavailable")
  {
    FailServedFails(s, id, "network_unavailable");
    hide Shape, FailsWith, IsPending, Leave;
  }

  lemma ShapePollServesAgain(s: System, id: nat)
    requires Shape(s.srv) && IsPending(s.srv, id) && !s.srv.cmds[id].writerActive
    ensures ServedAgain(s, Polled(s, s.srv.cmds[id].order.deviceSN), id)
  {
    assert id in s.srv.cmds;
    hide Shape, IsPending, Polled, ClaimWriter, FailsWith, Leave, NetworkFailure, Remove;
    ExhaustedFails(s, id);
    PendingIsServedAgain(s.srv, id, s.now);
    PollClaims(s, s.srv.cmds[id].order.deviceSN);
  }

  /** A poll of a device whose pending command is free serves it again, while it was claimed fewer than three
      times and 30 seconds have not passed; after that it fails the command. */
  lemma PollsServeAgain(s: System, id: nat)
    requires Reachable(s) && IsPending(s.srv, id) && !s.srv.cmds[id].writerActive
    ensures Shape(s.srv) && ServedAgain(s, Polled(s, s.srv.cmds[id].order.deviceSN), id)
  {
    ReachableShape(s);
    hide Reachable, Shape, ServedAgain, Polled;
    ShapePollServesAgain(s, id);
  }

  /** A device with nothing pending gets its oldest queued command. */
  lemma PollsTakeTheOldest(s: System, d: string)
    requires Reachable(s) && (forall k | k in s.srv.pending :: k.deviceSN != d)
    ensures Shape(s.srv)
    ensures var t, q := Polled(s, d), QueueOf(s.srv, d);
      if q == [] then t == s
      else
        && IsPending(t.srv, q[0]) && QueueOf(t.srv, d) == q[1..] && (forall i | i in q :: q[0] <= i)
        && Claimed(s, t, q[0], d, 1)
  {
    ReachableShape(s);
    hide Reachable, Shape, IsPending, Polled, ClaimWriter, Leave, QueueOf;
    OldestIsServedFirst(s.srv, d, s.now);
    PollClaims(s, d);
  }

  /** A device that does not take the command fails it; one that does lets a deployment be written, and a
      deletion be rechecked. */
  lemma DeviceCheckDecides(s: System, id: nat, code: string)
    requires Reachable(s) && WriterEnabled(s, id, CheckDevice(code))
    ensures var t := Checked(s, id, code);
      if code == "" then
        t == s.(writers := s.writers[id := if s.srv.cmds[id].order.operation == "delete" then Rechecking else Ready])
      else FailsWith(s, t, id, code) && t.writers == s.writers - {id}
  {
    ReachableShape(s);
    RequestFails(s, id, code);
    hide Reachable, Shape, FailsWith, FailServed, EndWriter, ValidErrorCode;
  }

  /** The claim repeats, field by field, what the command was queued for, under a lease that still runs. */
  predicate Repeats(claim: Deletion, c: Command, now: int) {
    && claim.operation == "delete" && claim.deploymentID == c.order.deploymentID
    && claim.commandID == c.order.commandID && claim.attempt == c.order.attempt
    && claim.deviceSN == c.order.deviceSN && claim.personnelID == c.order.personnelID
    && claim.vaultAssetID == c.order.vaultAssetID && claim.kind == c.order.kind
    && claim.bioType == c.order.bioType && claim.slotIndex == c.order.slotIndex
    && claim.leaseExpiresAt > now
  }

  /** The cloud could not tell, so the command may be asked about again. */
  predicate Unanswered(answer: RecheckAnswer) {
    answer.NoAnswer? && (answer.code == "network_unavailable" || answer.code == "deployment_claim_failed")
  }

  predicate Passes(answer: RecheckAnswer, c: Command, now: int) {
    && answer.Answer? && answer.claim.Some? && Repeats(answer.claim.value, c, now)
    && ValidDeletion(answer.claim.value, c.order.deploymentID, c.order.deviceSN)
  }

  lemma RecheckCodes(c: Command, answer: RecheckAnswer, now: int)
    ensures var code := RecheckCode(c, answer, now);
      && (code == "" && answer.Answer? <==> Passes(answer, c, now))
      && (code == "network_unavailable" || code == "deployment_claim_failed" <==> Unanswered(answer))
  {
    if answer.Answer? && answer.claim.Some? { RepeatsIs(answer.claim.value, c, now); }
    hide ValidDeletion, SameDeletion, Repeats;
  }

  lemma RepeatsIs(claim: Deletion, c: Command, now: int)
    ensures Repeats(claim, c, now) <==>
      && claim.commandID == c.order.commandID && claim.leaseExpiresAt > now && SameDeletion(c.Expected(), claim)
      && claim.attempt == c.order.attempt && claim.vaultAssetID == c.order.vaultAssetID
  {}

  /** A request gives its command up without a report, if that still is pending. */
  ghost predicate GivenUp(s: System, t: System, id: nat) {
    && t.writers == s.writers - {id}
    && if IsPending(s.srv, id) then LeftAlone(s, t, id, Discard, Discarded) else t == s.(writers := t.writers)
  }

  lemma DiscardGivesUp(s: System, id: nat)
    requires Shape(s.srv)
    ensures GivenUp(s, EndWriter(DiscardServed(s, id), id), id)
  {
    LeaveAlone(s, id, Discard);
    hide Shape, IsPending, Leave;
    if IsPending(s.srv, id) { LeftWriter(s, Leave(s, [id], Discard), id); }
  }

  lemma LeftWriter(s: System, t: System, id: nat)
    requires LeftAlone(s, t, id, Discard, Discarded)
    ensures LeftAlone(s, EndWriter(t, id), id, Discard, Discarded)
  {
    hide Waiting;
  }

  /** A recheck passes exactly on a valid claim that repeats the command; a cloud that cannot answer leaves the
      command to the next poll, and any other answer gives it up without a report. */
  lemma RecheckDecides(s: System, id: nat, answer: RecheckAnswer)
    requires Reachable(s) && WriterEnabled(s, id, RecheckClaim(answer))
    ensures var t, c := Recheck(s, id, answer), s.srv.cmds[id];
      if Passes(answer, c, s.now) then
        t == s.(writers := s.writers[id := Leased(answer.claim.value.leaseExpiresAt)],
                trail := s.trail + [ClaimMatched(id, answer.claim.value)])
      else if Unanswered(answer) then t == s.(srv := ReleaseWriter(s.srv, id), writers := s.writers - {id})
      else GivenUp(s, t, id)
  {
    ReachableShape(s);
    hide Reachable, Shape, DiscardServed, ReleaseWriter, GivenUp, RecheckCode;
    DiscardGivesUp(s, id);
    RecheckCodes(s.srv.cmds[id], answer, s.now);
    hide Passes, Unanswered;
  }

  /** A write starts under a lease that outlasts it by 20 seconds; otherwise the command waits for the next poll. */
  lemma LeaseDecides(s: System, id: nat)
    requires Reachable(s) && WriterEnabled(s, id, CheckLease)
    ensures var t, lease := Lease(s, id), s.writers[id].lease;
      if lease > s.now + 20_000 then
        t == s.(writers := s.writers[id := Rechecked(lease)], trail := s.trail + [LeaseHeld(id, lease, s.now)])
      else t == s.(srv := ReleaseWriter(s.srv, id), writers := s.writers - {id})
  {
    ReachableIsSafe(s);
    assert s.now > 0;
    hide Reachable, Owners, Sound, Roomy, ReleaseWriter;
  }

  /** The second look at the device fails the command with its code, or lets it be written. */
  lemma SecondCheckDecides(s: System, id: nat, code: string)
    requires Reachable(s) && WriterEnabled(s, id, RecheckDevice(code))
    ensures var t := Recompat(s, id, code);
      if code == "" then
        && t.writers == s.writers[id := Ready] && t.trail == s.trail + [DeviceMatched(id)]
        && t.srv.cmds == s.srv.cmds[id := s.srv.cmds[id].(leaseExpiresAt := s.writers[id].lease)]
        && t == s.(srv := s.srv.(cmds := t.srv.cmds), writers := t.writers, trail := t.trail)
      else FailsWith(s, t, id, code) && t.writers == s.writers - {id}
  {
    ReachableShape(s);
    RequestFails(s, id, code);
    hide Reachable, Shape, FailsWith, FailServed, EndWriter, ValidErrorCode;
  }

  /** A request starts to write while the command is pending with it and has its payload; it sends what the
      payload holds; and a whole write marks a command that is still pending as served. */
  lemma WritesDecide(s: System, id: nat, upTo: nat)
    requires id in s.srv.cmds
    ensures WriterEnabled(s, id, StartWrite) ==>
      Begin(s, id) ==
        if IsPending(s.srv, id) && s.srv.cmds[id].writerActive && s.srv.cmds[id].payload != "" then
          s.(writers := s.writers[id := Writing("")])
        else if IsPending(s.srv, id) && s.srv.cmds[id].writerActive then
          s.(srv := ReleaseWriter(s.srv, id), writers := s.writers - {id})
        else s.(writers := s.writers - {id})
    ensures WriterEnabled(s, id, WriteSome(upTo)) ==>
      var wire, sent := "C:" + Text.Decimal(id) + ":" + s.srv.cmds[id].payload, s.writers[id].sent;
      Advance(s, id, upTo) ==
        if |sent| <= upTo <= |wire| then s.(writers := s.writers[id := Writing(sent + wire[|sent|..upTo])]) else s
    ensures WriterEnabled(s, id, FinishWrite) ==>
      Complete(s, id) == s.(srv := MarkServed(s.srv, id), writers := s.writers - {id},
                            trail := s.trail + [FullyWritten(id, s.writers[id].sent)])
  {
    hide IsPending;
  }

  /** A write that timed out fails the command; one that broke leaves it to the next poll. */
  lemma BrokenWritesDecide(s: System, id: nat, timeout: bool)
    requires Reachable(s) && WriterEnabled(s, id, BreakWrite(timeout))
    ensures var t := Broken(s, id, timeout);
      if timeout then FailsWith(s, t, id, "network_unavailable") && t.writers == s.writers - {id}
      else t == s.(srv := ReleaseWriter(s.srv, id), writers := s.writers - {id})
  {
    ReachableShape(s);
    RequestFails(s, id, "network_unavailable");
    hide Reachable, Shape, FailsWith, FailServed, ReleaseWriter;
  }

  // ---------- acknowledgements, timers and shutdown ----------

  /** An acknowledgement takes out the command pending under its id for that device, unless it is a deletion that
      was not written, and reports it with the return code. */
  lemma AcknowledgementsEnd(s: System, d: string, localID: nat, returnCode: int)
    requires Reachable(s)
    ensures var t := Acked(s, PendingKey(d, localID), returnCode);
      if !IsPending(s.srv, localID) || s.srv.cmds[localID].order.deviceSN != d
        || (s.srv.cmds[localID].order.operation == "delete" && !s.srv.cmds[localID].served) then t == s
      else
        var o := s.srv.cmds[localID].order;
        var result := Result(o.operation, if returnCode == 0 then "applied" else "failed", d, o.sha256,
                             if returnCode == 0 then "" else "device_command_failed", o.commandID, o.attempt,
                             o.vaultAssetID, returnCode);
        && LeftAlone(s, t, localID, Report(result), if returnCode == 0 then Applied else Failed)
        && t.trail == s.trail + [Acknowledged(localID, returnCode)]
  {
    ReachableShape(s);
    hide Reachable, Shape;
    AcknowledgementRule(s.srv, d, localID, returnCode);
    var completed := Completion(s.srv, PendingKey(d, localID), returnCode);
    if completed.Some? {
      AckedID(s.srv, PendingKey(d, localID), returnCode);
      LeaveAlone(s, localID, Report(completed.value));
    }
    hide Completion, IsPending, InQueue, Leave;
  }

  lemma AckedID(srv: Srv, key: PendingKey, returnCode: int)
    requires Shape(srv) && Completion(srv, key, returnCode).Some?
    ensures srv.pending[key] == key.localID
  {
    assert Matches(srv, key);
    hide Ascending, AllFor;
  }

  /** The pre-serve timer gives up a command only while it is queued, without a report. */
  lemma PreServeTimerDecides(s: System, id: nat)
    requires Reachable(s) && EndingEnabled(s, id, PreServeTimer)
    ensures var t := EndingApply(s, id, PreServeTimer);
      if InQueue(s.srv, id) then LeftAlone(s, t, id, Discard, Discarded) else t == s
  {
    ReachableShape(s);
    hide Reachable, Shape, InQueue, IsPending, Leave, LeftAlone;
    LeaveAlone(s, id, Discard);
  }

  /** The deadline fails a command only while it is pending. */
  lemma DeadlineDecides(s: System, id: nat)
    requires Reachable(s) && EndingEnabled(s, id, DeadlineTimer)
    ensures FailsWith(s, EndingApply(s, id, DeadlineTimer), id, "network_unavailable")
  {
    ReachableShape(s);
    FailServedFails(s, id, "network_unavailable");
    hide Reachable, Shape, FailsWith, FailServed;
  }

  lemma ClosingLeaves(s: System, out: seq<nat>)
    ensures var t, u := Closing(s, out), Leave(s, out, Drop);
      t.srv == Shutdown(s.srv) && t.terms == u.terms && t.exits == u.exits
  {
    hide Leave, Shutdown;
  }

  /** A shutdown drops every waiting command without a report, and no id stays reserved. */
  lemma ShutdownDropsAll(s: System, out: seq<nat>)
    requires Reachable(s) && Enabled(s, CloseServer(out))
    ensures var t := Closing(s, out);
      && t.srv.closed && t.srv.ids == {} && t.srv.store == s.srv.store && t.srv.awaiting == s.srv.awaiting
      && (forall i :: !Waiting(t.srv, i))
      && (forall i | Waiting(s.srv, i) ::
            i in t.terms && t.terms[i] == Terminator(Drop, false) && Exit(i, Discarded) in t.exits)
  {
    ReachableShape(s);
    assert forall i :: i in out <==> i in AllWaiting(s.srv) by { assert forall i :: i in out <==> i in Members(out); }
    assert forall i :: i in AllWaiting(s.srv) <==> Waiting(s.srv, i) by { hide Shape, Ascending; }
    hide Reachable, Shape, Leave, Shutdown, Waiting, Closing, AllWaiting, Enumerates;
    ClosingLeaves(s, out);
    LeaveMany(s, out, Drop, Discarded);
    forall i ensures !Waiting(Shutdown(s.srv), i) { ShutdownRule(s.srv, i); }
    ShutdownRule(s.srv, 0);
  }
}
