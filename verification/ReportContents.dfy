/** Over every run: each stored report is about the command it came from. */
module ReportContents {
  import opened Identifiers
  import opened ResultOutbox
  import opened Claims
  import opened SecretServer
  import opened Lifecycle
  import opened OwnershipInvariant
  import opened OwnershipSteps
  import opened OwnershipTheorems
  import opened ExactlyOnce
  import opened CommandLife
  import opened PayloadSafety

  /** The result names the order's own operation, device, digest, id, attempt and asset. */
  predicate Carries(order: Order, result: Result) {
    && result == Result(order.operation, result.status, order.deviceSN, order.sha256, result.errorCode, order.commandID,
                        order.attempt, order.vaultAssetID, result.returnCode)
    && (result.status == "applied" ==> result.errorCode == "" && result.returnCode == 0)
    && (result.status == "applied" || result.status == "failed")
  }

  predicate About(s: System, i: nat, deploymentID: string, result: Result) {
    i in s.srv.cmds && Carries(s.srv.cmds[i].order, result) && deploymentID == s.srv.cmds[i].order.deploymentID
  }

  // ---------- terminators ----------

  predicate TermCarries(a: Life) {
    a.term.Some? && a.term.value.ending.Report? && a.body.Some? ==>
      Carries(a.body.value.order, a.term.value.ending.result)
  }

  lemma OwnCarries(order: Order, result: Result, e: Option<Milestone>)
    requires OwnReport(order, result, e)
    ensures Carries(order, result)
  {}

  lemma MoveKeepsCarries(i: nat, a: Life, b: Life, now: int, e: Option<Milestone>)
    requires Coherent(i, a) && Moved(i, a, b, now, e) && TermCarries(a)
    ensures TermCarries(b)
  {
    if Leaves(i, a, b, e) && b.term.value.ending.Report? {
      OwnCarries(a.body.value.order, b.term.value.ending.result, e);
    }
    hide Wire, Spent, FateOf, SameDeletion, LeaseBoundsWrite, Carries, OwnReport;
  }

  ghost predicate TermsCarry(s: System) { forall i: nat :: TermCarries(LifeOf(s, i)) }

  lemma MovesKeepCarries(s: System, t: System)
    requires Coherents(s) && AllMoved(s, t) && TermsCarry(s)
    ensures TermsCarry(t)
  {
    hide Coherent, Moved, LifeOf, TermCarries, TrailGrows;
    forall i: nat ensures TermCarries(LifeOf(t, i)) {
      assert MovedIn(s, t, i) && Coherent(i, LifeOf(s, i));
      MoveKeepsCarries(i, LifeOf(s, i), LifeOf(t, i), s.now, NewsOf(s, t, i));
    }
  }

  // ---------- where results come from ----------

  /** The terminator of the command holds the result. */
  predicate AtTerm(s: System, i: nat, deploymentID: string, result: Result) {
    i in s.terms && i in s.srv.cmds && s.terms[i].ending == Report(result)
      && deploymentID == s.srv.cmds[i].order.deploymentID
  }

  /** The result of the command waits to be stored. */
  predicate AtFlush(s: System, i: nat, deploymentID: string, result: Result) {
    IsOwing(s, result.commandID, i) && s.srv.awaiting[result.commandID] == AwaitingResult(deploymentID, result)
  }

  predicate FromCommand(s: System, i: nat, deploymentID: string, result: Result) {
    AtTerm(s, i, deploymentID, result) || AtFlush(s, i, deploymentID, result)
  }

  ghost predicate OwedFrom(s: System, t: System) {
    forall c, i | IsOwing(t, c, i) :: FromCommand(s, i, t.srv.awaiting[c].deploymentID, t.srv.awaiting[c].result)
  }

  ghost predicate CommitsFrom(s: System, t: System) {
    forall e | e in t.commits ::
      e in s.commits || e.origin.None? || FromCommand(s, e.origin.value, e.deploymentID, e.result)
  }

  ghost predicate From(s: System, t: System) { OwedFrom(s, t) && CommitsFrom(s, t) }

  /** Nothing is handed over; owners that wait for a flush stay as they are or go. */
  ghost predicate Unsent(s: System, t: System) {
    && t.commits == s.commits
    && forall c, i | IsOwing(t, c, i) :: IsOwing(s, c, i) && t.srv.awaiting[c] == s.srv.awaiting[c]
  }

  ghost predicate AwaitingNamed(s: System) { forall c | c in s.srv.awaiting :: s.srv.awaiting[c].result.commandID == c }

  lemma UnsentFrom(s: System, t: System)
    requires AwaitingNamed(s) && Unsent(s, t)
    ensures From(s, t)
  {
    forall c, i | IsOwing(t, c, i) ensures AtFlush(s, i, t.srv.awaiting[c].deploymentID, t.srv.awaiting[c].result) {}
    hide AtTerm, AtFlush;
  }

  lemma SameOwnersUnsent(s: System, t: System)
    requires t.commits == s.commits && t.owner == s.owner && t.srv.awaiting == s.srv.awaiting
    ensures Unsent(s, t)
  {}

  predicate SameHands(s: System, t: System) {
    t.commits == s.commits && t.owner == s.owner && t.srv.awaiting == s.srv.awaiting
  }

  lemma FailHands(s: System, id: nat, code: string)
    requires id in s.srv.cmds
    ensures SameHands(s, FailServed(s, id, code)) && SameHands(s, DiscardServed(s, id))
    ensures SameHands(s, s.(srv := ReleaseWriter(s.srv, id)))
  {
    hide IsPending, Keep;
  }

  lemma WriterHands(s: System, t: System, id: nat)
    requires SameHands(s, t)
    ensures SameHands(s, EndWriter(t, id))
  {}

  lemma DeviceHands(s: System, id: nat, does: WriterStep)
    requires WriterEnabled(s, id, does) && (does.CheckDevice? || does.RecheckDevice? || does.BreakWrite?)
    ensures SameHands(s, WriterApply(s, id, does))
  {
    var code := if does.BreakWrite? then "network_unavailable" else does.code;
    FailHands(s, id, code);
    WriterHands(s, FailServed(s, id, code), id);
    WriterHands(s, s.(srv := ReleaseWriter(s.srv, id)), id);
    hide ValidErrorCode, FailServed, ReleaseWriter, EndWriter;
  }

  lemma RecheckHands(s: System, id: nat, answer: RecheckAnswer)
    requires id in s.srv.cmds
    ensures SameHands(s, Recheck(s, id, answer))
  {
    FailHands(s, id, "");
    WriterHands(s, DiscardServed(s, id), id);
    WriterHands(s, s.(srv := ReleaseWriter(s.srv, id)), id);
    hide RecheckCode, DiscardServed, ReleaseWriter, EndWriter;
  }

  lemma WriteHands(s: System, id: nat, does: WriterStep)
    requires WriterEnabled(s, id, does) && (does.CheckLease? || does.StartWrite?)
    ensures SameHands(s, WriterApply(s, id, does))
  {
    FailHands(s, id, "");
    WriterHands(s, s.(srv := ReleaseWriter(s.srv, id)), id);
    hide ReleaseWriter, EndWriter, LeaseBoundsWrite, IsPending;
  }

  lemma ServingHands(s: System, id: nat, does: WriterStep)
    requires WriterEnabled(s, id, does)
    ensures SameHands(s, WriterApply(s, id, does))
  {
    hide Wire, IsPending, Checked, Recompat, Broken, Recheck, Lease, Begin;
    match does {
      case CheckDevice(_) => DeviceHands(s, id, does);
      case RecheckDevice(_) => DeviceHands(s, id, does);
      case BreakWrite(_) => DeviceHands(s, id, does);
      case RecheckClaim(answer) => RecheckHands(s, id, answer);
      case CheckLease => WriteHands(s, id, does);
      case StartWrite => WriteHands(s, id, does);
      case WriteSome(_) =>
      case FinishWrite =>
    }
  }

  lemma LeaveHands(s: System, out: seq<nat>, ending: Ending)
    ensures SameHands(s, Leave(s, out, ending))
  {
    hide Keep, IsPending, FateOf;
  }

  lemma PollHands(s: System, d: string)
    requires Shape(s.srv)
    ensures SameHands(s, Polled(s, d))
  {
    if PendingOf(s.srv, d).Some? { PendingIsLive(s.srv, d); }
    hide Shape, PendingOf, QueueOf, Spent, Leave, Remove;
    match ClaimWriter(s.srv, d, s.now).1
    case Exhausted(id) => LeaveHands(s, [id], Report(NetworkFailure(s, id)));
    case _ =>
  }

  lemma AckHands(s: System, key: PendingKey, code: int)
    ensures SameHands(s, Acked(s, key, code))
  {
    assert Completion(s.srv, key, code).Some? ==> key in s.srv.pending && s.srv.pending[key] in s.srv.cmds;
    hide Completion, Leave;
    match Completion(s.srv, key, code)
    case None =>
    case Some(result) => LeaveHands(s, [s.srv.pending[key]], Report(result));
  }

  lemma EndingHands(s: System, id: nat, ends: EndingStep)
    requires EndingEnabled(s, id, ends) && !ends.EndCommand?
    ensures SameHands(s, EndingApply(s, id, ends))
  {
    LeaveHands(s, [id], Discard);
    FailHands(s, id, "network_unavailable");
    hide Leave, FailServed, InQueue, IsPending;
  }

  /** A process moves one id that no flush waits for. */
  lemma OneOwnerUnsent(s: System, t: System, c: string)
    requires t.commits == s.commits && t.srv.awaiting == s.srv.awaiting && t.owner - {c} == s.owner - {c}
    requires c in t.owner ==> !t.owner[c].Owing?
    ensures Unsent(s, t)
  {
    SameElsewhere(t.owner, s.owner, c);
  }

  lemma QueueMovesOne(s: System, c: string, payload: string, lease: int)
    requires InStage(s, c) && s.owner[c].stage.Superseding?
    ensures var t := Queue(s, c, payload, lease);
      t.commits == s.commits && t.srv.awaiting == s.srv.awaiting && t.owner - {c} == s.owner - {c} && c in t.owner
        && !t.owner[c].Owing?
  {
    hide ValidUUID, ValidIdentifier, QueueOf;
  }

  lemma ProcessUnsent(s: System, c: string, act: ProcessStep)
    requires ProcessEnabled(s, c, act) && !act.ReportFailure?
    ensures Unsent(s, ProcessApply(s, c, act))
  {
    var t := ProcessApply(s, c, act);
    hide Unsent, Leave, Reserve, Queue, ValidClaim, OrderOf, Enumerates;
    match act {
      case ReserveID => ReserveUnsent(s, c);
      case CloudClaims(claim) => OneOwnerUnsent(s, t, c);
      case SupersedeOthers(out) =>
        LeaveHands(s, out, Discard);
        OneOwnerUnsent(s, t, c);
      case QueueCommand(payload, lease) =>
        QueueMovesOne(s, c, payload, lease);
        OneOwnerUnsent(s, t, c);
      case ReleaseID => OneOwnerUnsent(s, t, c);
    }
  }

  lemma ReserveUnsent(s: System, c: string)
    ensures Unsent(s, Reserved(s, c))
  {
    if Reserve(s.srv, c).1 { ReserveGrants(s.srv, c); }
    hide Reserve, Unsent;
    if Reserve(s.srv, c).1 { OneOwnerUnsent(s, Reserved(s, c), c); } else { SameOwnersUnsent(s, s); }
  }

  lemma CloseUnsent(s: System, out: seq<nat>)
    ensures Unsent(s, Closing(s, out))
  {
    hide Keep, AllWaiting, FateOf;
  }

  lemma HandsFrom(s: System, t: System)
    requires AwaitingNamed(s) && SameHands(s, t)
    ensures From(s, t)
  {
    SameOwnersUnsent(s, t);
    UnsentFrom(s, t);
  }

  // ---------- handing over ----------

  /** Any owner but the one handed over waits for the flush it waited for. */
  lemma OthersFrom(s: System, t: System, c: string, d: string, i: nat)
    requires AwaitingNamed(s) && IsOwing(t, d, i) && d != c
    requires t.owner - {c} == s.owner - {c} && t.srv.awaiting - {c} == s.srv.awaiting - {c}
    ensures FromCommand(s, i, t.srv.awaiting[d].deploymentID, t.srv.awaiting[d].result)
  {
    SameElsewhere(t.owner, s.owner, c);
    SameElsewhere(t.srv.awaiting, s.srv.awaiting, c);
    assert AtFlush(s, i, t.srv.awaiting[d].deploymentID, t.srv.awaiting[d].result);
    hide AtTerm, AtFlush;
  }

  lemma StoredFrom(s: System, t: System, c: string, e: Commit)
    requires AwaitingNamed(s)
    requires t.owner == s.owner - {c} && t.srv.awaiting == s.srv.awaiting - {c} && t.commits == s.commits + [e]
    requires e.origin.Some? ==> FromCommand(s, e.origin.value, e.deploymentID, e.result)
    ensures From(s, t)
  {
    hide AwaitingNamed, AtTerm, AtFlush, FromCommand;
    forall d, i | IsOwing(t, d, i) ensures FromCommand(s, i, t.srv.awaiting[d].deploymentID, t.srv.awaiting[d].result) {
      OthersFrom(s, t, c, d, i);
    }
  }

  lemma WaitsFrom(s: System, t: System, c: string, origin: Option<nat>, w: AwaitingResult)
    requires AwaitingNamed(s)
    requires t.owner == s.owner[c := Owing(origin)] && t.srv.awaiting == s.srv.awaiting[c := w]
      && t.commits == s.commits
    requires origin.Some? ==> FromCommand(s, origin.value, w.deploymentID, w.result)
    ensures From(s, t)
  {
    hide AwaitingNamed, AtTerm, AtFlush, FromCommand;
    forall d, i | IsOwing(t, d, i) ensures FromCommand(s, i, t.srv.awaiting[d].deploymentID, t.srv.awaiting[d].result) {
      if d != c { OthersFrom(s, t, c, d, i); }
    }
  }

  lemma SendFrom(s: System, u: System, origin: Option<nat>, dep: string, result: Result, p: Persist)
    requires Owners(s) && Roomy(s) && Reports(s, u, result.commandID) && AwaitingNamed(s) && u.commits == s.commits
    requires ValidUUID(dep) && ValidResult(result) && (origin.Some? ==> AtTerm(s, origin.value, dep, result))
    ensures From(s, SendResult(u, origin, dep, result, p))
  {
    var t := SendResult(u, origin, dep, result, p);
    var c := result.commandID;
    SendOutcome(s, u, origin, dep, result, p);
    assert u.owner == s.owner;
    hide SendResult, Owners, Roomy, ValidUUID, ValidResult, StoreKept, Reports, AtTerm, AtFlush, From, AwaitingNamed;
    if p.Persisted? {
      StoredFrom(s, t, c, Commit(origin, dep, result));
    } else {
      WaitsFrom(s, t, c, origin, AwaitingResult(dep, result));
    }
  }

  lemma EndReportFrom(s: System, id: nat, p: Persist)
    requires Owners(s) && Sound(s) && Roomy(s) && EndingEnabled(s, id, EndCommand(p)) && AwaitingNamed(s)
    requires s.terms[id].ending.Report?
    ensures From(s, Ended(s, id, p))
  {
    var order := s.srv.cmds[id].order;
    var result := s.terms[id].ending.result;
    EndHolds(s, id);
    assert result.commandID == order.commandID && ValidResult(result) && ValidUUID(order.deploymentID);
    assert AtTerm(s, id, order.deploymentID, result);
    hide Owners, Sound, Roomy, Reports, ValidResult, ValidUUID, SendResult, From, AtTerm, AwaitingNamed;
    SendFrom(s, s.(terms := s.terms - {id}), Some(id), order.deploymentID, result, p);
  }

  lemma EndDropFrom(s: System, id: nat, p: Persist)
    requires EndingEnabled(s, id, EndCommand(p)) && AwaitingNamed(s) && s.terms[id].ending.Drop?
    ensures From(s, Ended(s, id, p))
  {
    hide From, AwaitingNamed;
    HandsFrom(s, Ended(s, id, p));
  }

  lemma EndDiscardFrom(s: System, id: nat, p: Persist)
    requires Owners(s) && EndingEnabled(s, id, EndCommand(p)) && AwaitingNamed(s) && s.terms[id].ending.Discard?
    ensures From(s, Ended(s, id, p))
  {
    var c := s.srv.cmds[id].order.commandID;
    assert Held(s, id) && s.owner[c] == Holding(id);
    hide From, Unsent, Owners, AwaitingNamed;
    OneOwnerUnsent(s, Ended(s, id, p), c);
    UnsentFrom(s, Ended(s, id, p));
  }

  lemma FlushSource(s: System, c: string)
    requires AwaitingNamed(s) && c in s.srv.awaiting && c in s.owner && s.owner[c].Owing?
    ensures var w := s.srv.awaiting[c];
      && w.result.commandID == c
      && (s.owner[c].origin.Some? ==> AtFlush(s, s.owner[c].origin.value, w.deploymentID, w.result))
  {}

  lemma FlushFrom(s: System, c: string, p: Persist)
    requires Owners(s) && Sound(s) && Roomy(s) && OutboxEnabled(s, Flush(c, p)) && AwaitingNamed(s)
    ensures From(s, Flushed(s, c, p))
  {
    var t := Flushed(s, c, p);
    var w := s.srv.awaiting[c];
    hide Flushed, Owners, Sound, Roomy, StoreKept, AtTerm, AtFlush, From, AwaitingNamed;
    FlushMoves(s, c, p);
    FlushSource(s, c);
    if p.Persisted? {
      StoredFrom(s, t, c, Commit(s.owner[c].origin, w.deploymentID, w.result));
    } else {
      HandsFrom(s, t);
    }
  }

  lemma ReportFrom(s: System, c: string, code: string, p: Persist)
    requires Owners(s) && Sound(s) && Roomy(s) && ProcessEnabled(s, c, ReportFailure(code, p)) && AwaitingNamed(s)
    ensures From(s, ProcessApply(s, c, ReportFailure(code, p)))
  {
    var order := s.owner[c].stage.order;
    FailureIsValid(order, code, -1);
    ReportsAlone(s, c);
    assert ValidUUID(order.deploymentID) && order.commandID == c;
    hide Owners, Sound, Roomy, Reports, ValidResult, ValidUUID, ValidErrorCode, Reportable, SendResult, From;
    SendFrom(s, s, None, order.deploymentID, order.Reported("failed", code, -1), p);
  }

  // ---------- every step ----------

  lemma DeliveryFrom(s: System, part: OutboxStep)
    requires Owners(s) && Sound(s) && Roomy(s) && OutboxEnabled(s, part) && AwaitingNamed(s)
    ensures From(s, OutboxApply(s, part))
  {
    var t := OutboxApply(s, part);
    hide Owners, Sound, Roomy, From, Flushed, Delete, Retry, Unsent, AwaitingNamed;
    match part {
      case Flush(c, p) => FlushFrom(s, c, p);
      case _ => SameOwnersUnsent(s, t); UnsentFrom(s, t);
    }
  }

  lemma StepFrom(s: System, step: Step)
    requires Safe(s) && Enabled(s, step)
    ensures From(s, Apply(s, step))
  {
    assert Shape(s.srv) && AwaitingNamed(s);
    var t := Apply(s, step);
    hide Owners, Sound, Roomy, Shape, From, Unsent, SameHands, AwaitingNamed;
    hide ProcessEnabled, ProcessApply, WriterEnabled, WriterApply, EndingEnabled, EndingApply, OutboxEnabled;
    hide OutboxApply;
    hide Polled, Acked, Closing, Enumerates;
    match step
    case Tick(_) => TickHands(s, t); HandsFrom(s, t);
    case Process(c, ReportFailure(code, p)) => ReportFrom(s, c, code, p);
    case Process(c, act) => ProcessUnsent(s, c, act); UnsentFrom(s, t);
    case Poll(d) => PollHands(s, d); HandsFrom(s, t);
    case Serving(id, does) => ServingHands(s, id, does); HandsFrom(s, t);
    case Ack(d, localID, code) => AckHands(s, PendingKey(d, localID), code); HandsFrom(s, t);
    case EndingOf(id, EndCommand(p)) => EndCommandFrom(s, id, p);
    case EndingOf(id, ends) => EndingHands(s, id, ends); HandsFrom(s, t);
    case Delivery(part) => DeliveryFrom(s, part);
    case CloseServer(out) => CloseUnsent(s, out); UnsentFrom(s, t);
  }

  lemma EndCommandFrom(s: System, id: nat, p: Persist)
    requires Owners(s) && Sound(s) && Roomy(s) && EndingEnabled(s, id, EndCommand(p)) && AwaitingNamed(s)
    ensures From(s, EndingApply(s, id, EndCommand(p)))
  {
    hide Owners, Sound, Roomy, From, Ended, AwaitingNamed;
    match s.terms[id].ending {
      case Report(_) => EndReportFrom(s, id, p);
      case Drop => EndDropFrom(s, id, p);
      case Discard => EndDiscardFrom(s, id, p);
    }
  }

  lemma TickHands(s: System, t: System)
    requires t == s.(now := t.now)
    ensures SameHands(s, t)
  {}

  // ---------- every run ----------

  ghost predicate OwedAbout(s: System) {
    forall c, i | IsOwing(s, c, i) :: About(s, i, s.srv.awaiting[c].deploymentID, s.srv.awaiting[c].result)
  }

  ghost predicate CommitsAbout(s: System) {
    forall e | e in s.commits && e.origin.Some? :: About(s, e.origin.value, e.deploymentID, e.result)
  }

  ghost predicate Truthful(s: System) { TermsCarry(s) && OwedAbout(s) && CommitsAbout(s) }

  lemma AboutStays(s: System, t: System, i: nat, dep: string, result: Result)
    requires Coherents(s) && AllMoved(s, t) && About(s, i, dep, result)
    ensures About(t, i, dep, result)
  {
    assert MovedIn(s, t, i) && Coherent(i, LifeOf(s, i));
    hide Coherent, Moved, PlaceOf, TrailGrows, Carries;
    OrderStays(i, LifeOf(s, i), LifeOf(t, i), s.now, NewsOf(s, t, i));
  }

  lemma OrderStays(i: nat, a: Life, b: Life, now: int, e: Option<Milestone>)
    requires Moved(i, a, b, now, e) && a.body.Some? && Coherent(i, a)
    ensures b.body.Some? && b.body.value.order == a.body.value.order
  {
    hide Wire, Spent, FateOf, SameDeletion, LeaseBoundsWrite, OwnReport;
  }

  lemma FromIsAbout(s: System, i: nat, dep: string, result: Result)
    requires TermsCarry(s) && OwedAbout(s) && FromCommand(s, i, dep, result)
    ensures About(s, i, dep, result)
  {
    assert TermCarries(LifeOf(s, i));
    hide Carries, PlaceOf;
  }

  lemma StepKeepsTruthful(s: System, t: System)
    requires Coherents(s) && AllMoved(s, t) && From(s, t) && Truthful(s)
    ensures Truthful(t)
  {
    MovesKeepCarries(s, t);
    hide TermsCarry, Coherents, AllMoved, About, FromCommand;
    forall c, i | IsOwing(t, c, i) ensures About(t, i, t.srv.awaiting[c].deploymentID, t.srv.awaiting[c].result) {
      FromIsAbout(s, i, t.srv.awaiting[c].deploymentID, t.srv.awaiting[c].result);
      AboutStays(s, t, i, t.srv.awaiting[c].deploymentID, t.srv.awaiting[c].result);
    }
    forall e | e in t.commits && e.origin.Some? ensures About(t, e.origin.value, e.deploymentID, e.result) {
      if e !in s.commits { FromIsAbout(s, e.origin.value, e.deploymentID, e.result); }
      AboutStays(s, t, e.origin.value, e.deploymentID, e.result);
    }
  }

  lemma {:induction false} RunKeepsTruthful(s: System, steps: seq<Step>, t: System)
    requires Safe(s) && Intact(s) && Truthful(s) && Run(s, steps, t)
    ensures Truthful(t)
    decreases |steps|
  {
    hide Safe, Coherents, Truthful, Apply, Enabled, From, AllMoved;
    if steps != [] {
      var u := Apply(s, steps[0]);
      StepFrom(s, steps[0]);
      StepKeepsIntact(s, steps[0]);
      StepKeepsSafe(s, steps[0]);
      StepKeepsTruthful(s, u);
      RunKeepsTruthful(u, steps[1..], t);
    }
  }

  lemma InitIsTruthful(s: System)
    requires Init(s)
    ensures Truthful(s)
  {
    hide Reopens;
  }

  /** Every stored report of a queued command carries its deployment, device, digest, id, attempt and asset;
      and it says applied only with return code 0 and no error. */
  lemma ReportsAreTheCommandsOwn(s: System, e: Commit)
    requires Reachable(s) && e in s.commits && e.origin.Some?
    ensures About(s, e.origin.value, e.deploymentID, e.result)
  {
    hide Safe, Intact, Init, Run, Truthful;
    assert Truthful(s) by {
      var first, steps :| Init(first) && Run(first, steps, s);
      InitIsSafe(first);
      InitIsIntact(first);
      InitIsTruthful(first);
      RunKeepsTruthful(first, steps, s);
    }
    StoredIsAbout(s, e);
  }

  lemma StoredIsAbout(s: System, e: Commit)
    requires Truthful(s) && e in s.commits && e.origin.Some?
    ensures About(s, e.origin.value, e.deploymentID, e.result)
  {
    hide TermsCarry, OwedAbout, About;
  }
}
