/** Over every run: in which order, how often and how long commands are handed to a scanner. */
module ServingOrder {
  import opened Identifiers
  import opened ResultOutbox
  import opened Claims
  import opened SecretServer
  import opened Lifecycle
  import opened OwnershipInvariant
  import opened OwnershipSteps
  import opened OwnershipTheorems
  import opened CommandLife
  import opened PayloadSafety

  /** A device gets its commands in the order of their ids, and each again with a higher attempt. */
  ghost predicate InTurn(claims: seq<ServeClaim>) {
    forall a, b | 0 <= a < b < |claims| && claims[a].deviceSN == claims[b].deviceSN ::
      claims[a].id < claims[b].id || (claims[a].id == claims[b].id && claims[a].attempt < claims[b].attempt)
  }

  predicate FirstAt(claims: seq<ServeClaim>, k: nat, id: nat, at: int) {
    k < |claims| && claims[k].id == id && claims[k].attempt == 1 && claims[k].at == at
  }

  ghost predicate HasFirst(claims: seq<ServeClaim>, id: nat, at: int) { exists k: nat :: FirstAt(claims, k, id, at) }

  /** The counters of one command. */
  ghost predicate Timed(claims: seq<ServeClaim>, i: nat, a: Life) {
    a.body.Some? ==>
      && a.body.value.serveAttempts <= MAX_SERVE_ATTEMPTS
      && (a.place.Pending? ==>
            && a.body.value.firstServedAt.Some? && a.body.value.serveAttempts >= 1
            && HasFirst(claims, i, a.body.value.firstServedAt.value))
  }

  /** One past claim, and the command it was for. */
  ghost predicate Fitting(claims: seq<ServeClaim>, c: ServeClaim, a: Life) {
    && a.body.Some? && (a.place.Pending? || a.place.Gone?)
    && a.body.value.order.deviceSN == c.deviceSN
    && 1 <= c.attempt <= a.body.value.serveAttempts
    && a.body.value.firstServedAt.Some?
    && HasFirst(claims, c.id, a.body.value.firstServedAt.value)
    && c.at < a.body.value.firstServedAt.value + SERVE_DEADLINE
  }

  /** What waits in line for a device is newer than all that was handed to it. */
  ghost predicate Newer(c: ServeClaim, i: nat, a: Life) {
    a.body.Some? && a.body.value.order.deviceSN == c.deviceSN ==>
      && (a.place.InLine? ==> c.id < i)
      && (a.place.Pending? ==> c.id <= i)
  }

  ghost predicate AllTimed(s: System) { forall i: nat :: Timed(s.claims, i, LifeOf(s, i)) }

  ghost predicate AllFitting(s: System) { forall c | c in s.claims :: Fitting(s.claims, c, LifeOf(s, c.id)) }

  ghost predicate AllNewer(s: System) { forall c, i: nat | c in s.claims :: Newer(c, i, LifeOf(s, i)) }

  ghost predicate Served(s: System) { InTurn(s.claims) && AllTimed(s) && AllFitting(s) && AllNewer(s) }

  // ---------- what a step adds ----------

  ghost predicate ClaimedNow(s: System, t: System, c: ServeClaim) {
    && t.claims == s.claims + [c]
    && t.srv.pending.Keys <= s.srv.pending.Keys + {PendingKey(c.deviceSN, c.id)}
    && c.id in t.srv.cmds && IsPending(t.srv, c.id)
    && c.deviceSN == t.srv.cmds[c.id].order.deviceSN
    && c.attempt == t.srv.cmds[c.id].serveAttempts
    && c.at == s.now
    && (FirstClaim(LifeOf(s, c.id), LifeOf(t, c.id), s.now) || NextClaim(LifeOf(s, c.id), LifeOf(t, c.id), s.now))
  }

  ghost predicate ClaimsGrow(s: System, t: System) {
    if |t.claims| == |s.claims| + 1 then
      ClaimedNow(s, t, t.claims[|s.claims|])
    else
      t.claims == s.claims && t.srv.pending.Keys <= s.srv.pending.Keys
  }

  ghost predicate IdsGrow(s: System, t: System) {
    forall i | i in t.srv.cmds && i !in s.srv.cmds :: i > s.srv.cmdID
  }

  ghost predicate Silent(s: System, t: System) {
    && t.claims == s.claims && t.srv.cmds.Keys == s.srv.cmds.Keys
    && t.srv.pending.Keys <= s.srv.pending.Keys
  }

  lemma SilentSteps(s: System, t: System)
    requires Silent(s, t)
    ensures ClaimsGrow(s, t) && IdsGrow(s, t)
  {
    hide ClaimedNow;
  }

  lemma LeaveSilent(s: System, out: seq<nat>, ending: Ending)
    ensures Silent(s, Leave(s, out, ending))
  {
    hide Keep, IsPending, FateOf;
  }

  lemma ReleaseSilent(srv: Srv, id: nat)
    requires id in srv.cmds
    ensures ReleaseWriter(srv, id).cmds.Keys == srv.cmds.Keys && ReleaseWriter(srv, id).pending == srv.pending
  {
    hide IsPending;
  }

  lemma FailSilent(s: System, id: nat, code: string)
    requires id in s.srv.cmds
    ensures Silent(s, FailServed(s, id, code)) && Silent(s, DiscardServed(s, id))
    ensures ReleaseWriter(s.srv, id).cmds.Keys == s.srv.cmds.Keys && ReleaseWriter(s.srv, id).pending == s.srv.pending
  {
    assert Silent(s, s);
    ReleaseSilent(s.srv, id);
    hide IsPending, Leave, Silent, ReleaseWriter;
    LeaveSilent(s, [id], Report(s.srv.cmds[id].order.Reported("failed", code, -1)));
    LeaveSilent(s, [id], Discard);
  }

  lemma DeviceSilent(s: System, id: nat, does: WriterStep)
    requires WriterEnabled(s, id, does) && (does.CheckDevice? || does.RecheckDevice? || does.BreakWrite?)
    ensures Silent(s, WriterApply(s, id, does))
  {
    FailSilent(s, id, if does.BreakWrite? then "network_unavailable" else does.code);
    hide ValidErrorCode, ReleaseWriter, FailServed;
  }

  lemma RecheckSilent(s: System, id: nat, answer: RecheckAnswer)
    requires id in s.srv.cmds
    ensures Silent(s, Recheck(s, id, answer))
  {
    FailSilent(s, id, "");
    WriterDone(s, s, id);
    WriterDone(s, DiscardServed(s, id), id);
    WriterDone(s, s.(srv := ReleaseWriter(s.srv, id)), id);
    hide RecheckCode, ReleaseWriter, DiscardServed, EndWriter;
  }

  lemma WriterDone(s: System, t: System, id: nat)
    requires Silent(s, t)
    ensures Silent(s, EndWriter(t, id))
  {}

  lemma LeaseSilent(s: System, id: nat)
    requires InWriter(s, id) && s.writers[id].Leased?
    ensures Silent(s, Lease(s, id))
  {
    FailSilent(s, id, "");
    hide ReleaseWriter, LeaseBoundsWrite;
  }

  lemma BeginSilent(s: System, id: nat)
    requires id in s.srv.cmds
    ensures Silent(s, Begin(s, id))
  {
    FailSilent(s, id, "");
    hide ReleaseWriter, IsPending;
  }

  lemma WriterSilent(s: System, id: nat, does: WriterStep)
    requires WriterEnabled(s, id, does)
    ensures Silent(s, WriterApply(s, id, does))
  {
    match does {
      case CheckDevice(_) => hide *; DeviceSilent(s, id, does);
      case RecheckDevice(_) => hide *; DeviceSilent(s, id, does);
      case BreakWrite(_) => hide *; DeviceSilent(s, id, does);
      case RecheckClaim(answer) => hide Recheck, Wire; RecheckSilent(s, id, answer);
      case CheckLease => hide Lease, Wire; LeaseSilent(s, id);
      case StartWrite => hide Begin, Wire; BeginSilent(s, id);
      case WriteSome(_) => hide Wire;
      case FinishWrite => hide Wire, IsPending;
    }
  }

  lemma SendSilent(u: System, origin: Option<nat>, dep: string, result: Result, p: Persist)
    ensures SendResult(u, origin, dep, result, p).claims == u.claims && Apart(u, SendResult(u, origin, dep, result, p))
  {
    SendApart(u, origin, dep, result, p);
    hide EnqueueResult;
  }

  lemma ApartIsSilent(s: System, t: System)
    requires t.claims == s.claims && Apart(s, t)
    ensures Silent(s, t)
  {}

  lemma EndedSilent(s: System, id: nat, p: Persist)
    requires EndingEnabled(s, id, EndCommand(p))
    ensures Silent(s, Ended(s, id, p))
  {
    var u := s.(terms := s.terms - {id});
    match s.terms[id].ending {
      case Report(result) =>
        SendSilent(u, Some(id), s.srv.cmds[id].order.deploymentID, result, p);
        hide SendResult, Silent, Apart;
        ApartIsSilent(u, Ended(s, id, p));
        SilentUnder(s, u, Ended(s, id, p));
      case _ => hide SendResult;
    }
  }

  lemma SilentUnder(s: System, u: System, t: System)
    requires u.srv == s.srv && u.claims == s.claims && Silent(u, t)
    ensures Silent(s, t)
  {}

  lemma EndingSilent(s: System, id: nat, ends: EndingStep)
    requires EndingEnabled(s, id, ends)
    ensures Silent(s, EndingApply(s, id, ends))
  {
    hide FailServed, Leave, InQueue, Ended;
    match ends
    case PreServeTimer => LeaveSilent(s, [id], Discard);
    case DeadlineTimer => FailSilent(s, id, "network_unavailable");
    case Zero =>
    case EndCommand(p) => EndedSilent(s, id, p);
  }

  lemma ProcessSilent(s: System, c: string, act: ProcessStep)
    requires Shape(s.srv) && ProcessEnabled(s, c, act)
    ensures ClaimsGrow(s, ProcessApply(s, c, act)) && IdsGrow(s, ProcessApply(s, c, act))
  {
    var t := ProcessApply(s, c, act);
    hide Shape, ClaimsGrow, IdsGrow, Enumerates, Leave, ValidClaim, OrderOf, ValidErrorCode, ValidUUID, Queue;
    hide SendResult;
    match act
    case SupersedeOthers(out) => LeaveSilent(s, out, Discard); SilentSteps(s, t);
    case ReportFailure(code, p) =>
      SendSilent(s, None, s.owner[c].stage.order.deploymentID, s.owner[c].stage.order.Reported("failed", code, -1), p);
      SilentSteps(s, t);
    case QueueCommand(payload, lease) => QueueSilent(s, c, payload, lease);
    case _ => SilentSteps(s, t);
  }

  lemma QueueSilent(s: System, c: string, payload: string, lease: int)
    requires Shape(s.srv) && InStage(s, c) && s.owner[c].stage.Superseding?
    ensures ClaimsGrow(s, Queue(s, c, payload, lease)) && IdsGrow(s, Queue(s, c, payload, lease))
  {
    hide ValidUUID, ValidIdentifier, Shape, ClaimedNow;
  }

  lemma PollGrows(s: System, d: string)
    requires Shape(s.srv)
    ensures ClaimsGrow(s, Polled(s, d)) && IdsGrow(s, Polled(s, d))
  {
    var t := Polled(s, d);
    hide Shape, Spent, Leave, TakeFirst, ClaimsGrow, IdsGrow;
    if PendingOf(s.srv, d).Some? {
      PendingIsLive(s.srv, d);
      var id := PendingOf(s.srv, d).value;
      hide PendingOf, QueueOf, IsPending;
      match ClaimWriter(s.srv, d, s.now).1 {
        case Busy => SilentSteps(s, t);
        case Exhausted(_) => LeaveSilent(s, [id], Report(NetworkFailure(s, id))); SilentSteps(s, t);
        case Serve(_) => ReclaimGrows(s, t, id, d);
      }
    } else if QueueOf(s.srv, d) != [] {
      TakeGrows(s, d);
    } else {
      SilentSteps(s, t);
    }
  }

  lemma ReclaimGrows(s: System, t: System, id: nat, d: string)
    requires id in s.srv.cmds && IsPending(s.srv, id) && s.srv.cmds[id].order.deviceSN == d
    requires !s.srv.cmds[id].writerActive && !Spent(s.srv.cmds[id], s.now)
    requires t.srv.cmds
      == s.srv.cmds[id := s.srv.cmds[id].(writerActive := true, serveAttempts := s.srv.cmds[id].serveAttempts + 1)]
    requires t == s.(srv := s.srv.(cmds := t.srv.cmds), writers := s.writers[id := Checking],
                     claims := s.claims + [ServeClaim(id, d, t.srv.cmds[id].serveAttempts, s.now)])
    ensures ClaimsGrow(s, t) && IdsGrow(s, t)
  {
    assert IsPending(t.srv, id);
    assert NextClaim(LifeOf(s, id), LifeOf(t, id), s.now) by { hide InQueue, Spent, IsPending; }
    hide NextClaim, FirstClaim, LifeOf, IsPending, Spent;
  }

  lemma TakeGrows(s: System, d: string)
    requires Shape(s.srv) && PendingOf(s.srv, d).None? && QueueOf(s.srv, d) != []
    ensures ClaimsGrow(s, Polled(s, d)) && IdsGrow(s, Polled(s, d))
  {
    var t := Polled(s, d);
    var id := QueueOf(s.srv, d)[0];
    TakeFirstPlaces(s.srv, d, s.now);
    TakeFirstMoves(s.srv, d, s.now);
    QueuedIsInLine(s.srv, d, id);
    assert s.srv.cmds[id].order.deviceSN == d by { assert AllFor(s.srv.cmds, d, QueueOf(s.srv, d)); }
    assert IsPending(t.srv, id) by { hide Shape, PendingOf; }
    hide Shape, PendingOf, PlaceOf, QueueOf, IsPending, Waiting;
    assert t.srv == TakeFirst(s.srv, d, s.now);
    assert FirstClaim(LifeOf(s, id), LifeOf(t, id), s.now);
    hide FirstClaim, NextClaim, LifeOf, TakeFirst;
  }

  lemma CloseSilent(s: System, out: seq<nat>)
    ensures Silent(s, Closing(s, out))
  {
    hide Keep, IsPending, FateOf, AllWaiting;
  }

  lemma AckSilent(s: System, key: PendingKey, code: int)
    ensures Silent(s, Acked(s, key, code))
  {
    hide Leave;
    match Completion(s.srv, key, code)
    case None =>
    case Some(result) => LeaveSilent(s, [s.srv.pending[key]], Report(result));
  }

  lemma DeliverySilent(s: System, part: OutboxStep)
    requires OutboxEnabled(s, part)
    ensures Silent(s, OutboxApply(s, part))
  {
    hide Enqueue, Delete, Retry;
  }

  lemma StepGrows(s: System, step: Step)
    requires Shape(s.srv) && Enabled(s, step)
    ensures ClaimsGrow(s, Apply(s, step)) && IdsGrow(s, Apply(s, step))
  {
    var t := Apply(s, step);
    hide ProcessEnabled, ProcessApply, WriterEnabled, WriterApply, EndingEnabled, EndingApply, OutboxEnabled;
    hide OutboxApply, Shape, Polled, Acked, Enumerates, Closing;
    hide ClaimsGrow, IdsGrow, Silent;
    match step
    case Tick(_) => TickSilent(s, t);
    case Process(c, act) => ProcessSilent(s, c, act);
    case Poll(d) => PollGrows(s, d);
    case Serving(id, does) => WriterSilent(s, id, does); SilentSteps(s, t);
    case Ack(d, localID, code) => AckSilent(s, PendingKey(d, localID), code); SilentSteps(s, t);
    case EndingOf(id, ends) => EndingSilent(s, id, ends); SilentSteps(s, t);
    case Delivery(part) => DeliverySilent(s, part); SilentSteps(s, t);
    case CloseServer(out) => CloseSilent(s, out); SilentSteps(s, t);
  }

  lemma TickSilent(s: System, t: System)
    requires t == s.(now := t.now)
    ensures ClaimsGrow(s, t) && IdsGrow(s, t)
  {}

  // ---------- one command ----------

  lemma FirstStays(s: System, t: System, i: nat, at: int)
    requires ClaimsGrow(s, t) && HasFirst(s.claims, i, at)
    ensures HasFirst(t.claims, i, at)
  {
    var k: nat :| FirstAt(s.claims, k, i, at);
    hide ClaimedNow;
    assert t.claims == s.claims || t.claims == s.claims + [t.claims[|s.claims|]] by { ClaimsExtend(s, t); }
    assert FirstAt(t.claims, k, i, at);
  }

  lemma ClaimsExtend(s: System, t: System)
    requires ClaimsGrow(s, t)
    ensures t.claims == s.claims || (|t.claims| == |s.claims| + 1 && t.claims == s.claims + [t.claims[|s.claims|]])
  {}

  /** A command that was handed out never waits in line again, and its counters only grow. */
  lemma MoveKeepsFitting(claims: seq<ServeClaim>, after: seq<ServeClaim>, c: ServeClaim, a: Life, b: Life, now: int,
    e: Option<Milestone>)
    requires Coherent(c.id, a) && Moved(c.id, a, b, now, e) && Fitting(claims, c, a)
    requires forall at | HasFirst(claims, c.id, at) :: HasFirst(after, c.id, at)
    ensures Fitting(after, c, b)
  {
    hide Wire, FateOf, SameDeletion, LeaseBoundsWrite, HasFirst;
  }

  /** Without a new claim of it. */
  lemma MoveKeepsTimed(claims: seq<ServeClaim>, after: seq<ServeClaim>, i: nat, a: Life, b: Life, now: int,
    e: Option<Milestone>)
    requires Coherent(i, a) && Moved(i, a, b, now, e) && Timed(claims, i, a)
    requires forall at | HasFirst(claims, i, at) :: HasFirst(after, i, at)
    requires FirstClaim(a, b, now) ==> HasFirst(after, i, now)
    ensures Timed(after, i, b)
  {
    hide Wire, FateOf, SameDeletion, LeaseBoundsWrite, HasFirst;
  }

  lemma MoveKeepsNewer(c: ServeClaim, i: nat, a: Life, b: Life, now: int, e: Option<Milestone>)
    requires Coherent(i, a) && Moved(i, a, b, now, e) && Newer(c, i, a)
    requires a.place.Absent? && !b.place.Absent? ==> c.id < i
    ensures Newer(c, i, b)
  {
    hide Wire, FateOf, SameDeletion, LeaseBoundsWrite, Spent;
  }

  // ---------- all commands ----------

  lemma OldFits(s: System, t: System, c: ServeClaim)
    requires Coherents(s) && AllMoved(s, t) && ClaimsGrow(s, t) && c in s.claims
      && Fitting(s.claims, c, LifeOf(s, c.id))
    ensures Fitting(t.claims, c, LifeOf(t, c.id))
  {
    CoherentAt(s, c.id);
    assert MovedIn(s, t, c.id);
    forall at | HasFirst(s.claims, c.id, at) ensures HasFirst(t.claims, c.id, at) { FirstStays(s, t, c.id, at); }
    hide Coherents, AllMoved, ClaimsGrow, Coherent, Moved, LifeOf, Fitting, HasFirst;
    MoveKeepsFitting(s.claims, t.claims, c, LifeOf(s, c.id), LifeOf(t, c.id), s.now, NewsOf(s, t, c.id));
  }

  lemma NewFits(s: System, t: System, c: ServeClaim)
    requires ClaimedNow(s, t, c) && Timed(s.claims, c.id, LifeOf(s, c.id)) && HasFirstAfter(s, t, c)
    ensures Fitting(t.claims, c, LifeOf(t, c.id))
    ensures c.attempt <= MAX_SERVE_ATTEMPTS
  {
    hide HasFirst, InQueue;
  }

  /** The first claim of a newly claimed command is on record. */
  ghost predicate HasFirstAfter(s: System, t: System, c: ServeClaim)
    requires c.id in t.srv.cmds
  {
    t.srv.cmds[c.id].firstServedAt.Some? ==> HasFirst(t.claims, c.id, t.srv.cmds[c.id].firstServedAt.value)
  }

  lemma NewHasFirst(s: System, t: System, c: ServeClaim)
    requires ClaimsGrow(s, t) && ClaimedNow(s, t, c) && Timed(s.claims, c.id, LifeOf(s, c.id))
    ensures HasFirstAfter(s, t, c)
  {
    if FirstClaim(LifeOf(s, c.id), LifeOf(t, c.id), s.now) {
      assert FirstAt(t.claims, |s.claims|, c.id, s.now) by { hide LifeOf, IsPending; }
      hide IsPending, InQueue, FirstAt;
    } else {
      hide IsPending, InQueue, HasFirst;
      FirstStays(s, t, c.id, s.srv.cmds[c.id].firstServedAt.value);
    }
  }

  lemma FitsKept(s: System, t: System)
    requires Coherents(s) && AllMoved(s, t) && ClaimsGrow(s, t) && AllFitting(s) && AllTimed(s)
    ensures AllFitting(t)
  {
    forall c | c in t.claims ensures Fitting(t.claims, c, LifeOf(t, c.id)) {
      ClaimsExtend(s, t);
      if c in s.claims {
        hide Coherents, AllMoved, ClaimsGrow, Fitting, LifeOf;
        OldFits(s, t, c);
      } else {
        assert c == t.claims[|s.claims|] && ClaimedNow(s, t, c);
        assert Timed(s.claims, c.id, LifeOf(s, c.id));
        hide Coherents, AllMoved, ClaimsGrow, Fitting, LifeOf, Timed, ClaimedNow, AllTimed, AllFitting, HasFirstAfter;
        NewHasFirst(s, t, c);
        NewFits(s, t, c);
      }
    }
  }

  lemma OneTimed(s: System, t: System, i: nat)
    requires Coherents(s) && AllMoved(s, t) && ClaimsGrow(s, t) && Timed(s.claims, i, LifeOf(s, i))
    requires FirstClaim(LifeOf(s, i), LifeOf(t, i), s.now) ==> HasFirst(t.claims, i, s.now)
    ensures Timed(t.claims, i, LifeOf(t, i))
  {
    CoherentAt(s, i);
    assert MovedIn(s, t, i);
    forall at | HasFirst(s.claims, i, at) ensures HasFirst(t.claims, i, at) { FirstStays(s, t, i, at); }
    hide Coherents, AllMoved, ClaimsGrow, Coherent, Moved, LifeOf, HasFirst, Timed, FirstClaim;
    MoveKeepsTimed(s.claims, t.claims, i, LifeOf(s, i), LifeOf(t, i), s.now, NewsOf(s, t, i));
  }

  lemma ClaimIsFirst(s: System, t: System, i: nat)
    requires ClaimsGrow(s, t) && FirstClaim(LifeOf(s, i), LifeOf(t, i), s.now)
    ensures |t.claims| == |s.claims| + 1 && t.claims[|s.claims|].id == i
  {
    assert i in s.srv.cmds && i in t.srv.cmds && t.srv.cmds[i].order == s.srv.cmds[i].order && !IsPending(s.srv, i)
      && IsPending(t.srv, i) by {
      hide InQueue, IsPending, ClaimsGrow;
    }
    var key := PendingKey(s.srv.cmds[i].order.deviceSN, i);
    assert key in t.srv.pending.Keys && key !in s.srv.pending.Keys;
    hide FirstClaim, NextClaim, LifeOf;
  }

  lemma TimedKept(s: System, t: System)
    requires Coherents(s) && AllMoved(s, t) && ClaimsGrow(s, t) && AllTimed(s)
    ensures AllTimed(t)
  {
    hide Coherents, AllMoved, LifeOf, Timed, FirstClaim, NextClaim, HasFirst, IsPending;
    forall i: nat ensures Timed(t.claims, i, LifeOf(t, i)) {
      if FirstClaim(LifeOf(s, i), LifeOf(t, i), s.now) {
        FirstIsNow(s, t, i);
      }
      hide ClaimsGrow;
      OneTimed(s, t, i);
    }
  }

  lemma FirstIsNow(s: System, t: System, i: nat)
    requires ClaimsGrow(s, t) && FirstClaim(LifeOf(s, i), LifeOf(t, i), s.now)
    ensures HasFirst(t.claims, i, s.now)
  {
    ClaimIsFirst(s, t, i);
    assert t.srv.cmds[i].serveAttempts == 1;
    hide IsPending, InQueue;
    assert FirstAt(t.claims, |s.claims|, i, s.now);
  }

  lemma OldStaysNewer(s: System, t: System, c: ServeClaim, i: nat)
    requires Coherents(s) && AllMoved(s, t) && Shape(s.srv) && IdsGrow(s, t)
    requires Fitting(s.claims, c, LifeOf(s, c.id)) && Newer(c, i, LifeOf(s, i))
    ensures Newer(c, i, LifeOf(t, i))
  {
    CoherentAt(s, i);
    assert MovedIn(s, t, i);
    assert c.id <= s.srv.cmdID by { assert c.id in s.srv.cmds; }
    assert LifeOf(s, i).place.Absent? && !LifeOf(t, i).place.Absent? ==> c.id < i;
    hide Coherents, AllMoved, Coherent, Moved, LifeOf, Fitting, Newer, Shape, IdsGrow;
    MoveKeepsNewer(c, i, LifeOf(s, i), LifeOf(t, i), s.now, NewsOf(s, t, i));
  }

  lemma PendingIsOldest(srv: Srv, id: nat, i: nat)
    requires Shape(srv) && IsPending(srv, id) && i in srv.cmds
      && srv.cmds[i].order.deviceSN == srv.cmds[id].order.deviceSN
    ensures InQueue(srv, i) ==> id < i
    ensures IsPending(srv, i) ==> id == i
  {
    var d := srv.cmds[id].order.deviceSN;
    assert Matches(srv, PendingKey(d, id));
    hide Ascending, AllFor, Matches;
    assert IsPending(srv, i) ==> PendingKey(d, i) in srv.pending;
  }

  lemma NewIsOldest(s: System, t: System, c: ServeClaim, i: nat)
    requires ClaimedNow(s, t, c) && Shape(t.srv)
    ensures Newer(c, i, LifeOf(t, i))
  {
    hide Shape, FirstClaim, NextClaim, IsPending, InQueue;
    if i in t.srv.cmds && t.srv.cmds[i].order.deviceSN == c.deviceSN { PendingIsOldest(t.srv, c.id, i); }
  }

  lemma NewerKept(s: System, t: System)
    requires Coherents(s) && AllMoved(s, t) && ClaimsGrow(s, t) && IdsGrow(s, t) && Shape(s.srv) && Shape(t.srv)
    requires AllFitting(s) && AllNewer(s)
    ensures AllNewer(t)
  {
    forall c, i: nat | c in t.claims ensures Newer(c, i, LifeOf(t, i)) {
      ClaimsExtend(s, t);
      if c in s.claims {
        assert Newer(c, i, LifeOf(s, i)) && Fitting(s.claims, c, LifeOf(s, c.id));
        hide Coherents, AllMoved, ClaimsGrow, Fitting, LifeOf, Newer, Shape, IdsGrow, AllFitting, AllNewer;
        OldStaysNewer(s, t, c, i);
      } else {
        assert ClaimedNow(s, t, c);
        hide Coherents, AllMoved, ClaimsGrow, Fitting, LifeOf, Newer, Shape, IdsGrow, AllFitting, AllNewer, ClaimedNow;
        NewIsOldest(s, t, c, i);
      }
    }
  }

  lemma NewIsAfter(s: System, t: System, c: ServeClaim, past: ServeClaim)
    requires ClaimedNow(s, t, c) && past.deviceSN == c.deviceSN
    requires Newer(past, c.id, LifeOf(s, c.id)) && Fitting(s.claims, past, LifeOf(s, past.id))
    ensures past.id < c.id || (past.id == c.id && past.attempt < c.attempt)
  {
    hide IsPending, InQueue, HasFirst;
  }

  lemma TurnKept(s: System, t: System)
    requires ClaimsGrow(s, t) && InTurn(s.claims) && AllFitting(s) && AllNewer(s)
    ensures InTurn(t.claims)
  {
    ClaimsExtend(s, t);
    forall a, b | 0 <= a < b < |t.claims| && t.claims[a].deviceSN == t.claims[b].deviceSN
      ensures t.claims[a].id < t.claims[b].id
        || (t.claims[a].id == t.claims[b].id && t.claims[a].attempt < t.claims[b].attempt)
    {
      if b == |s.claims| {
        var c, past := t.claims[b], t.claims[a];
        assert past == s.claims[a] && past in s.claims && ClaimedNow(s, t, c);
        assert Newer(past, c.id, LifeOf(s, c.id)) && Fitting(s.claims, past, LifeOf(s, past.id));
        hide ClaimsGrow, InTurn, AllFitting, AllNewer, ClaimedNow, Newer, Fitting, LifeOf;
        NewIsAfter(s, t, c, past);
      } else {
        assert t.claims[a] == s.claims[a] && t.claims[b] == s.claims[b];
        hide ClaimsGrow, AllFitting, AllNewer;
      }
    }
  }

  // ---------- every run ----------

  lemma StepKeepsServed(s: System, step: Step)
    requires Safe(s) && Intact(s) && Served(s) && Enabled(s, step)
    ensures Served(Apply(s, step)) && Safe(Apply(s, step)) && Intact(Apply(s, step))
  {
    var t := Apply(s, step);
    StepKeepsSafe(s, step);
    assert Shape(s.srv) && Shape(t.srv);
    hide Safe, Shape, Apply, Enabled, Coherents, AllMoved, ClaimsGrow, IdsGrow, AllTimed, AllFitting, AllNewer, InTurn;
    StepKeepsIntact(s, step);
    StepGrows(s, step);
    FitsKept(s, t);
    TimedKept(s, t);
    NewerKept(s, t);
    TurnKept(s, t);
  }

  lemma {:induction false} RunKeepsServed(s: System, steps: seq<Step>, t: System)
    requires Safe(s) && Intact(s) && Served(s) && Run(s, steps, t)
    ensures Safe(t) && Served(t)
    decreases |steps|
  {
    hide Safe, Intact, Served, Apply, Enabled;
    if steps != [] {
      StepKeepsServed(s, steps[0]);
      RunKeepsServed(Apply(s, steps[0]), steps[1..], t);
    }
  }

  lemma ReachableIsServed(t: System)
    requires Reachable(t)
    ensures Safe(t) && Served(t)
  {
    hide Safe, Intact, Served, Init, Run;
    var s, steps :| Init(s) && Run(s, steps, t);
    InitIsSafe(s);
    InitIsIntact(s);
    assert Served(s) by { InitIsServed(s); }
    RunKeepsServed(s, steps, t);
  }

  lemma InitIsServed(s: System)
    requires Init(s)
    ensures Served(s)
  {
    hide Reopens;
  }

  // ---------- the theorems ----------

  /** A device gets commands in the order in which they were queued, whatever was taken out in between. */
  lemma DevicesAreServedInOrder(s: System)
    requires Reachable(s)
    ensures InTurn(s.claims)
  {
    hide Safe, Reachable, InTurn, AllTimed, AllFitting, AllNewer;
    ReachableIsServed(s);
  }

  lemma ClaimIsTimely(s: System, k: nat)
    requires Served(s) && k < |s.claims|
    ensures 1 <= s.claims[k].attempt <= MAX_SERVE_ATTEMPTS
    ensures exists j: nat :: j <= k && FirstAt(s.claims, j, s.claims[k].id, s.claims[j].at)
                             && s.claims[k].at < s.claims[j].at + SERVE_DEADLINE
  {
    var c := s.claims[k];
    assert c in s.claims;
    var a := LifeOf(s, c.id);
    assert Fitting(s.claims, c, a) && Timed(s.claims, c.id, a);
    hide LifeOf;
    var at := a.body.value.firstServedAt.value;
    var j: nat :| FirstAt(s.claims, j, c.id, at);
    assert s.claims[j] in s.claims && Fitting(s.claims, s.claims[j], a);
    assert j <= k;
  }

  /** A command is claimed at most three times, and a later claim comes less than 30 s after the first. */
  lemma ClaimsAreFewAndTimely(s: System, k: nat)
    requires Reachable(s) && k < |s.claims|
    ensures 1 <= s.claims[k].attempt <= 3
    ensures exists j: nat :: j <= k && FirstAt(s.claims, j, s.claims[k].id, s.claims[j].at)
                             && s.claims[k].at < s.claims[j].at + 30_000
  {
    hide Safe, Reachable, Served;
    ReachableIsServed(s);
    ClaimIsTimely(s, k);
  }

  /** No fourth claim of a command is ever on record. */
  lemma NoFourthClaim(s: System, a: nat, b: nat, c: nat, d: nat)
    requires Reachable(s) && a < b < c < d < |s.claims|
    ensures !(s.claims[a].id == s.claims[b].id == s.claims[c].id == s.claims[d].id)
  {
    hide Safe, Reachable;
    ReachableIsServed(s);
    ClaimIsTimely(s, a);
    ClaimIsTimely(s, d);
    if s.claims[a].id == s.claims[b].id == s.claims[c].id == s.claims[d].id {
      SameDevice(s, a, b);
      SameDevice(s, b, c);
      SameDevice(s, c, d);
      hide AllTimed, AllFitting, AllNewer;
    }
  }

  lemma SameDevice(s: System, a: nat, b: nat)
    requires AllFitting(s) && a < |s.claims| && b < |s.claims| && s.claims[a].id == s.claims[b].id
    ensures s.claims[a].deviceSN == s.claims[b].deviceSN
  {
    assert s.claims[a] in s.claims && s.claims[b] in s.claims;
    hide LifeOf, HasFirst;
  }

  /** Keys agree with commands, and a device has at most one pending command. */
  lemma OnePendingPerDevice(s: System, k: PendingKey, l: PendingKey)
    requires Reachable(s) && k in s.srv.pending && l in s.srv.pending
    ensures s.srv.pending[k] == k.localID && k.localID in s.srv.cmds
    ensures s.srv.cmds[k.localID].order.deviceSN == k.deviceSN && s.srv.cmds[k.localID].id == k.localID
    ensures k.deviceSN == l.deviceSN ==> k == l
  {
    hide Reachable, Sound, Roomy;
    ReachableIsSafe(s);
    assert Matches(s.srv, k);
    hide Ascending, AllFor, OlderThanAll;
  }

  /** Whichever pending command of a device a map iteration meets, it is the one. */
  lemma IterationOrderIsIrrelevant(s: System, k: PendingKey)
    requires Reachable(s) && k in s.srv.pending
    ensures PendingOf(s.srv, k.deviceSN) == Some(k.localID)
  {
    var l :| l in s.srv.pending && l.deviceSN == k.deviceSN && PendingOf(s.srv, k.deviceSN) == Some(l.localID);
    OnePendingPerDevice(s, k, l);
  }
}
