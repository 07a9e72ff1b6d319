/** Over every run: a stored result survives any crash until the cloud has answered for it. */
module DurableOutbox {
  import opened Identifiers
  import opened ResultOutbox
  import opened SecretServer
  import opened Lifecycle
  import opened OwnershipInvariant
  import opened OwnershipSteps
  import opened OwnershipTheorems

  predicate HasRecord(w: Worker) { w.Posting? || w.Settled? || w.Refused? }

  predicate Stores(v: (string, Result), doc: seq<Record>) { v in Values(doc) }

  /** What the cloud has not answered yet is in memory and on every image of the disk. */
  ghost predicate Durable(s: System) {
    && s.owed <= Values(s.srv.store.records)
    && (forall doc | doc in s.srv.store.images :: s.owed <= Values(doc))
    && (HasRecord(s.worker) ==> Stores(s.worker.record.Value(), s.srv.store.records))
    && (s.worker.Settled? ==> s.worker.record.Value() !in s.owed)
  }

  // ---------- what leaves the outbox alone ----------

  ghost predicate SameOutbox(s: System, t: System) {
    t.srv.store == s.srv.store && t.owed == s.owed && t.worker == s.worker
  }

  lemma ProcessApart(s: System, c: string, act: ProcessStep)
    requires ProcessEnabled(s, c, act) && !act.ReportFailure?
    ensures SameOutbox(s, ProcessApply(s, c, act))
  {
    hide Superseded, ValidUUID, ValidIdentifier, IsPending, InQueue, ValidClaim, OrderOf, Keep, Enumerates;
  }

  lemma LeavingApart(s: System, id: nat, code: string)
    requires id in s.srv.cmds
    ensures SameOutbox(s, FailServed(s, id, code)) && SameOutbox(s, DiscardServed(s, id))
    ensures SameOutbox(s, s.(srv := ReleaseWriter(s.srv, id)))
  {
    hide IsPending, Keep;
  }

  lemma DeviceApart(s: System, id: nat, does: WriterStep)
    requires WriterEnabled(s, id, does) && (does.CheckDevice? || does.RecheckDevice? || does.BreakWrite?)
    ensures SameOutbox(s, WriterApply(s, id, does))
  {
    LeavingApart(s, id, if does.BreakWrite? then "network_unavailable" else does.code);
    hide ValidErrorCode, FailServed, DiscardServed, ReleaseWriter;
  }

  lemma CloudApart(s: System, id: nat, does: WriterStep)
    requires WriterEnabled(s, id, does) && (does.RecheckClaim? || does.CheckLease?)
    ensures SameOutbox(s, WriterApply(s, id, does))
  {
    LeavingApart(s, id, "");
    WriterGone(s, DiscardServed(s, id), id);
    WriterGone(s, s.(srv := ReleaseWriter(s.srv, id)), id);
    hide RecheckCode, FailServed, DiscardServed, ReleaseWriter, LeaseBoundsWrite, EndWriter;
  }

  lemma WriterGone(s: System, t: System, id: nat)
    requires SameOutbox(s, t)
    ensures SameOutbox(s, EndWriter(t, id))
  {}

  lemma WriterApart(s: System, id: nat, does: WriterStep)
    requires WriterEnabled(s, id, does)
    ensures SameOutbox(s, WriterApply(s, id, does))
  {
    hide ValidErrorCode, IsPending, Wire;
    match does {
      case CheckDevice(_) => DeviceApart(s, id, does);
      case RecheckDevice(_) => DeviceApart(s, id, does);
      case BreakWrite(_) => DeviceApart(s, id, does);
      case RecheckClaim(_) => CloudApart(s, id, does);
      case CheckLease => CloudApart(s, id, does);
      case StartWrite =>
      case WriteSome(_) =>
      case FinishWrite =>
    }
  }

  lemma EndingApart(s: System, id: nat, ends: EndingStep)
    requires EndingEnabled(s, id, ends) && !ends.EndCommand?
    ensures SameOutbox(s, EndingApply(s, id, ends))
  {
    hide IsPending, InQueue, Keep;
  }

  lemma LeaveApart(s: System, out: seq<nat>, ending: Ending)
    ensures SameOutbox(s, Leave(s, out, ending))
  {
    hide Keep, IsPending, FateOf;
  }

  lemma PolledApart(s: System, d: string)
    requires Shape(s.srv)
    ensures SameOutbox(s, Polled(s, d))
  {
    hide Shape, PendingOf, QueueOf, Spent, Leave;
    if PendingOf(s.srv, d).Some? {
      PolledPending(s, d, PendingOf(s.srv, d).value);
      LeaveApart(s, [PendingOf(s.srv, d).value], Report(NetworkFailure(s, PendingOf(s.srv, d).value)));
    } else {
      PolledQueue(s, d);
    }
    hide Polled;
  }

  lemma AckedApart(s: System, key: PendingKey, code: int)
    ensures SameOutbox(s, Acked(s, key, code))
  {
    assert Completion(s.srv, key, code).Some? ==> key in s.srv.pending;
    hide Completion, Leave;
    match Completion(s.srv, key, code)
    case None =>
    case Some(result) => LeaveApart(s, [s.srv.pending[key]], Report(result));
  }

  lemma ClosedApart(s: System, out: seq<nat>)
    ensures SameOutbox(s, Closing(s, out))
  {
    hide Keep, AllWaiting, FateOf;
  }

  lemma RestApart(s: System, step: Step)
    requires Enabled(s, step) && (step.Tick? || step.Poll? || step.Ack? || step.CloseServer?)
    ensures SameOutbox(s, Apply(s, step))
  {
    hide Shape, Enumerates, Polled, Acked, Closing;
    match step
    case Tick(_) =>
    case Poll(d) => PolledApart(s, d);
    case Ack(d, localID, code) => AckedApart(s, PendingKey(d, localID), code);
    case CloseServer(out) => ClosedApart(s, out);
    case _ =>
  }

  lemma SameOutboxDurable(s: System, t: System)
    requires Durable(s) && SameOutbox(s, t)
    ensures Durable(t)
  {}

  // ---------- what moves results ----------

  lemma ValuesOfAppend(doc: seq<Record>, r: Record)
    ensures Values(doc + [r]) == Values(doc) + {r.Value()}
  {
    forall v ensures v in Values(doc + [r]) <==> v in Values(doc) + {r.Value()} {
      if v in Values(doc) {
        var x :| x in doc && x.Value() == v;
        assert x in doc + [r];
      }
      assert r in doc + [r];
    }
  }

  lemma EnqueueReplaces(s: System, dep: string, result: Result, p: Persist)
    requires Owners(s) && Roomy(s) && result.commandID in s.owner && ValidUUID(dep) && ValidResult(result)
    ensures Enqueue(s.srv.store, dep, result, s.now, p)
            == (Replace(s.srv.store, s.srv.store.records + [Record(dep, result, 0, s.now)], p),
                if p.Persisted? then Committed else PersistFailed)
  {
    var st := s.srv.store;
    assert |s.owner.Keys| > 0;
    assert NoRecord(st.records, result.commandID);
    EnqueueFits(st, dep, result, s.now, p);
    assert CommandIndex(st.records, result.commandID) == |st.records|;
    hide Owners, Roomy, ValidUUID, ValidResult, Kept, NoRecord;
  }

  /** A document with one more value replaces the other, or tries to. */
  lemma GrownDurable(s: System, t: System, doc: seq<Record>, v: (string, Result), p: Persist)
    requires Durable(s) && Values(doc) == Values(s.srv.store.records) + {v}
    requires t.srv.store == Replace(s.srv.store, doc, p) && t.worker == s.worker
    requires t.owed == if p.Persisted? then s.owed + {v} else s.owed
    requires s.worker.Settled? ==>
      s.worker.record.Value() in Values(s.srv.store.records) && v !in Values(s.srv.store.records)
    ensures Durable(t)
  {
    hide Values;
  }

  lemma UnknownValue(doc: seq<Record>, r: Record)
    requires NoRecord(doc, r.result.commandID)
    ensures r.Value() !in Values(doc)
  {}

  /** A new result, stored or not. */
  lemma EnqueueDurable(s: System, t: System, dep: string, result: Result, p: Persist)
    requires Durable(s) && Owners(s) && Roomy(s) && result.commandID in s.owner && ValidUUID(dep) && ValidResult(result)
    requires t.srv.store == Enqueue(s.srv.store, dep, result, s.now, p).0 && t.worker == s.worker
    requires t.owed == if p.Persisted? then s.owed + {(dep, result)} else s.owed
    ensures Durable(t)
  {
    var r := Record(dep, result, 0, s.now);
    EnqueueReplaces(s, dep, result, p);
    assert NoRecord(s.srv.store.records, result.commandID);
    assert s.worker.Settled? ==> s.worker.record.Value() in Values(s.srv.store.records);
    hide Owners, Roomy, ValidUUID, ValidResult, Enqueue, Values, Durable, Replace, NoRecord;
    ValuesOfAppend(s.srv.store.records, r);
    UnknownValue(s.srv.store.records, r);
    assert r.Value() == (dep, result);
    GrownDurable(s, t, s.srv.store.records + [r], r.Value(), p);
  }

  lemma RetrySameValues(doc: seq<Record>, k: nat, r: Record)
    requires k < |doc| && r.Value() == doc[k].Value()
    ensures Values(doc[k := r]) == Values(doc)
  {
    forall v ensures v in Values(doc[k := r]) <==> v in Values(doc) {
      if v in Values(doc) {
        var x :| x in doc && x.Value() == v;
        var i :| 0 <= i < |doc| && doc[i] == x;
        assert doc[k := r][i] in doc[k := r];
      }
    }
  }

  lemma RetryDurable(s: System, p: Persist)
    requires Durable(s) && s.worker.Refused?
    ensures Durable(Postponed(s, p))
  {
    var w := s.worker.record;
    var k := KeyIndex(s.srv.store.records, Key(w.deploymentID, w.result.commandID));
    if k < |s.srv.store.records| {
      var attempts := s.srv.store.records[k].attempts + 1;
      RetrySameValues(s.srv.store.records, k,
        s.srv.store.records[k].(attempts := attempts, nextAttemptAt := s.now + Backoff(attempts)));
    }
    hide Backoff, Key;
  }

  /** Keys are injective on UUIDs, so the key finds the one record of the command. */
  lemma KeysAreInjective(d1: string, c1: string, d2: string, c2: string)
    requires |d1| == |d2| && Key(d1, c1) == Key(d2, c2)
    ensures d1 == d2 && c1 == c2
  {
    assert Key(d1, c1)[..|d1|] == d1 && Key(d2, c2)[..|d2|] == d2;
    assert Key(d1, c1)[|d1| + 1..] == c1 && Key(d2, c2)[|d2| + 1..] == c2;
  }

  lemma PostedIsFound(doc: seq<Record>, w: Record)
    requires Kept(doc) && Stores(w.Value(), doc)
    ensures var k := KeyIndex(doc, Key(w.deploymentID, w.result.commandID));
      k < |doc| && doc[k].Value() == w.Value()
  {
    var k := KeyIndex(doc, Key(w.deploymentID, w.result.commandID));
    var x :| x in doc && x.Value() == w.Value();
    var i :| 0 <= i < |doc| && doc[i] == x;
    assert Key(doc[i].deploymentID, doc[i].result.commandID) == Key(w.deploymentID, w.result.commandID);
    assert doc[k] in doc;
    KeysAreInjective(doc[k].deploymentID, doc[k].result.commandID, w.deploymentID, w.result.commandID);
    hide ValidUUID, ValidResult;
  }

  lemma ValuesOfWithout(doc: seq<Record>, k: nat)
    requires k < |doc| && UniqueCommands(doc)
    ensures Values(Without(doc, k)) == Values(doc) - {doc[k].Value()}
  {
    forall v ensures v in Values(Without(doc, k)) <==> v in Values(doc) - {doc[k].Value()} {
      if v in Values(Without(doc, k)) {
        KeptValue(doc, k, v);
      } else if v in Values(doc) && v != doc[k].Value() {
        OtherValue(doc, k, v);
      }
    }
    hide Values, Without;
  }

  lemma KeptValue(doc: seq<Record>, k: nat, v: (string, Result))
    requires k < |doc| && UniqueCommands(doc) && v in Values(Without(doc, k))
    ensures v in Values(doc) && v != doc[k].Value()
  {
    var x :| x in Without(doc, k) && x.Value() == v;
    KeptRecord(doc, k, x);
    hide Without, UniqueCommands;
  }

  lemma KeptRecord(doc: seq<Record>, k: nat, x: Record)
    requires k < |doc| && UniqueCommands(doc) && x in Without(doc, k)
    ensures x in doc && x.result.commandID != doc[k].result.commandID
  {
    var rest := Without(doc, k);
    var i :| 0 <= i < |rest| && rest[i] == x;
    assert x == doc[if i < k then i else i + 1];
  }

  lemma OtherValue(doc: seq<Record>, k: nat, v: (string, Result))
    requires k < |doc| && v in Values(doc) && v != doc[k].Value()
    ensures v in Values(Without(doc, k))
  {
    var x :| x in doc && x.Value() == v;
    var i :| 0 <= i < |doc| && doc[i] == x;
    assert Without(doc, k)[if i < k then i else i - 1] == x;
  }

  lemma DropDurable(s: System, p: Persist)
    requires Durable(s) && StoreKept(s.srv.store) && s.worker.Settled?
    ensures Durable(Dropped(s, p))
    ensures var k := KeyIndex(s.srv.store.records, Key(s.worker.record.deploymentID, s.worker.record.result.commandID));
      && k < |s.srv.store.records| && s.srv.store.records[k].Value() == s.worker.record.Value()
      && Dropped(s, p).srv.store == Replace(s.srv.store, Without(s.srv.store.records, k), p)
  {
    var w := s.worker.record;
    var doc := s.srv.store.records;
    assert Kept(doc);
    PostedIsFound(doc, w);
    var k := KeyIndex(doc, Key(w.deploymentID, w.result.commandID));
    ValuesOfWithout(doc, k);
    hide Kept, Key;
  }

  lemma SendMovesStore(u: System, origin: Option<nat>, dep: string, result: Result, p: Persist)
    requires ValidUUID(dep) && ValidUUID(result.commandID) && ValidIdentifier(result.deviceSN)
    requires Enqueue(u.srv.store, dep, result, u.now, p).1 == if p.Persisted? then Committed else PersistFailed
    ensures var t := SendResult(u, origin, dep, result, p);
      && t.srv.store == Enqueue(u.srv.store, dep, result, u.now, p).0
      && t.worker == u.worker
      && t.owed == if p.Persisted? then u.owed + {(dep, result)} else u.owed
  {
    hide ValidUUID, ValidIdentifier, Enqueue;
  }

  /** Handing a result over, from whatever holds its id. */
  lemma SendDurable(s: System, u: System, origin: Option<nat>, dep: string, result: Result, p: Persist)
    requires Durable(s) && Owners(s) && Roomy(s) && result.commandID in s.owner && ValidUUID(dep) && ValidResult(result)
    requires u == s.(terms := u.terms)
    ensures Durable(SendResult(u, origin, dep, result, p))
  {
    hide Durable, Owners, Roomy, ValidUUID, ValidIdentifier, Enqueue, Replace, SendResult;
    EnqueueReplaces(s, dep, result, p);
    SendMovesStore(u, origin, dep, result, p);
    EnqueueDurable(s, SendResult(u, origin, dep, result, p), dep, result, p);
  }

  lemma FlushDurable(s: System, c: string, p: Persist)
    requires Durable(s) && Safe(s) && OutboxEnabled(s, Flush(c, p))
    ensures Durable(Flushed(s, c, p))
  {
    var w := s.srv.awaiting[c];
    assert w.result.commandID == c && ValidUUID(w.deploymentID) && ValidResult(w.result);
    hide Durable, Owners, Sound, Roomy, ValidUUID, ValidResult, Enqueue, Replace;
    EnqueueReplaces(s, w.deploymentID, w.result, p);
    EnqueueDurable(s, Flushed(s, c, p), w.deploymentID, w.result, p);
  }

  lemma EndReportDurable(s: System, id: nat, p: Persist)
    requires Durable(s) && Safe(s) && EndingEnabled(s, id, EndCommand(p)) && s.terms[id].ending.Report?
    ensures Durable(Ended(s, id, p))
  {
    var order, result := s.srv.cmds[id].order, s.terms[id].ending.result;
    assert Held(s, id) && result.commandID == order.commandID && ValidResult(result) && ValidUUID(order.deploymentID);
    assert result.commandID in s.owner;
    hide Durable, Owners, Sound, Roomy, Reportable, ValidUUID, ValidResult, SendResult, Held;
    SendDurable(s, s.(terms := s.terms - {id}), Some(id), order.deploymentID, result, p);
  }

  lemma EndDurable(s: System, id: nat, p: Persist)
    requires Durable(s) && Safe(s) && EndingEnabled(s, id, EndCommand(p))
    ensures Durable(Ended(s, id, p))
  {
    hide Safe, SendResult;
    if s.terms[id].ending.Report? { EndReportDurable(s, id, p); } else { SameOutboxDurable(s, Ended(s, id, p)); }
  }

  lemma ReportDurable(s: System, c: string, code: string, p: Persist)
    requires Durable(s) && Safe(s) && ProcessEnabled(s, c, ReportFailure(code, p))
    ensures Durable(ProcessApply(s, c, ReportFailure(code, p)))
  {
    var order := s.owner[c].stage.order;
    FailureIsValid(order, code, -1);
    assert ValidUUID(order.deploymentID) && order.commandID == c;
    hide Durable, Owners, Sound, Roomy, Reportable, ValidUUID, ValidResult, SendResult, ValidErrorCode;
    SendDurable(s, s, None, order.deploymentID, order.Reported("failed", code, -1), p);
  }

  lemma PickedDurable(s: System, part: OutboxStep)
    requires Durable(s) && OutboxEnabled(s, part) && (part.PickRecord? || part.CloudAnswers?)
    ensures Durable(OutboxApply(s, part))
  {}

  lemma OutboxStepDurable(s: System, part: OutboxStep)
    requires Durable(s) && Safe(s) && OutboxEnabled(s, part)
    ensures Durable(OutboxApply(s, part))
  {
    assert StoreKept(s.srv.store);
    hide Durable, Safe, StoreKept, Flushed, Dropped, Postponed;
    match part
    case Flush(c, p) => FlushDurable(s, c, p);
    case DropRecord(p) => DropDurable(s, p);
    case PostponeRecord(p) => RetryDurable(s, p);
    case PickRecord(_) => PickedDurable(s, part);
    case CloudAnswers(_) => PickedDurable(s, part);
  }

  lemma StepKeepsDurable(s: System, step: Step)
    requires Durable(s) && Safe(s) && Enabled(s, step)
    ensures Durable(Apply(s, step))
  {
    hide Durable, Safe, SameOutbox, ProcessEnabled, WriterEnabled, WriterApply, EndingEnabled, OutboxEnabled, Shape;
    hide Polled, Acked, Closing, Enumerates;
    match step
    case Process(c, ReportFailure(code, p)) => ReportDurable(s, c, code, p);
    case Process(c, act) => ProcessApart(s, c, act); SameOutboxDurable(s, Apply(s, step));
    case Serving(id, does) => WriterApart(s, id, does); SameOutboxDurable(s, Apply(s, step));
    case EndingOf(id, EndCommand(p)) => EndDurable(s, id, p);
    case EndingOf(id, ends) => EndingApart(s, id, ends); SameOutboxDurable(s, Apply(s, step));
    case Delivery(part) => OutboxStepDurable(s, part);
    case _ => RestApart(s, step); SameOutboxDurable(s, Apply(s, step));
  }

  lemma {:induction false} RunKeepsDurable(s: System, steps: seq<Step>, t: System)
    requires Durable(s) && Safe(s) && Run(s, steps, t)
    ensures Durable(t) && Safe(t)
    decreases |steps|
  {
    hide Durable, Safe, Apply, Enabled;
    if steps != [] {
      StepKeepsDurable(s, steps[0]);
      StepKeepsSafe(s, steps[0]);
      RunKeepsDurable(Apply(s, steps[0]), steps[1..], t);
    }
  }

  lemma ReachableIsDurable(t: System)
    requires Reachable(t)
    ensures Durable(t) && Safe(t)
  {
    hide Safe, Init, Run, Durable;
    var s, steps :| Init(s) && Run(s, steps, t);
    InitIsSafe(s);
    InitIsDurable(s);
    RunKeepsDurable(s, steps, t);
  }

  lemma InitIsDurable(s: System)
    requires Init(s)
    ensures Durable(s)
  {
    hide Reopens;
  }

  // ---------- the theorems ----------

  /** From its commit until the cloud answers 200 or 4xx, a result is in memory and in every document
      a crash may leave on disk. */
  lemma ResultsSurviveCrashes(t: System)
    requires Reachable(t)
    ensures forall v | v in t.owed :: Stores(v, t.srv.store.records)
    ensures forall v, image | v in t.owed && image in t.srv.store.images :: Stores(v, image)
  {
    ReachableIsDurable(t);
    hide Safe, Reachable;
  }

  /** The worker persisted `doc` in place of what was in memory, or kept that and stopped. */
  predicate WorkerWrote(s: System, t: System, doc: seq<Record>, p: Persist) {
    && t.srv.store.records == (if p.Persisted? then doc else s.srv.store.records)
    && t.srv.store.images == (if p.Persisted? then {doc} else if p.FailedAfterRename? then s.srv.store.images + {doc}
                              else s.srv.store.images)
    && t.worker == (if p.Persisted? then Resting else Stopped)
    && t.srv.outboxFailed == (s.srv.outboxFailed || !p.Persisted?)
    && t == s.(srv := s.srv.(store := t.srv.store, outboxFailed := t.srv.outboxFailed), worker := t.worker)
  }

  /** The record at k is the one the worker posted. */
  predicate Posted(s: System, k: int) {
    && HasRecord(s.worker) && 0 <= k < |s.srv.store.records|
    && s.srv.store.records[k].deploymentID == s.worker.record.deploymentID
    && s.srv.store.records[k].result == s.worker.record.result
  }

  lemma DropWrites(s: System, p: Persist, k: nat)
    requires s.worker.Settled? && Posted(s, k)
    requires k == KeyIndex(s.srv.store.records, Key(s.worker.record.deploymentID, s.worker.record.result.commandID))
    ensures WorkerWrote(s, Dropped(s, p), s.srv.store.records[..k] + s.srv.store.records[k + 1..], p)
  {
    hide Key;
  }

  /** The key the worker looks up leads to the record it posted. */
  lemma PostedIsStored(s: System) returns (k: nat)
    requires Reachable(s) && HasRecord(s.worker)
    ensures k == KeyIndex(s.srv.store.records, Key(s.worker.record.deploymentID, s.worker.record.result.commandID))
    ensures Posted(s, k) && s.srv.store.records[k].attempts >= 0
  {
    hide Reachable, Owners, Sound, ValidUUID, ValidResult;
    ReachableIsDurable(s);
    var doc := s.srv.store.records;
    assert Kept(doc);
    PostedIsFound(doc, s.worker.record);
    k := KeyIndex(doc, Key(s.worker.record.deploymentID, s.worker.record.result.commandID));
    assert doc[k] in doc;
  }

  /** The worker takes out of the document the record the cloud answered for, and nothing else. */
  lemma WorkerDropsWhatItPosted(s: System, p: Persist)
    requires Reachable(s) && s.worker.Settled?
    ensures exists k :: Posted(s, k) && WorkerWrote(s, Apply(s, Delivery(DropRecord(p))),
      s.srv.store.records[..k] + s.srv.store.records[k + 1..], p)
  {
    hide Reachable, Dropped, WorkerWrote;
    var k := PostedIsStored(s);
    DropWrites(s, p, k);
    hide Posted;
  }

  lemma PostponeWrites(s: System, p: Persist, k: nat)
    requires s.worker.Refused? && Posted(s, k) && s.srv.store.records[k].attempts >= 0
    requires k == KeyIndex(s.srv.store.records, Key(s.worker.record.deploymentID, s.worker.record.result.commandID))
    ensures var n := s.srv.store.records[k].attempts;
      WorkerWrote(s, Postponed(s, p), s.srv.store.records[k :=
        Record(s.worker.record.deploymentID, s.worker.record.result, n + 1, DueAfter(n, s.now))], p)
  {
    BackoffTable(s.srv.store.records[k].attempts, s.now);
    hide Key, Backoff, DueAfter;
  }

  /** The worker puts off the record the cloud refused, by 1, 2, 4 up to 256 and then 300 seconds, and changes
      no other; a record it could not put off stops it. */
  lemma WorkerPutsOffWhatItPosted(s: System, p: Persist)
    requires Reachable(s) && s.worker.Refused?
    ensures exists k :: Posted(s, k) && s.srv.store.records[k].attempts >= 0 && PutOff(s, k, p)
  {
    hide Reachable, Postponed, WorkerWrote;
    var k := PostedIsStored(s);
    PostponeWrites(s, p, k);
    assert PutOff(s, k, p);
    hide Posted, PutOff;
  }

  /** The next step puts the record at k off for the delay that its earlier refusals call for. */
  ghost predicate PutOff(s: System, k: int, p: Persist)
    requires s.worker.Refused? && Posted(s, k) && s.srv.store.records[k].attempts >= 0
  {
    var n := s.srv.store.records[k].attempts;
    var later := Record(s.worker.record.deploymentID, s.worker.record.result, n + 1, DueAfter(n, s.now));
    WorkerWrote(s, Apply(s, Delivery(PostponeRecord(p))), s.srv.store.records[k := later], p)
  }

  /** Every document a run writes, or may leave on disk, opens again exactly while no record in it
      has been retried more than a million times. */
  lemma DocumentsReopen(t: System, image: seq<Record>)
    requires Reachable(t) && image in t.srv.store.images
    ensures Reopens(image) <==> forall r | r in image :: r.attempts <= 1_000_000
  {
    ReachableIsSafe(t);
    assert Kept(image);
    hide Reachable, Owners, Sound, ValidUUID, ValidResult;
  }

  function StuckServer(store: Store, owed: set<(string, Result)>, worker: Worker): System {
    System(Srv(false, false, 0, {}, map[], map[], map[], map[], store), map[], map[], map[], worker, 1, map[], owed,
      [], [], [], [])
  }

  lemma StuckRun(r: Record, store: Store, later: Store)
    requires ValidRecord(r) && store == Store([r], {[r]})
    requires Retry(store, r.deploymentID, r.result.commandID, 1, Persisted) == (later, true)
    ensures Reachable(StuckServer(later, {r.Value()}, Resting))
  {
    hide Retry, ValidRecord;
    var owed := {r.Value()};
    var s, end := StuckServer(store, owed, Resting), StuckServer(later, owed, Resting);
    assert Init(s);
    hide Init;
    var one, two, three := Delivery(PickRecord(r)), Delivery(CloudAnswers(false)), Delivery(PostponeRecord(Persisted));
    assert Apply(s, one) == StuckServer(store, owed, Posting(r));
    assert Apply(StuckServer(store, owed, Posting(r)), two) == StuckServer(store, owed, Refused(r));
    assert Apply(StuckServer(store, owed, Refused(r)), three) == end;
    assert [three][1..] == [] && [two, three][1..] == [three] && [one, two, three][1..] == [two, three];
    assert Run(StuckServer(store, owed, Refused(r)), [three], end);
    assert Run(StuckServer(store, owed, Posting(r)), [two, three], end);
    assert Run(s, [one, two, three], end);
  }

  /** The retry counter has no ceiling: any record that was retried a million times, and that the cloud
      refuses once more, leads to a document that does not open again. */
  lemma RetriesCanOutgrowTheLimit(r: Record)
    requires ValidRecord(r) && r.attempts == 1_000_000
    ensures exists t, image :: Reachable(t) && image in t.srv.store.images && !Reopens(image)
  {
    var store := Store([r], {[r]});
    var (later, ok) := Retry(store, r.deploymentID, r.result.commandID, 1, Persisted);
    assert KeyIndex(store.records, Key(r.deploymentID, r.result.commandID)) == 0 by {
      assert Key(store.records[0].deploymentID, store.records[0].result.commandID)
        == Key(r.deploymentID, r.result.commandID);
    }
    assert ok && later.records[0].attempts == MAX_RETRIES + 1 && later.records[0] in later.records;
    StuckRun(r, store, later);
    hide Reachable, Retry, ValidResult, ValidUUID;
    assert !ValidRecord(later.records[0]);
    assert !Reopens(later.records);
    assert later.records in StuckServer(later, {r.Value()}, Resting).srv.store.images;
  }

  lemma AStuckRecord()
    ensures ValidRecord(Record("00000000-0000-1000-8000-000000000000",
              Result("", "failed", "A1", "", "network_unavailable", "11111111-1111-1111-9111-111111111111", 0, "", -1),
              MAX_RETRIES, 1))
  {
    FirstUUID();
    SecondUUID();
    KnownCodes();
    hide ValidErrorCode, ValidUUID;
    assert ValidIdentifier("A1");
  }

  lemma FirstUUID()
    ensures ValidUUID("00000000-0000-1000-8000-000000000000")
  {}

  lemma SecondUUID()
    ensures ValidUUID("11111111-1111-1111-9111-111111111111")
  {}
}
