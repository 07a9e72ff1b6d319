/** Over every run: what a command left with is reported, sooner or later and never lost on the way. */
module NothingLost {
  import opened Identifiers
  import opened ResultOutbox
  import opened Claims
  import opened SecretServer
  import opened Lifecycle
  import opened OwnershipInvariant
  import opened OwnershipSteps
  import opened OwnershipTheorems
  import opened ExactlyOnce
  import opened CommandLife
  import opened PayloadSafety
  import opened DeletionTrail
  import opened DurableOutbox
  import opened ReportContents

  predicate AtTerminator(s: System, id: nat) { id in s.terms && s.terms[id].ending.Report? }

  /** The outbox could not take the report yet; a flush will try again. */
  ghost predicate Waits(s: System, id: nat) { exists c :: IsOwing(s, c, id) }

  /** The report of a command is with its terminator, waits for a flush, or is stored. */
  ghost predicate OnTheWay(s: System, id: nat) {
    AtTerminator(s, id) || Waits(s, id) || HasCommit(s.commits, id)
  }

  ghost predicate NoneLost(s: System) { forall e | e in s.exits && !e.fate.Discarded? :: OnTheWay(s, e.id) }

  // ---------- who holds a report, from one state to the next ----------

  /** Whoever holds the id for a command or its report still does, or passed the report on. */
  predicate Passed(s: System, t: System, c: string) {
    c in s.owner ==>
      match s.owner[c]
      case Processing(_) => true
      case Holding(i) =>
        || (c in t.owner && (t.owner[c] == Holding(i) || t.owner[c] == Owing(Some(i))))
        || HasCommit(t.commits, i)
        || !AtTerminator(s, i)
      case Owing(origin) =>
        || (c in t.owner && t.owner[c] == s.owner[c])
        || (origin.Some? ==> HasCommit(t.commits, origin.value))
  }

  ghost predicate CommitsStay(s: System, t: System) {
    forall i: nat | HasCommit(s.commits, i) :: HasCommit(t.commits, i)
  }

  ghost predicate HandsOn(s: System, t: System) { CommitsStay(s, t) && forall c :: Passed(s, t, c) }

  lemma CommitsGrow(s: System, t: System, more: seq<Commit>)
    requires t.commits == s.commits + more
    ensures CommitsStay(s, t)
    ensures forall e | e in more && e.origin.Some? :: HasCommit(t.commits, e.origin.value)
  {
    forall i: nat | HasCommit(s.commits, i) ensures HasCommit(t.commits, i) {
      var k :| 0 <= k < |s.commits| && s.commits[k].origin == Some(i);
      assert t.commits[k].origin == Some(i);
    }
    forall e | e in more && e.origin.Some? ensures HasCommit(t.commits, e.origin.value) {
      var k :| 0 <= k < |more| && more[k] == e;
      assert t.commits[|s.commits| + k] == e;
    }
  }

  lemma SameHandsOn(s: System, t: System)
    requires SameHands(s, t)
    ensures HandsOn(s, t)
  {
    hide HasCommit, AtTerminator;
  }

  /** Only one id changes hands. */
  lemma OneHandsOn(s: System, t: System, c: string)
    requires t.owner - {c} == s.owner - {c} && CommitsStay(s, t) && Passed(s, t, c)
    ensures HandsOn(s, t)
  {
    SameElsewhere(t.owner, s.owner, c);
    hide CommitsStay, HasCommit, AtTerminator;
  }

  lemma QuietProcess(s: System, t: System, c: string)
    requires t.owner - {c} == s.owner - {c} && t.commits == s.commits && (c in s.owner ==> s.owner[c].Processing?)
    ensures HandsOn(s, t)
  {
    hide HasCommit;
    OneHandsOn(s, t, c);
  }

  // ---------- every step ----------

  lemma ReservedHandsOn(s: System, c: string)
    requires Owners(s)
    ensures HandsOn(s, Reserved(s, c))
  {
    if Reserve(s.srv, c).1 { ReserveGrants(s.srv, c); }
    hide Reserve, HandsOn;
    assert Reserve(s.srv, c).1 ==> c !in s.owner;
    hide Owners;
    if Reserve(s.srv, c).1 { QuietProcess(s, Reserved(s, c), c); } else { SameHandsOn(s, s); }
  }

  lemma QueuedHandsOn(s: System, c: string, payload: string, lease: int)
    requires InStage(s, c) && s.owner[c].stage.Superseding?
    ensures HandsOn(s, Queue(s, c, payload, lease))
  {
    QueueMovesOne(s, c, payload, lease);
    hide Queue, HandsOn;
    QuietProcess(s, Queue(s, c, payload, lease), c);
  }

  lemma SupersedeHandsOn(s: System, c: string, out: seq<nat>)
    requires ProcessEnabled(s, c, SupersedeOthers(out))
    ensures HandsOn(s, ProcessApply(s, c, SupersedeOthers(out)))
  {
    hide HandsOn, Leave, Enumerates;
    LeaveHands(s, out, Discard);
    QuietProcess(s, ProcessApply(s, c, SupersedeOthers(out)), c);
  }

  lemma ProcessHandsOn(s: System, c: string, act: ProcessStep)
    requires Owners(s) && ProcessEnabled(s, c, act) && !act.ReportFailure?
    ensures HandsOn(s, ProcessApply(s, c, act))
  {
    var t := ProcessApply(s, c, act);
    hide Owners, HandsOn, Leave, Reserve, Queue, ValidClaim, OrderOf, Enumerates;
    match act {
      case ReserveID => ReservedHandsOn(s, c);
      case CloudClaims(claim) => QuietProcess(s, t, c);
      case SupersedeOthers(out) => SupersedeHandsOn(s, c, out);
      case QueueCommand(payload, lease) => QueuedHandsOn(s, c, payload, lease);
      case ReleaseID => QuietProcess(s, t, c);
    }
  }

  /** The holder of a command, or the flush that owes its report. */
  predicate Speaks(s: System, c: string, origin: Option<nat>) {
    c in s.owner && match s.owner[c] {
      case Processing(_) => origin.None?
      case Holding(i) => origin == Some(i)
      case Owing(o) => origin == o
    }
  }

  lemma StoredHandsOn(s: System, t: System, c: string, e: Commit)
    requires Speaks(s, c, e.origin) && t.owner == s.owner - {c} && t.commits == s.commits + [e]
    ensures HandsOn(s, t)
  {
    CommitsGrow(s, t, [e]);
    assert e in [e];
    hide HasCommit, CommitsStay, AtTerminator;
    OneHandsOn(s, t, c);
  }

  lemma OwedHandsOn(s: System, t: System, c: string, origin: Option<nat>)
    requires Speaks(s, c, origin) && t.owner == s.owner[c := Owing(origin)] && t.commits == s.commits
    ensures HandsOn(s, t)
  {
    hide HasCommit, AtTerminator;
    OneHandsOn(s, t, c);
  }

  /** A report that is handed over is stored or waits. */
  lemma SendHandsOn(s: System, u: System, origin: Option<nat>, dep: string, result: Result, p: Persist)
    requires Owners(s) && Roomy(s) && Reports(s, u, result.commandID) && u.commits == s.commits
    requires ValidUUID(dep) && ValidResult(result)
    requires Speaks(s, result.commandID, origin)
    ensures HandsOn(s, SendResult(u, origin, dep, result, p))
  {
    var t := SendResult(u, origin, dep, result, p);
    var c := result.commandID;
    SendOutcome(s, u, origin, dep, result, p);
    assert u.owner == s.owner;
    hide SendResult, Owners, Roomy, ValidUUID, ValidResult, StoreKept, Reports, HandsOn, Speaks;
    if p.Persisted? { StoredHandsOn(s, t, c, Commit(origin, dep, result)); } else { OwedHandsOn(s, t, c, origin); }
  }

  lemma EndReportHandsOn(s: System, id: nat, p: Persist)
    requires Owners(s) && Sound(s) && Roomy(s) && EndingEnabled(s, id, EndCommand(p)) && s.terms[id].ending.Report?
    ensures HandsOn(s, Ended(s, id, p))
  {
    var order := s.srv.cmds[id].order;
    var result := s.terms[id].ending.result;
    EndHolds(s, id);
    assert Held(s, id) && s.owner[order.commandID] == Holding(id);
    assert result.commandID == order.commandID && ValidResult(result) && ValidUUID(order.deploymentID);
    hide Owners, Sound, Roomy, Reports, ValidResult, ValidUUID, SendResult, HandsOn;
    SendHandsOn(s, s.(terms := s.terms - {id}), Some(id), order.deploymentID, result, p);
  }

  lemma EndDiscardHandsOn(s: System, id: nat, p: Persist)
    requires Owners(s) && EndingEnabled(s, id, EndCommand(p)) && s.terms[id].ending.Discard?
    ensures HandsOn(s, Ended(s, id, p))
  {
    var c := s.srv.cmds[id].order.commandID;
    assert Held(s, id) && s.owner[c] == Holding(id);
    hide HandsOn, Owners;
    OneHandsOn(s, Ended(s, id, p), c);
  }

  lemma EndHandsOn(s: System, id: nat, p: Persist)
    requires Owners(s) && Sound(s) && Roomy(s) && EndingEnabled(s, id, EndCommand(p))
    ensures HandsOn(s, Ended(s, id, p))
  {
    hide Owners, Sound, Roomy, HandsOn;
    match s.terms[id].ending {
      case Report(_) => EndReportHandsOn(s, id, p);
      case Drop => SameHandsOn(s, Ended(s, id, p));
      case Discard => EndDiscardHandsOn(s, id, p);
    }
  }

  lemma FlushHandsOn(s: System, c: string, p: Persist)
    requires Owners(s) && Sound(s) && Roomy(s) && OutboxEnabled(s, Flush(c, p))
    ensures HandsOn(s, Flushed(s, c, p))
  {
    var t := Flushed(s, c, p);
    var w := s.srv.awaiting[c];
    FlushMoves(s, c, p);
    assert w.result.commandID == c;
    assert Speaks(s, c, s.owner[c].origin);
    hide Flushed, Owners, Sound, Roomy, StoreKept, HandsOn, Speaks;
    if p.Persisted? {
      StoredHandsOn(s, t, c, Commit(s.owner[c].origin, w.deploymentID, w.result));
    } else {
      SameHandsOn(s, t);
    }
  }

  lemma CloseHandsOn(s: System, out: seq<nat>)
    requires Owners(s) && Enumerates(out, AllWaiting(s.srv))
    ensures HandsOn(s, Closing(s, out))
  {
    var t := Closing(s, out);
    assert t.commits == s.commits && forall i | i in out :: i in Members(out);
    forall i | AtTerminator(s, i) ensures i !in out {
      assert !Live(s, i);
    }
    hide Owners, Leave, Shutdown, AllWaiting, HasCommit, Members;
  }

  lemma OutboxHandsOn(s: System, part: OutboxStep)
    requires Owners(s) && Sound(s) && Roomy(s) && OutboxEnabled(s, part)
    ensures HandsOn(s, OutboxApply(s, part))
  {
    hide Owners, Sound, Roomy, HandsOn, Flushed, Delete, Retry;
    match part {
      case Flush(c, p) => FlushHandsOn(s, c, p);
      case _ => SameHandsOn(s, OutboxApply(s, part));
    }
  }

  lemma ReportHandsOn(s: System, c: string, code: string, p: Persist)
    requires Owners(s) && Sound(s) && Roomy(s) && ProcessEnabled(s, c, ReportFailure(code, p))
    ensures HandsOn(s, ProcessApply(s, c, ReportFailure(code, p)))
  {
    var order := s.owner[c].stage.order;
    FailureIsValid(order, code, -1);
    ReportsAlone(s, c);
    assert ValidUUID(order.deploymentID) && order.commandID == c;
    hide Owners, Sound, Roomy, Reports, ValidResult, ValidUUID, ValidErrorCode, Reportable, SendResult, HandsOn;
    SendHandsOn(s, s, None, order.deploymentID, order.Reported("failed", code, -1), p);
  }

  lemma StepHandsOn(s: System, step: Step)
    requires Safe(s) && Enabled(s, step)
    ensures HandsOn(s, Apply(s, step))
  {
    assert Shape(s.srv);
    var t := Apply(s, step);
    hide Owners, Sound, Roomy, Shape, HandsOn, SameHands;
    hide ProcessEnabled, ProcessApply, WriterEnabled, WriterApply, EndingEnabled, OutboxEnabled, OutboxApply;
    hide Polled, Acked, Closing, Enumerates, Ended, Zeroed, FailServed, Leave;
    match step
    case Tick(_) => TickHands(s, t); SameHandsOn(s, t);
    case Process(c, ReportFailure(code, p)) => ReportHandsOn(s, c, code, p);
    case Process(c, act) => ProcessHandsOn(s, c, act);
    case Poll(d) => PollHands(s, d); SameHandsOn(s, t);
    case Serving(id, does) => ServingHands(s, id, does); SameHandsOn(s, t);
    case Ack(d, localID, code) => AckHands(s, PendingKey(d, localID), code); SameHandsOn(s, t);
    case EndingOf(id, EndCommand(p)) => EndHandsOn(s, id, p);
    case EndingOf(id, ends) => EndingHands(s, id, ends); SameHandsOn(s, t);
    case Delivery(part) => OutboxHandsOn(s, part);
    case CloseServer(out) => CloseHandsOn(s, out);
  }

  // ---------- every run ----------

  /** A terminator changes nothing but that it zeroes the payload, and then goes. */
  lemma TermStays(i: nat, a: Life, b: Life, now: int, e: Option<Milestone>)
    requires Coherent(i, a) && Moved(i, a, b, now, e) && a.term.Some?
    ensures b.place == a.place && (b.term.Some? ==> b.term.value.ending == a.term.value.ending)
  {
    hide Wire, Spent, FateOf, SameDeletion, LeaseBoundsWrite, OwnReport;
  }

  lemma TerminatorPasses(s: System, t: System, id: nat)
    requires Owners(s) && Owners(t) && HandsOn(s, t)
    requires Coherent(id, LifeOf(s, id)) && MovedIn(s, t, id) && AtTerminator(s, id)
    ensures OnTheWay(t, id)
  {
    assert id in s.srv.cmds && Held(s, id);
    var c := s.srv.cmds[id].order.commandID;
    assert Passed(s, t, c) && s.owner[c] == Holding(id);
    assert !Live(s, id);
    if c in t.owner && t.owner[c] == Owing(Some(id)) { assert IsOwing(t, c, id); }
    if c in t.owner && t.owner[c] == Holding(id) {
      assert Held(t, id);
      GoneStaysGone(s, t, id);
    }
    hide HandsOn, HasCommit, Moved, Coherent;
  }

  lemma GoneStaysGone(s: System, t: System, id: nat)
    requires Coherent(id, LifeOf(s, id)) && MovedIn(s, t, id) && id in s.terms
    ensures !Live(t, id) && (id in t.terms ==> t.terms[id].ending == s.terms[id].ending)
  {
    TermStays(id, LifeOf(s, id), LifeOf(t, id), s.now, NewsOf(s, t, id));
    assert !LifeOf(s, id).place.InLine? && !LifeOf(s, id).place.Pending?;
    hide Moved, Coherent, InQueue, IsPending;
  }

  lemma WaitingPasses(s: System, t: System, c: string, id: nat)
    requires Owners(t) && HandsOn(s, t) && IsOwing(s, c, id)
    ensures OnTheWay(t, id)
  {
    assert Passed(s, t, c);
    if c in t.owner && t.owner[c] == s.owner[c] { assert IsOwing(t, c, id); }
    hide HandsOn, HasCommit;
  }

  lemma StaysOnTheWay(s: System, t: System, id: nat)
    requires Owners(s) && Owners(t) && HandsOn(s, t)
    requires Coherent(id, LifeOf(s, id)) && MovedIn(s, t, id) && OnTheWay(s, id)
    ensures OnTheWay(t, id)
  {
    hide Owners, Coherent, MovedIn, Passed, HasCommit;
    if AtTerminator(s, id) {
      TerminatorPasses(s, t, id);
    } else if Waits(s, id) {
      var c :| IsOwing(s, c, id);
      WaitingPasses(s, t, c, id);
    }
  }

  lemma StepKeepsNoneLost(s: System, t: System)
    requires Owners(s) && Owners(t) && HandsOn(s, t) && ExitsFollowTerms(s, t)
    requires Coherents(s) && AllMoved(s, t) && NoneLost(s)
    ensures NoneLost(t)
  {
    hide Owners, HandsOn, OnTheWay, Coherent, MovedIn, TrailGrows, LifeOf;
    forall e | e in t.exits && !e.fate.Discarded? ensures OnTheWay(t, e.id) {
      if e in s.exits {
        assert Coherent(e.id, LifeOf(s, e.id)) && MovedIn(s, t, e.id);
        StaysOnTheWay(s, t, e.id);
      } else {
        NewlyLeft(t, e);
      }
    }
  }

  lemma NewlyLeft(t: System, e: Exit)
    requires e.id in t.terms && FateOf(t.terms[e.id].ending) == e.fate && !e.fate.Discarded?
    ensures OnTheWay(t, e.id)
  {}

  lemma {:induction false} RunKeepsNoneLost(s: System, steps: seq<Step>, t: System)
    requires Safe(s) && Intact(s) && NoneLost(s) && Run(s, steps, t)
    ensures NoneLost(t)
    decreases |steps|
  {
    hide Owners, Sound, Roomy, Coherents, NoneLost, Apply, Enabled, HandsOn, AllMoved, ExitsFollowTerms;
    if steps != [] {
      var u := Apply(s, steps[0]);
      StepHandsOn(s, steps[0]);
      StepFollowsSafely(s, steps[0]);
      StepKeepsIntact(s, steps[0]);
      StepKeepsSafe(s, steps[0]);
      StepKeepsNoneLost(s, u);
      RunKeepsNoneLost(u, steps[1..], t);
    }
  }

  lemma StepFollowsSafely(s: System, step: Step)
    requires Safe(s) && Enabled(s, step)
    ensures ExitsFollowTerms(s, Apply(s, step))
  {
    hide Owners, Sound, Roomy, Enabled, Apply, ExitsFollowTerms;
    StepFollows(s, step);
  }

  lemma ReachableLosesNone(t: System)
    requires Reachable(t)
    ensures NoneLost(t)
  {
    hide Safe, Intact, Init, Run, NoneLost;
    var s, steps :| Init(s) && Run(s, steps, t);
    InitIsSafe(s);
    InitIsIntact(s);
    assert NoneLost(s) by { InitLosesNone(s); }
    RunKeepsNoneLost(s, steps, t);
  }

  lemma InitLosesNone(s: System)
    requires Init(s)
    ensures NoneLost(s)
  {
    hide Reopens;
  }

  /** In every reachable state the report of each command that left as applied or failed is in exactly one
      place: with the terminator of the command, waiting for a flush, or stored. */
  lemma ReportsAreNeverLost(s: System, e: Exit)
    requires Reachable(s) && e in s.exits && !e.fate.Discarded?
    ensures AtTerminator(s, e.id) || Waits(s, e.id) || HasCommit(s.commits, e.id)
    ensures !(AtTerminator(s, e.id) && Waits(s, e.id)) && !(AtTerminator(s, e.id) && HasCommit(s.commits, e.id))
    ensures !(Waits(s, e.id) && HasCommit(s.commits, e.id))
  {
    ReachableLosesNone(s);
    ReachableIsAccounted(s);
    hide Reachable, ExitsMatch, CommitsMatch, HasCommit;
    if Waits(s, e.id) {
      var c :| IsOwing(s, c, e.id);
      assert OnItsWay(s, c, e.id);
    }
  }

  // ---------- up to the answer of the cloud ----------

  function Said(e: Commit): (string, Result) { (e.deploymentID, e.result) }

  /** The step is the cloud's answer, 200 or 4xx, to the post of this result. */
  predicate Settles(s: System, step: Step, v: (string, Result)) {
    step == Delivery(CloudAnswers(true)) && s.worker.Posting? && s.worker.record.Value() == v
  }

  ghost predicate SettledIn(s: System, steps: seq<Step>, v: (string, Result))
    decreases |steps|
  {
    steps != [] && Enabled(s, steps[0])
    && (Settles(s, steps[0], v) || SettledIn(Apply(s, steps[0]), steps[1..], v))
  }

  /** What is owed stays owed until it is settled, and what is committed becomes owed. */
  ghost predicate Owes(s: System, t: System, step: Step) {
    && (forall v | v in s.owed :: v in t.owed || Settles(s, step, v))
    && (forall e | e in t.commits :: e in s.commits || Said(e) in t.owed)
  }

  lemma QuietOwes(s: System, t: System, step: Step)
    requires t.owed == s.owed && t.commits == s.commits
    ensures Owes(s, t, step)
  {}

  lemma CommitOwes(s: System, t: System, step: Step, e: Commit)
    requires t.owed == s.owed + {Said(e)} && t.commits == s.commits + [e]
    ensures Owes(s, t, step)
  {}

  lemma SendOwes(s: System, u: System, step: Step, origin: Option<nat>, dep: string, result: Result, p: Persist)
    requires Owners(s) && Roomy(s) && Reports(s, u, result.commandID) && u.commits == s.commits && u.owed == s.owed
    requires ValidUUID(dep) && ValidResult(result)
    ensures Owes(s, SendResult(u, origin, dep, result, p), step)
  {
    var t := SendResult(u, origin, dep, result, p);
    SendOutcome(s, u, origin, dep, result, p);
    hide SendResult, Owners, Roomy, ValidUUID, ValidResult, StoreKept, Reports, Owes;
    if p.Persisted? { CommitOwes(s, t, step, Commit(origin, dep, result)); } else { QuietOwes(s, t, step); }
  }

  lemma EndReportOwes(s: System, id: nat, p: Persist, step: Step)
    requires Owners(s) && Sound(s) && Roomy(s) && EndingEnabled(s, id, EndCommand(p)) && s.terms[id].ending.Report?
    ensures Owes(s, Ended(s, id, p), step)
  {
    var order, result := s.srv.cmds[id].order, s.terms[id].ending.result;
    EndHolds(s, id);
    assert result.commandID == order.commandID && ValidResult(result) && ValidUUID(order.deploymentID);
    hide Owners, Sound, Roomy, Reports, ValidResult, ValidUUID, SendResult, Owes;
    SendOwes(s, s.(terms := s.terms - {id}), step, Some(id), order.deploymentID, result, p);
  }

  lemma EndOwes(s: System, id: nat, p: Persist, step: Step)
    requires Owners(s) && Sound(s) && Roomy(s) && EndingEnabled(s, id, EndCommand(p))
    ensures Owes(s, Ended(s, id, p), step)
  {
    hide Owners, Sound, Roomy, SendResult, Owes;
    if s.terms[id].ending.Report? { EndReportOwes(s, id, p, step); } else { QuietOwes(s, Ended(s, id, p), step); }
  }

  lemma ReportOwes(s: System, c: string, code: string, p: Persist, step: Step)
    requires Owners(s) && Sound(s) && Roomy(s) && ProcessEnabled(s, c, ReportFailure(code, p))
    ensures Owes(s, ProcessApply(s, c, ReportFailure(code, p)), step)
  {
    var order := s.owner[c].stage.order;
    FailureIsValid(order, code, -1);
    ReportsAlone(s, c);
    assert ValidUUID(order.deploymentID) && order.commandID == c;
    hide Owners, Sound, Roomy, Reports, ValidResult, ValidUUID, ValidErrorCode, Reportable, SendResult, Owes;
    SendOwes(s, s, step, None, order.deploymentID, order.Reported("failed", code, -1), p);
  }

  lemma FlushOwes(s: System, c: string, p: Persist, step: Step)
    requires Owners(s) && Sound(s) && Roomy(s) && OutboxEnabled(s, Flush(c, p))
    ensures Owes(s, Flushed(s, c, p), step)
  {
    var t, w := Flushed(s, c, p), s.srv.awaiting[c];
    FlushMoves(s, c, p);
    assert w.result.commandID == c;
    hide Flushed, Owners, Sound, Roomy, StoreKept, Owes;
    if p.Persisted? {
      CommitOwes(s, t, step, Commit(s.owner[c].origin, w.deploymentID, w.result));
    } else {
      QuietOwes(s, t, step);
    }
  }

  lemma OutboxOwes(s: System, part: OutboxStep)
    requires Owners(s) && Sound(s) && Roomy(s) && OutboxEnabled(s, part)
    ensures Owes(s, OutboxApply(s, part), Delivery(part))
  {
    hide Owners, Sound, Roomy, Flushed, Delete, Retry;
    match part {
      case Flush(c, p) => FlushOwes(s, c, p, Delivery(part));
      case CloudAnswers(settled) =>
      case _ => QuietOwes(s, OutboxApply(s, part), Delivery(part));
    }
  }

  lemma ProcessOwes(s: System, c: string, act: ProcessStep, step: Step)
    requires Safe(s) && ProcessEnabled(s, c, act)
    ensures Owes(s, ProcessApply(s, c, act), step)
  {
    hide Owners, Sound, Roomy, Owes, ProcessEnabled, ProcessApply;
    match act
    case ReportFailure(code, p) => ReportOwes(s, c, code, p, step);
    case _ => ProcessApart(s, c, act); ProcessUnsent(s, c, act); QuietOwes(s, ProcessApply(s, c, act), step);
  }

  lemma EndingOwes(s: System, id: nat, ends: EndingStep, step: Step)
    requires Safe(s) && EndingEnabled(s, id, ends)
    ensures Owes(s, EndingApply(s, id, ends), step)
  {
    hide Owners, Sound, Roomy, Owes, FailServed, Leave, Ended, Zeroed;
    match ends
    case EndCommand(p) => EndOwes(s, id, p, step);
    case _ => EndingApart(s, id, ends); EndingHands(s, id, ends); QuietOwes(s, EndingApply(s, id, ends), step);
  }

  lemma StepOwes(s: System, step: Step)
    requires Safe(s) && Enabled(s, step)
    ensures Owes(s, Apply(s, step), step)
  {
    assert Shape(s.srv);
    var t := Apply(s, step);
    hide Owners, Sound, Roomy, Shape, Owes;
    hide ProcessEnabled, ProcessApply, WriterEnabled, WriterApply, EndingEnabled, OutboxEnabled, OutboxApply;
    hide Polled, Acked, Closing, Enumerates, EndingApply;
    if step.Tick? || step.Poll? || step.Ack? || step.CloseServer? { RestApart(s, step); }
    match step
    case Tick(_) => QuietOwes(s, t, step);
    case Process(c, act) => ProcessOwes(s, c, act, step);
    case Poll(d) => PollHands(s, d); QuietOwes(s, t, step);
    case Serving(id, does) => DurableOutbox.WriterApart(s, id, does); ServingHands(s, id, does); QuietOwes(s, t, step);
    case Ack(d, localID, code) => AckHands(s, PendingKey(d, localID), code); QuietOwes(s, t, step);
    case EndingOf(id, ends) => EndingOwes(s, id, ends, step);
    case Delivery(part) => OutboxOwes(s, part);
    case CloseServer(out) => CloseUnsent(s, out); QuietOwes(s, t, step);
  }

  ghost predicate IsSaid(s: System, v: (string, Result)) { exists e :: e in s.commits && Said(e) == v }

  lemma {:induction false} OwedUntilSettled(s: System, steps: seq<Step>, t: System, v: (string, Result))
    requires Safe(s) && Run(s, steps, t) && (IsSaid(s, v) ==> v in s.owed) && IsSaid(t, v)
    ensures v in t.owed || SettledIn(s, steps, v)
    decreases |steps|
  {
    hide Owners, Sound, Roomy, Apply, Enabled;
    if steps != [] {
      var u := Apply(s, steps[0]);
      StepOwes(s, steps[0]);
      StepKeepsSafe(s, steps[0]);
      if !Settles(s, steps[0], v) { OwedUntilSettled(u, steps[1..], t, v); }
    }
  }

  /** The result is in memory and in every document that a crash may leave behind. */
  ghost predicate Kept(s: System, v: (string, Result)) {
    Stores(v, s.srv.store.records) && forall image | image in s.srv.store.images :: Stores(v, image)
  }

  /** From the moment a command leaves as applied or failed until the cloud has answered for its report, the
      report is with the terminator of the command, waits for a flush, or outlives every crash. */
  lemma ReportsReachTheCloud(first: System, steps: seq<Step>, s: System, x: Exit)
    requires Init(first) && Run(first, steps, s) && x in s.exits && !x.fate.Discarded?
    ensures
      || AtTerminator(s, x.id)
      || Waits(s, x.id)
      || exists e :: e in s.commits && e.origin == Some(x.id) && (Kept(s, Said(e)) || SettledIn(first, steps, Said(e)))
  {
    assert Reachable(s);
    ReportsAreNeverLost(s, x);
    if HasCommit(s.commits, x.id) {
      var k :| 0 <= k < |s.commits| && s.commits[k].origin == Some(x.id);
      var e := s.commits[k];
      InitIsSafe(first);
      InitOwesNothing(first);
      assert IsSaid(s, Said(e)) && !IsSaid(first, Said(e));
      hide Safe, Init, Run, Reachable, IsSaid;
      OwedUntilSettled(first, steps, s, Said(e));
      ResultsSurviveCrashes(s);
    }
  }

  lemma InitOwesNothing(s: System)
    requires Init(s)
    ensures s.commits == []
  {
    hide Reopens;
  }
}
