/** Over every run: who holds a reserved id, and why a result can only fail to be stored on disk. */
module OwnershipTheorems {
  import opened Identifiers
  import opened ResultOutbox
  import opened SecretServer
  import opened Lifecycle
  import opened OwnershipInvariant
  import opened OwnershipSteps

  lemma InitIsSafe(s: System)
    requires Init(s)
    ensures Safe(s)
  {
    hide ValidUUID, ValidResult;
    assert Kept(s.srv.store.records);
  }

  lemma {:induction false} RunKeepsSafe(s: System, steps: seq<Step>, t: System)
    requires Safe(s) && Run(s, steps, t)
    ensures Safe(t)
    decreases |steps|
  {
    hide Safe, Apply, Enabled;
    if steps != [] {
      StepKeepsSafe(s, steps[0]);
      RunKeepsSafe(Apply(s, steps[0]), steps[1..], t);
    }
  }

  lemma ReachableIsSafe(t: System)
    requires Reachable(t)
    ensures Safe(t)
  {
    hide Safe, Init, Run;
    var s, steps :| Init(s) && Run(s, steps, t);
    InitIsSafe(s);
    RunKeepsSafe(s, steps, t);
  }

  /** The results that a step hands to the outbox. */
  ghost function Sent(s: System, step: Step): Option<(string, Result, Persist)>
    requires Enabled(s, step)
  {
    match step
    case Process(c, ReportFailure(code, p)) =>
      var order := s.owner[c].stage.order;
      Some((order.deploymentID, order.Reported("failed", code, -1), p))
    case EndingOf(id, EndCommand(p)) =>
      if s.terms[id].ending.Report? then Some((s.srv.cmds[id].order.deploymentID, s.terms[id].ending.result, p))
      else None
    case Delivery(Flush(c, p)) => Some((s.srv.awaiting[c].deploymentID, s.srv.awaiting[c].result, p))
    case _ => None
  }

  predicate FailsOnlyToPersist(store: Store, dep: string, result: Result, now: int, p: Persist) {
    Enqueue(store, dep, result, now, p).1 == (if p.Persisted? then Committed else PersistFailed)
  }

  lemma SlotSuffices(s: System, dep: string, result: Result, p: Persist)
    requires Owners(s) && Roomy(s) && result.commandID in s.owner && ValidUUID(dep) && ValidResult(result)
    ensures FailsOnlyToPersist(s.srv.store, dep, result, s.now, p)
  {
    assert |s.owner.Keys| > 0;
    EnqueueFits(s.srv.store, dep, result, s.now, p);
    hide Enqueue, ValidUUID, ValidResult;
  }

  /** A full outbox, a conflicting record and an invalid record are all impossible. */
  lemma ResultsFailOnlyThroughPersistence(s: System, step: Step)
    requires Reachable(s) && Enabled(s, step) && Sent(s, step).Some?
    ensures var (dep, result, p) := Sent(s, step).value;
      ValidUUID(dep) && ValidResult(result) && FailsOnlyToPersist(s.srv.store, dep, result, s.now, p)
  {
    ReachableIsSafe(s);
    hide FailsOnlyToPersist, Reachable;
    var (dep, result, p) := Sent(s, step).value;
    match step {
      case Process(c, ReportFailure(code, _)) =>
        FailureIsValid(s.owner[c].stage.order, code, -1);
        SlotSuffices(s, dep, result, p);
      case EndingOf(id, EndCommand(_)) =>
        assert Held(s, id);
        SlotSuffices(s, dep, result, p);
      case Delivery(Flush(c, _)) =>
        SlotSuffices(s, dep, result, p);
      case _ =>
    }
  }

  // ---------- the reserved ids ----------

  function InProcess(s: System): set<string> { set c | c in s.owner && s.owner[c].Processing? }

  function IdsOf(s: System, ids: set<nat>): set<string> {
    set i | i in ids && i in s.srv.cmds :: s.srv.cmds[i].order.commandID
  }

  function QueuedCommands(s: System): set<nat> { set i | i in s.srv.cmds && InQueue(s.srv, i) }

  function PendingCommands(s: System): set<nat> { set i | i in s.srv.cmds && IsPending(s.srv, i) }

  function EndingCommands(s: System): set<nat> { set i | i in s.srv.cmds && i in s.terms && !s.terms[i].ending.Drop? }

  ghost predicate DistinctIds(s: System) {
    forall i, j | i in s.srv.cmds && j in s.srv.cmds && Held(s, i) && Held(s, j) && i != j ::
      s.srv.cmds[i].order.commandID != s.srv.cmds[j].order.commandID
  }

  ghost predicate ApartCommands(s: System) {
    && QueuedCommands(s) * PendingCommands(s) == {}
    && (QueuedCommands(s) + PendingCommands(s)) * EndingCommands(s) == {}
  }

  /** Each id that is owned is in exactly one place. */
  lemma OwnedPlace(s: System, c: string)
    requires Owners(s) && c in s.owner
    ensures c in InProcess(s) <==> s.owner[c].Processing?
    ensures c in s.srv.awaiting <==> s.owner[c].Owing?
    ensures c in IdsOf(s, QueuedCommands(s)) + IdsOf(s, PendingCommands(s)) + IdsOf(s, EndingCommands(s)) <==>
      s.owner[c].Holding?
  {
    hide Shape, ValidUUID, InQueue, IsPending, TermsApart;
    if s.owner[c].Holding? {
      var i := s.owner[c].id;
      assert Held(s, i) && i in QueuedCommands(s) + PendingCommands(s) + EndingCommands(s);
    } else {
      forall i | i in s.srv.cmds && s.srv.cmds[i].order.commandID == c ensures !Held(s, i) {}
    }
  }

  lemma UnownedNowhere(s: System, c: string)
    requires Owners(s) && c !in s.owner
    ensures c !in InProcess(s) && c !in s.srv.awaiting
    ensures c !in IdsOf(s, QueuedCommands(s)) + IdsOf(s, PendingCommands(s)) + IdsOf(s, EndingCommands(s))
  {
    hide Shape, ValidUUID, InQueue, IsPending, TermsApart;
    forall i | i in s.srv.cmds && s.srv.cmds[i].order.commandID == c ensures !Held(s, i) {}
  }

  lemma HeldIdsDiffer(s: System)
    requires Owners(s)
    ensures DistinctIds(s) && ApartCommands(s)
  {
    ShapeSeparates(s.srv);
    assert ApartCommands(s) by { hide InQueue, IsPending, Shape, ValidUUID; }
    hide Shape, ValidUUID, Waiting, TermsApart, ApartCommands;
    forall i, j | i in s.srv.cmds && j in s.srv.cmds && Held(s, i) && Held(s, j) && i != j
      ensures s.srv.cmds[i].order.commandID != s.srv.cmds[j].order.commandID {
      assert s.owner[s.srv.cmds[i].order.commandID] == Holding(i);
    }
  }

  lemma OpenIds(s: System)
    requires Safe(s) && !s.srv.closed
    ensures Owners(s) && s.srv.ids == s.owner.Keys && |s.srv.ids| <= MAX_COMMANDS
  {
    assert |s.owner| == |s.owner.Keys|;
  }

  function CommandIds(s: System): set<string> {
    IdsOf(s, QueuedCommands(s)) + IdsOf(s, PendingCommands(s)) + IdsOf(s, EndingCommands(s))
  }

  ghost predicate Partition<T(!new)>(all: set<T>, a: set<T>, b: set<T>, c: set<T>) {
    all == a + b + c && a * b == {} && (a + b) * c == {}
  }

  ghost predicate OnePlace<T>(x: T, all: set<T>, a: set<T>, b: set<T>, c: set<T>) {
    && (x in all <==> x in a || x in b || x in c)
    && !(x in a && x in b) && !(x in a && x in c) && !(x in b && x in c)
  }

  lemma PlacesPartition<T(!new)>(all: set<T>, a: set<T>, b: set<T>, c: set<T>)
    requires forall x :: OnePlace(x, all, a, b, c)
    ensures Partition(all, a, b, c)
  {
    forall x ensures (x in all <==> x in a + b + c) && x !in a * b && x !in (a + b) * c {
      assert OnePlace(x, all, a, b, c);
    }
  }

  lemma IdHasOnePlace(s: System, c: string)
    requires Owners(s)
    ensures OnePlace(c, s.owner.Keys, InProcess(s), CommandIds(s), s.srv.awaiting.Keys)
  {
    hide Owners, InProcess, IdsOf, QueuedCommands, PendingCommands, EndingCommands;
    if c in s.owner { OwnedPlace(s, c); } else { UnownedNowhere(s, c); }
  }

  /** While the server is open, secretCmdID is exactly the disjoint union of the ids in processing,
      of the commands that are queued, pending or ending, and of the results waiting to be stored;
      different commands hold different ids, and there are never more than sixteen. */
  lemma ReservedIdsArePartitioned(s: System)
    requires Reachable(s) && !s.srv.closed
    ensures Partition(s.srv.ids, InProcess(s), CommandIds(s), s.srv.awaiting.Keys)
    ensures |s.srv.ids| <= 16
    ensures DistinctIds(s) && ApartCommands(s)
  {
    hide Reachable, Safe, Owners, InProcess, CommandIds, DistinctIds, ApartCommands, OnePlace, Partition;
    ReachableIsSafe(s);
    OpenIds(s);
    HeldIdsDiffer(s);
    forall c ensures OnePlace(c, s.owner.Keys, InProcess(s), CommandIds(s), s.srv.awaiting.Keys) {
      IdHasOnePlace(s, c);
    }
    PlacesPartition(s.owner.Keys, InProcess(s), CommandIds(s), s.srv.awaiting.Keys);
  }

  lemma ShapeSeparates(srv: Srv)
    requires Shape(srv)
    ensures forall i :: !(InQueue(srv, i) && IsPending(srv, i))
  {
    hide Ascending, AllFor;
    forall i | IsPending(srv, i) ensures !InQueue(srv, i) {
      assert Matches(srv, PendingKey(srv.cmds[i].order.deviceSN, i));
    }
  }

  /** A process never finds its reservation gone: queueing fails only after a shutdown. */
  lemma QueueingFailsOnlyWhenClosed(s: System, c: string, payload: string, lease: int)
    requires Reachable(s) && ProcessEnabled(s, c, QueueCommand(payload, lease))
    ensures EnqueueCommand(s.srv, NewCommand(s.owner[c].stage.order, payload, lease)).1
            == if s.srv.closed then Closed else Queued
  {
    ReachableIsSafe(s);
    hide Reachable, Shape, ValidUUID, ValidIdentifier, StoreKept, NoRecord, Held, TermsApart;
    assert Reportable(s.owner[c].stage.order) && s.owner[c].stage.order.commandID == c;
  }
}
