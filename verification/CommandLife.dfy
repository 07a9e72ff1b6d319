/** The life of one command, and the proof that every step of the system moves every command
    along it by at most one transition. */
module CommandLife {
  import opened Identifiers
  import opened ResultOutbox
  import opened Claims
  import opened SecretServer
  import opened Lifecycle
  import opened OwnershipInvariant
  import opened OwnershipSteps

  datatype Place = Absent | InLine | Pending | Gone

  /** Everything in the system that concerns one local id. */
  datatype Life = Life(
    place: Place,
    body: Option<Command>,
    term: Option<Terminator>,
    writer: Option<Writer>,
    original: Option<string>)

  function At<T>(m: map<nat, T>, i: nat): Option<T> {
    if i in m then Some(m[i]) else None
  }

  function PlaceOf(srv: Srv, i: nat): Place {
    if i !in srv.cmds then Absent
    else if IsPending(srv, i) then Pending
    else if InQueue(srv, i) then InLine
    else Gone
  }

  function LifeOf(s: System, i: nat): Life {
    Life(PlaceOf(s.srv, i), At(s.srv.cmds, i), At(s.terms, i), At(s.writers, i), At(s.original, i))
  }

  // ---------- the transitions of one command ----------

  predicate Enters(i: nat, a: Life, b: Life) {
    && a.place.Absent?
    && b.original.Some? && b.body.Some?
    && b.body.value == NewCommand(b.body.value.order, b.original.value, b.body.value.leaseExpiresAt).(id := i)
    && b == Life(InLine, b.body, a.term, a.writer, b.original)
  }

  predicate FirstClaim(a: Life, b: Life, now: int) {
    && a.place.InLine? && a.body.Some?
    && b == a.(place := Pending, writer := Some(Checking),
               body := Some(a.body.value.(firstServedAt := Some(now), serveAttempts := 1, writerActive := true)))
  }

  predicate NextClaim(a: Life, b: Life, now: int) {
    && a.place.Pending? && a.body.Some?
    && !a.body.value.writerActive && !Spent(a.body.value, now)
    && b == a.(writer := Some(Checking),
               body := Some(a.body.value.(writerActive := true, serveAttempts := a.body.value.serveAttempts + 1)))
  }

  /** The command without its writer, if it is still pending. */
  function Freed(a: Life): Option<Command> {
    if a.place.Pending? && a.body.Some? then Some(a.body.value.(writerActive := false)) else a.body
  }

  /** The result is for the operation, device, digest, id, attempt and asset of the order. */
  predicate Names(order: Order, result: Result) {
    result == Result(order.operation, result.status, order.deviceSN, order.sha256, result.errorCode, order.commandID,
                     order.attempt, order.vaultAssetID, result.returnCode)
  }

  /** A report is about the command itself: it tells what a device acknowledged, or a failure of the agent. */
  predicate OwnReport(order: Order, result: Result, e: Option<Milestone>) {
    && Names(order, result)
    && if e.Some? && e.value.Acknowledged? then
         if e.value.returnCode == 0 then result.status == "applied" && result.errorCode == "" && result.returnCode == 0
         else result.status == "failed" && result.errorCode == "device_command_failed"
              && result.returnCode == e.value.returnCode
       else
         result.status == "failed" && result.returnCode == -1
  }

  /** Only an acknowledgement with return code 0 makes a result `applied`, and a deletion has to have
      been served. */
  predicate Leaves(i: nat, a: Life, b: Life, e: Option<Milestone>) {
    && (a.place.InLine? || a.place.Pending?) && a.body.Some?
    && b.term.Some? && !b.term.value.zeroed
    && b == Life(Gone, Freed(a), b.term, if b.writer.Some? then a.writer else None, a.original)
    && (e.Some? ==> e.value.Acknowledged?)
    && (b.term.value.ending.Report? ==> OwnReport(a.body.value.order, b.term.value.ending.result, e))
    && (FateOf(b.term.value.ending).Applied? ==>
          && e == Some(Acknowledged(i, 0)) && a.place.Pending?
          && (a.body.value.order.operation == "delete" ==> a.body.value.served))
  }

  /** Commands that leave without an acknowledgement fail, or are not reported. */
  predicate OwnEnding(s: System, out: seq<nat>, ending: Ending) {
    && !FateOf(ending).Applied?
    && (ending.Report? ==>
         forall i | i in out && i in s.srv.cmds :: OwnReport(s.srv.cmds[i].order, ending.result, None))
  }

  /** The writer of a deletion has three checks behind it before it is ready. */
  predicate Works(i: nat, a: Life, b: Life, now: int, e: Option<Milestone>) {
    && a.writer.Some? && b.writer.Some? && a.body.Some?
    && var c := a.body.value;
       match a.writer.value
       case Checking =>
         b == a.(writer := Some(if c.order.operation == "delete" then Rechecking else Ready)) && e.None?
       case Rechecking =>
         && e.Some? && e.value.ClaimMatched? && SameDeletion(c.Expected(), e.value.claim)
         && b == a.(writer := Some(Leased(e.value.claim.leaseExpiresAt)))
       case Leased(lease) =>
         b == a.(writer := Some(Rechecked(lease))) && e == Some(LeaseHeld(i, lease, now))
           && LeaseBoundsWrite(lease, now)
       case Rechecked(lease) =>
         b == a.(writer := Some(Ready), body := Some(c.(leaseExpiresAt := lease))) && e == Some(DeviceMatched(i))
       case Ready =>
         b == a.(writer := Some(Writing(""))) && e.None? && a.place.Pending? && c.writerActive
       case Writing(sent) =>
         && b.writer.value.Writing? && sent <= b.writer.value.sent <= Wire(i, c.payload)
         && b == a.(writer := b.writer) && e.None?
  }

  predicate Stops(a: Life, b: Life) {
    a.writer.Some? && b == a.(writer := None, body := Freed(a))
  }

  predicate Finishes(i: nat, a: Life, b: Life, e: Option<Milestone>) {
    && a.writer.Some? && a.writer.value.Writing? && a.body.Some?
    && |a.writer.value.sent| == |Wire(i, a.body.value.payload)|
    && e == Some(FullyWritten(i, a.writer.value.sent))
    && b == a.(writer := None,
               body := if a.place.Pending? then Some(a.body.value.(writerActive := false, served := true)) else a.body)
  }

  predicate Zeroes(a: Life, b: Life) {
    && a.term.Some? && a.body.Some?
    && !(a.writer.Some? && a.writer.value.Writing?)
    && b == a.(body := Some(a.body.value.(payload := "")), term := Some(a.term.value.(zeroed := true)))
  }

  predicate Ends(a: Life, b: Life) {
    a.term.Some? && a.term.value.zeroed && b == a.(term := None)
  }

  predicate Moved(i: nat, a: Life, b: Life, now: int, e: Option<Milestone>) {
    || (b == a && e.None?)
    || (Enters(i, a, b) && e.None?)
    || ((FirstClaim(a, b, now) || NextClaim(a, b, now)) && e.None?)
    || Leaves(i, a, b, e)
    || Works(i, a, b, now, e)
    || (Stops(a, b) && e.None?)
    || Finishes(i, a, b, e)
    || ((Zeroes(a, b) || Ends(a, b)) && e.None?)
  }

  // ---------- the history of one step ----------

  ghost predicate TrailGrows(s: System, t: System) {
    t.trail == s.trail || (|t.trail| == |s.trail| + 1 && t.trail == s.trail + [t.trail[|s.trail|]])
  }

  /** The milestone of command i that a step added. */
  function NewsOf(s: System, t: System, i: nat): Option<Milestone> {
    if |t.trail| > |s.trail| && t.trail[|s.trail|].id == i then Some(t.trail[|s.trail|]) else None
  }

  ghost predicate MovedIn(s: System, t: System, i: nat) {
    Moved(i, LifeOf(s, i), LifeOf(t, i), s.now, NewsOf(s, t, i))
  }

  ghost predicate AllMoved(s: System, t: System) {
    TrailGrows(s, t) && forall i: nat :: MovedIn(s, t, i)
  }

  // ---------- what changes one command ----------

  lemma SameElsewhereAt<V>(m: map<nat, V>, n: map<nat, V>, k: nat)
    requires m - {k} == n - {k}
    ensures forall i: nat | i != k :: At(m, i) == At(n, i)
  {
    forall i: nat | i != k ensures At(m, i) == At(n, i) {
      assert i in m <==> i in m - {k};
      assert i in n <==> i in n - {k};
    }
  }

  ghost predicate SamePlaces(srv: Srv, after: Srv) {
    forall i: nat :: PlaceOf(after, i) == PlaceOf(srv, i)
  }

  lemma SameQueuesSamePlaces(srv: Srv, after: Srv)
    requires after.queue == srv.queue && after.pending == srv.pending && after.cmds.Keys == srv.cmds.Keys
    requires forall i | i in srv.cmds :: after.cmds[i].order == srv.cmds[i].order
    ensures SamePlaces(srv, after)
  {
    forall i: nat ensures PlaceOf(after, i) == PlaceOf(srv, i) {
      assert InQueue(after, i) == InQueue(srv, i);
      assert IsPending(after, i) == IsPending(srv, i);
    }
  }

  /** One command, its terminator and its writer change; it stays where it is. */
  ghost predicate Alters(s: System, t: System, id: nat) {
    && id in s.srv.cmds && id in t.srv.cmds
    && t.srv.queue == s.srv.queue && t.srv.pending == s.srv.pending
    && t.srv.cmds == s.srv.cmds[id := t.srv.cmds[id]]
    && t.srv.cmds[id].order == s.srv.cmds[id].order
    && t.terms - {id} == s.terms - {id}
    && t.writers - {id} == s.writers - {id}
    && t.original == s.original
  }

  lemma AlteredAlone(s: System, t: System, id: nat)
    requires Alters(s, t, id)
    ensures forall i: nat | i != id :: LifeOf(t, i) == LifeOf(s, i)
    ensures PlaceOf(t.srv, id) == PlaceOf(s.srv, id)
  {
    SameQueuesSamePlaces(s.srv, t.srv);
    SameElsewhereAt(t.terms, s.terms, id);
    SameElsewhereAt(t.writers, s.writers, id);
    hide PlaceOf;
  }

  lemma StillMoves(s: System, t: System, i: nat)
    requires LifeOf(t, i) == LifeOf(s, i) && NewsOf(s, t, i).None?
    ensures MovedIn(s, t, i)
  {
    hide LifeOf, NewsOf, Enters, FirstClaim, NextClaim, Leaves, Works, Stops, Finishes, Zeroes, Ends;
  }

  lemma OneMoved(s: System, t: System, id: nat)
    requires Alters(s, t, id) && TrailGrows(s, t)
    requires |t.trail| > |s.trail| ==> t.trail[|s.trail|].id == id
    requires Moved(id, LifeOf(s, id), LifeOf(t, id), s.now, NewsOf(s, t, id))
    ensures AllMoved(s, t)
  {
    AlteredAlone(s, t, id);
    hide Alters, LifeOf, TrailGrows, Moved;
    forall i: nat ensures MovedIn(s, t, i) {
      if i != id { StillMoves(s, t, i); }
    }
  }

  // ---------- departures ----------

  lemma RemovedPlaces(srv: Srv, out: set<nat>)
    requires Shape(srv)
    ensures var r := Remove(srv, out);
      && (forall i: nat | i !in out :: PlaceOf(r, i) == PlaceOf(srv, i) && At(r.cmds, i) == At(srv.cmds, i))
      && (forall i: nat | i in out && i in srv.cmds ::
            && PlaceOf(r, i) == Gone
            && r.cmds[i] == if IsPending(srv, i) then srv.cmds[i].(writerActive := false) else srv.cmds[i])
  {
    RemoveQueues(srv, out);
    RemoveMembers(srv, out);
    hide InQueue, Shape, Keep;
  }

  /** Commands leave; a writer of one of them may end in the same step. */
  ghost predicate Departs(s: System, t: System, out: seq<nat>, ending: Ending) {
    && t.srv.cmds == Remove(s.srv, Members(out)).cmds
    && (forall i: nat :: PlaceOf(t.srv, i) == PlaceOf(Remove(s.srv, Members(out)), i))
    && t.terms == s.terms + (map i | i in out :: Terminator(ending, false))
    && t.original == s.original
    && (forall i: nat :: At(t.writers, i) == At(s.writers, i) || (i in out && At(t.writers, i) == None))
  }

  lemma DepartedLife(s: System, t: System, out: seq<nat>, ending: Ending, i: nat)
    requires Shape(s.srv) && Departs(s, t, out, ending)
    requires i in out ==> i in s.srv.cmds && Live(s, i)
    ensures i !in out ==> LifeOf(t, i) == LifeOf(s, i)
    ensures i in out ==> var a, b := LifeOf(s, i), LifeOf(t, i);
      && (a.place.InLine? || a.place.Pending?) && a.body.Some?
      && b == Life(Gone, Freed(a), Some(Terminator(ending, false)),
                   if b.writer.Some? then a.writer else None, a.original)
  {
    RemovedPlaces(s.srv, Members(out));
    hide InQueue, IsPending, Shape, Remove;
  }

  /** Nothing that leaves without an acknowledgement is reported as applied. */
  lemma DepartureMoves(s: System, t: System, out: seq<nat>, ending: Ending)
    requires Shape(s.srv) && Departs(s, t, out, ending) && t.trail == s.trail && OwnEnding(s, out, ending)
    requires forall i | i in out :: i in s.srv.cmds && Live(s, i)
    ensures AllMoved(s, t)
  {
    hide Shape, Departs, LifeOf, Waiting, Moved, OwnReport;
    forall i: nat ensures MovedIn(s, t, i) {
      DepartedLife(s, t, out, ending, i);
      if i in out {
        LifeBody(s, i);
        LeavesMoves(i, LifeOf(s, i), LifeOf(t, i), s.now, None);
      } else {
        StillMoves(s, t, i);
      }
    }
  }

  lemma LifeBody(s: System, i: nat)
    requires i in s.srv.cmds
    ensures LifeOf(s, i).body == Some(s.srv.cmds[i])
  {
    hide PlaceOf;
  }

  lemma LeavesMoves(i: nat, a: Life, b: Life, now: int, e: Option<Milestone>)
    requires Leaves(i, a, b, e)
    ensures Moved(i, a, b, now, e)
  {
    hide Enters, FirstClaim, NextClaim, Leaves, Works, Stops, Finishes, Zeroes, Ends;
  }

  lemma LeaveMoves(s: System, out: seq<nat>, ending: Ending)
    requires Shape(s.srv) && OwnEnding(s, out, ending)
    requires forall i | i in out :: i in s.srv.cmds && Live(s, i)
    ensures AllMoved(s, Leave(s, out, ending))
  {
    assert Departs(s, Leave(s, out, ending), out, ending) by { hide Remove, PlaceOf, At; }
    hide Shape, Departs, Waiting, Leave, FateOf, OwnEnding;
    DepartureMoves(s, Leave(s, out, ending), out, ending);
  }

  lemma FailDeparts(s: System, id: nat, ending: Ending)
    ensures Departs(s, EndWriter(Leave(s, [id], ending), id), [id], ending)
  {
    var t := EndWriter(Leave(s, [id], ending), id);
    assert t.writers == s.writers - {id};
    SameElsewhereAt(t.writers, s.writers, id);
    hide Remove, PlaceOf, FateOf;
  }

  /** A command leaves together with its writer. */
  lemma FailMoves(s: System, id: nat, ending: Ending)
    requires Shape(s.srv) && id in s.srv.cmds && OwnEnding(s, [id], ending)
    requires IsPending(s.srv, id)
    ensures AllMoved(s, EndWriter(Leave(s, [id], ending), id))
  {
    var t := EndWriter(Leave(s, [id], ending), id);
    FailDeparts(s, id, ending);
    assert t.trail == s.trail;
    assert forall i | i in [id] :: i == id;
    assert Live(s, id) by { hide IsPending, InQueue; }
    hide Shape, Departs, Waiting, Leave, FateOf, OwnEnding;
    DepartureMoves(s, t, [id], ending);
  }

  // ---------- writers ----------

  lemma StopMoves(s: System, t: System, id: nat)
    requires id in s.writers && id in s.srv.cmds
    requires t == s.(srv := s.srv.(cmds := t.srv.cmds), writers := s.writers - {id})
    requires t.srv.cmds ==
      if IsPending(s.srv, id) then s.srv.cmds[id := s.srv.cmds[id].(writerActive := false)] else s.srv.cmds
    ensures AllMoved(s, t)
  {
    assert id in t.srv.cmds && t.srv.cmds == s.srv.cmds[id := t.srv.cmds[id]];
    assert Alters(s, t, id) by { hide IsPending; }
    AlteredAlone(s, t, id);
    assert Stops(LifeOf(s, id), LifeOf(t, id)) by { hide IsPending, InQueue, Alters; }
    hide LifeOf, IsPending, Alters, Stops, Enters, FirstClaim, NextClaim, Leaves, Works, Finishes, Zeroes, Ends;
    OneMoved(s, t, id);
  }

  lemma WorkMoves(s: System, t: System, id: nat)
    requires Alters(s, t, id) && TrailGrows(s, t)
    requires |t.trail| > |s.trail| ==> t.trail[|s.trail|].id == id
    requires Works(id, LifeOf(s, id), LifeOf(t, id), s.now, NewsOf(s, t, id))
    ensures AllMoved(s, t)
  {
    hide LifeOf, Alters, TrailGrows, Stops, Enters, FirstClaim, NextClaim, Leaves, Works, Finishes, Zeroes, Ends;
    OneMoved(s, t, id);
  }

  lemma CheckedMoves(s: System, id: nat, code: string)
    requires Shape(s.srv) && InWriter(s, id) && s.writers[id].Checking?
    ensures AllMoved(s, Checked(s, id, code))
  {
    var t := Checked(s, id, code);
    if code != "" {
      FailedMoves(s, id, code);
    } else {
      hide Shape, IsPending, InQueue;
      assert Alters(s, t, id);
      AlteredAlone(s, t, id);
      WorkMoves(s, t, id);
    }
  }

  lemma FailedMoves(s: System, id: nat, code: string)
    requires Shape(s.srv) && InWriter(s, id)
    ensures AllMoved(s, EndWriter(FailServed(s, id, code), id))
  {
    hide Shape, IsPending, InQueue, Leave;
    if IsPending(s.srv, id) {
      FailMoves(s, id, Report(s.srv.cmds[id].order.Reported("failed", code, -1)));
    } else {
      StopMoves(s, EndWriter(s, id), id);
    }
  }

  lemma ReleasedMoves(s: System, id: nat)
    requires InWriter(s, id)
    ensures AllMoved(s, EndWriter(s.(srv := ReleaseWriter(s.srv, id)), id))
  {
    hide IsPending;
    StopMoves(s, EndWriter(s.(srv := ReleaseWriter(s.srv, id)), id), id);
  }

  lemma RecheckMoves(s: System, id: nat, answer: RecheckAnswer)
    requires Shape(s.srv) && InWriter(s, id) && s.writers[id].Rechecking?
    ensures AllMoved(s, Recheck(s, id, answer))
  {
    var t := Recheck(s, id, answer);
    var code := RecheckCode(s.srv.cmds[id], answer, s.now);
    hide Shape, IsPending, InQueue, Leave, ReleaseWriter;
    if code == "network_unavailable" || code == "deployment_claim_failed" {
      ReleasedMoves(s, id);
    } else if code != "" || answer.NoAnswer? {
      if IsPending(s.srv, id) { FailMoves(s, id, Discard); } else { StopMoves(s, t, id); }
    } else {
      assert SameDeletion(s.srv.cmds[id].Expected(), answer.claim.value) by { hide ValidDeletion, SameDeletion; }
      hide RecheckCode, SameDeletion;
      MatchedMoves(s, id, answer.claim.value);
    }
  }

  lemma MatchedMoves(s: System, id: nat, claim: Deletion)
    requires InWriter(s, id) && s.writers[id].Rechecking? && SameDeletion(s.srv.cmds[id].Expected(), claim)
    ensures AllMoved(s,
      s.(writers := s.writers[id := Leased(claim.leaseExpiresAt)], trail := s.trail + [ClaimMatched(id, claim)]))
  {
    var t := s.(writers := s.writers[id := Leased(claim.leaseExpiresAt)], trail := s.trail + [ClaimMatched(id, claim)]);
    hide SameDeletion, IsPending, InQueue;
    assert Alters(s, t, id);
    AlteredAlone(s, t, id);
    WorkMoves(s, t, id);
  }

  lemma LeaseMoves(s: System, id: nat)
    requires InWriter(s, id) && s.writers[id].Leased?
    ensures AllMoved(s, Lease(s, id))
  {
    var t := Lease(s, id);
    hide IsPending, InQueue, ReleaseWriter;
    if LeaseBoundsWrite(s.writers[id].lease, s.now) {
      assert Alters(s, t, id);
      AlteredAlone(s, t, id);
      WorkMoves(s, t, id);
    } else {
      ReleasedMoves(s, id);
    }
  }

  lemma RecompatMoves(s: System, id: nat, code: string)
    requires Shape(s.srv) && InWriter(s, id) && s.writers[id].Rechecked?
    ensures AllMoved(s, Recompat(s, id, code))
  {
    var t := Recompat(s, id, code);
    if code != "" {
      FailedMoves(s, id, code);
    } else {
      hide Shape, IsPending, InQueue;
      assert Alters(s, t, id);
      AlteredAlone(s, t, id);
      WorkMoves(s, t, id);
    }
  }

  lemma BeginMoves(s: System, id: nat)
    requires InWriter(s, id) && s.writers[id].Ready?
    ensures AllMoved(s, Begin(s, id))
  {
    var t := Begin(s, id);
    if BeginWrite(s.srv, id).1 {
      assert Alters(s, t, id);
      AlteredAlone(s, t, id);
      hide InQueue, Alters;
      WorkMoves(s, t, id);
    } else if IsPending(s.srv, id) {
      hide IsPending;
      assert t.srv.cmds == s.srv.cmds[id := s.srv.cmds[id].(writerActive := false)];
      StopMoves(s, t, id);
    } else {
      StopMoves(s, t, id);
    }
  }

  lemma AdvanceMoves(s: System, id: nat, upTo: nat)
    requires InWriter(s, id) && s.writers[id].Writing? && s.writers[id].sent <= Wire(id, s.srv.cmds[id].payload)
    ensures AllMoved(s, Advance(s, id, upTo))
  {
    var t := Advance(s, id, upTo);
    var wire := Wire(id, s.srv.cmds[id].payload);
    hide IsPending, InQueue, Wire;
    if upTo <= |wire| && |s.writers[id].sent| <= upTo {
      assert Alters(s, t, id);
      AlteredAlone(s, t, id);
      var sent := t.writers[id].sent;
      assert sent == wire[..upTo];
      WorkMoves(s, t, id);
    } else {
      SameMoves(s, t);
    }
  }

  lemma CompleteMoves(s: System, id: nat)
    requires WriterEnabled(s, id, FinishWrite)
    ensures AllMoved(s, Complete(s, id))
  {
    var t := Complete(s, id);
    assert IsPending(s.srv, id) ==> id in s.srv.cmds;
    hide IsPending, InQueue, Wire;
    assert Alters(s, t, id);
    AlteredAlone(s, t, id);
    assert NewsOf(s, t, id) == Some(FullyWritten(id, s.writers[id].sent));
    assert Finishes(id, LifeOf(s, id), LifeOf(t, id), NewsOf(s, t, id));
    hide LifeOf, Alters, Stops, Enters, FirstClaim, NextClaim, Leaves, Works, Finishes, Zeroes, Ends;
    OneMoved(s, t, id);
  }

  // ---------- steps that move no command ----------

  ghost predicate Apart(s: System, t: System) {
    && t.srv.queue == s.srv.queue && t.srv.pending == s.srv.pending && t.srv.cmds == s.srv.cmds
    && t.terms == s.terms && t.writers == s.writers && t.original == s.original && t.trail == s.trail
  }

  lemma SameMoves(s: System, t: System)
    requires Apart(s, t)
    ensures AllMoved(s, t)
  {
    SameQueuesSamePlaces(s.srv, t.srv);
    hide PlaceOf, Moved;
    forall i: nat ensures MovedIn(s, t, i) { StillMoves(s, t, i); }
  }

  lemma SendApart(u: System, origin: Option<nat>, dep: string, result: Result, p: Persist)
    ensures Apart(u, SendResult(u, origin, dep, result, p))
  {
    hide Enqueue, ValidUUID, ValidIdentifier;
  }

  // ---------- claims, endings, queueing ----------

  lemma ZeroedMoves(s: System, id: nat)
    requires EndingEnabled(s, id, Zero)
    ensures AllMoved(s, Zeroed(s, id))
  {
    var t := Zeroed(s, id);
    hide IsPending, InQueue;
    assert Alters(s, t, id);
    AlteredAlone(s, t, id);
    assert Zeroes(LifeOf(s, id), LifeOf(t, id));
    hide LifeOf, Alters, Stops, Enters, FirstClaim, NextClaim, Leaves, Works, Finishes, Zeroes, Ends;
    OneMoved(s, t, id);
  }

  lemma EndedMoves(s: System, id: nat, p: Persist)
    requires EndingEnabled(s, id, EndCommand(p))
    ensures AllMoved(s, Ended(s, id, p))
  {
    var t := Ended(s, id, p);
    var u := s.(terms := s.terms - {id});
    assert Apart(u, t) by {
      if s.terms[id].ending.Report? {
        SendApart(u, Some(id), s.srv.cmds[id].order.deploymentID, s.terms[id].ending.result, p);
      }
      hide SendResult;
    }
    hide Ended, IsPending, InQueue;
    assert Alters(s, t, id);
    AlteredAlone(s, t, id);
    assert At(t.terms, id) == None;
    assert Ends(LifeOf(s, id), LifeOf(t, id));
    hide LifeOf, Alters, Stops, Enters, FirstClaim, NextClaim, Leaves, Works, Finishes, Zeroes, Ends;
    OneMoved(s, t, id);
  }

  lemma AckedLeaves(s: System, t: System, id: nat, ending: Ending, returnCode: int)
    requires Shape(s.srv) && IsPending(s.srv, id) && Departs(s, t, [id], ending)
    requires ending.Report? && OwnReport(s.srv.cmds[id].order, ending.result, Some(Acknowledged(id, returnCode)))
    requires FateOf(ending).Applied? ==>
      returnCode == 0 && (s.srv.cmds[id].order.operation == "delete" ==> s.srv.cmds[id].served)
    ensures Leaves(id, LifeOf(s, id), LifeOf(t, id), Some(Acknowledged(id, returnCode)))
  {
    assert At(s.srv.cmds, id) == Some(s.srv.cmds[id]) && PlaceOf(s.srv, id) == Pending;
    hide Shape, Departs, IsPending, InQueue, FateOf, OwnReport;
    DepartedLife(s, t, [id], ending, id);
  }

  lemma AckDeparts(s: System, t: System, id: nat, ending: Ending, returnCode: int)
    requires Shape(s.srv) && IsPending(s.srv, id) && Departs(s, t, [id], ending)
    requires t.trail == s.trail + [Acknowledged(id, returnCode)]
    requires ending.Report? && OwnReport(s.srv.cmds[id].order, ending.result, Some(Acknowledged(id, returnCode)))
    requires FateOf(ending).Applied? ==>
      returnCode == 0 && (s.srv.cmds[id].order.operation == "delete" ==> s.srv.cmds[id].served)
    ensures AllMoved(s, t)
  {
    AckedLeaves(s, t, id, ending, returnCode);
    assert id in s.srv.cmds && Live(s, id);
    hide OwnReport, Shape, Departs, Waiting, IsPending, InQueue, FateOf, LifeOf, Leaves;
    forall i: nat ensures MovedIn(s, t, i) {
      if i == id {
        LeavesMoves(i, LifeOf(s, i), LifeOf(t, i), s.now, Some(Acknowledged(id, returnCode)));
      } else {
        DepartedLife(s, t, [id], ending, i);
        StillMoves(s, t, i);
      }
    }
  }

  lemma AckedMoves(s: System, key: PendingKey, returnCode: int)
    requires Shape(s.srv)
    ensures AllMoved(s, Acked(s, key, returnCode))
  {
    var t := Acked(s, key, returnCode);
    match Completion(s.srv, key, returnCode) {
      case None => SameMoves(s, t);
      case Some(result) =>
        var id := s.srv.pending[key];
        assert Matches(s.srv, key) && IsPending(s.srv, id);
        assert FateOf(Report(result)).Applied? ==>
          returnCode == 0 && (s.srv.cmds[id].order.operation == "delete" ==> s.srv.cmds[id].served);
        assert OwnReport(s.srv.cmds[id].order, result, Some(Acknowledged(id, returnCode)));
        hide Shape, Matches, InQueue, IsPending, PlaceOf, Completion, Remove, OwnReport;
        assert Departs(s, t, [id], Report(result));
        hide Departs, FateOf, Acked;
        AckDeparts(s, t, id, Report(result), returnCode);
    }
  }

  lemma PendingExists(srv: Srv, id: nat)
    ensures IsPending(srv, id) ==> id in srv.cmds
  {}

  lemma EntersMoves(i: nat, a: Life, b: Life, now: int)
    requires Enters(i, a, b)
    ensures Moved(i, a, b, now, None)
  {
    hide Enters, FirstClaim, NextClaim, Leaves, Works, Stops, Finishes, Zeroes, Ends;
  }

  lemma AppendedMoves(s: System, t: System, c: string, id: nat, payload: string, lease: int)
    requires InStage(s, c) && s.owner[c].stage.Superseding? && Appended(s, t, c, id)
    requires t.srv.cmds[id] == NewCommand(s.owner[c].stage.order, payload, lease).(id := id)
    requires t.original == s.original[id := payload]
    ensures AllMoved(s, t)
  {
    PendingExists(s.srv, id);
    hide Shape, InQueue, IsPending;
    forall i: nat ensures MovedIn(s, t, i) {
      if i == id {
        assert Enters(i, LifeOf(s, i), LifeOf(t, i));
        hide LifeOf, Moved;
        EntersMoves(i, LifeOf(s, i), LifeOf(t, i), s.now);
      } else {
        assert LifeOf(t, i) == LifeOf(s, i);
        hide LifeOf, Moved;
        StillMoves(s, t, i);
      }
    }
  }

  lemma QueueSets(s: System, c: string, payload: string, lease: int)
    requires InStage(s, c) && s.owner[c].stage.Superseding? && CanQueue(s, c, payload, lease)
    ensures var t := Queue(s, c, payload, lease);
      var id := t.srv.cmdID;
      && id in t.srv.cmds
      && t.srv.cmds[id] == NewCommand(s.owner[c].stage.order, payload, lease).(id := id)
      && t.original == s.original[id := payload]
  {
    hide ValidUUID, ValidIdentifier;
  }

  lemma QueueMoves(s: System, c: string, payload: string, lease: int)
    requires Shape(s.srv) && InStage(s, c) && s.owner[c].stage.Superseding?
    ensures AllMoved(s, Queue(s, c, payload, lease))
  {
    var t := Queue(s, c, payload, lease);
    hide Shape, Appended;
    if CanQueue(s, c, payload, lease) {
      QueueAppends(s, c, payload, lease);
      QueueSets(s, c, payload, lease);
      hide Queue, CanQueue;
      AppendedMoves(s, t, c, t.srv.cmdID, payload, lease);
    } else {
      SameMoves(s, t);
    }
  }

  lemma TakeFirstPlaces(srv: Srv, d: string, now: int)
    requires Shape(srv) && QueueOf(srv, d) != []
    ensures var after := TakeFirst(srv, d, now);
      var id := QueueOf(srv, d)[0];
      && id in srv.cmds && id in after.cmds
      && PlaceOf(srv, id) in {InLine, Pending} && PlaceOf(after, id) == Pending
      && forall i: nat | i != id :: PlaceOf(after, i) == PlaceOf(srv, i)
  {
    var after := TakeFirst(srv, d, now);
    var q := QueueOf(srv, d);
    assert Ascending(q) && AllFor(srv.cmds, d, q);
    hide Shape, Ascending, AllFor;
    assert forall i | i in q :: i == q[0] || i in q[1..];
  }

  lemma TakenMoves(s: System, d: string)
    requires Shape(s.srv) && PendingOf(s.srv, d).None? && QueueOf(s.srv, d) != []
    ensures AllMoved(s, Polled(s, d))
  {
    var t := Polled(s, d);
    var id := QueueOf(s.srv, d)[0];
    TakeFirstPlaces(s.srv, d, s.now);
    assert PlaceOf(s.srv, id) == InLine by { QueuedIsInLine(s.srv, d, id); }
    hide Shape, PendingOf, PlaceOf;
    assert t.srv == TakeFirst(s.srv, d, s.now);
    forall i: nat ensures MovedIn(s, t, i) {
      if i == id {
        assert FirstClaim(LifeOf(s, i), LifeOf(t, i), s.now);
        hide LifeOf, Enters, FirstClaim, NextClaim, Leaves, Works, Stops, Finishes, Zeroes, Ends, Polled;
        assert NewsOf(s, t, i) == None;
      } else {
        assert LifeOf(t, i) == LifeOf(s, i);
        hide LifeOf;
        StillMoves(s, t, i);
      }
    }
  }

  lemma QueuedIsInLine(srv: Srv, d: string, id: nat)
    requires Shape(srv) && PendingOf(srv, d).None? && id in QueueOf(srv, d)
    ensures PlaceOf(srv, id) == InLine
  {
    assert AllFor(srv.cmds, d, QueueOf(srv, d));
    hide Ascending, Matches;
    assert PendingKey(d, id) !in srv.pending;
  }

  lemma ReclaimedMoves(s: System, t: System, id: nat)
    requires id in s.srv.cmds && IsPending(s.srv, id)
    requires !s.srv.cmds[id].writerActive && !Spent(s.srv.cmds[id], s.now)
    requires t == s.(srv := s.srv.(cmds := t.srv.cmds), writers := s.writers[id := Checking], claims := t.claims)
    requires t.srv.cmds
      == s.srv.cmds[id := s.srv.cmds[id].(writerActive := true, serveAttempts := s.srv.cmds[id].serveAttempts + 1)]
    ensures AllMoved(s, t)
  {
    assert Alters(s, t, id) by { hide IsPending; }
    AlteredAlone(s, t, id);
    assert NextClaim(LifeOf(s, id), LifeOf(t, id), s.now) by { hide InQueue, Spent, Alters; }
    hide LifeOf, IsPending, Alters, Stops, Enters, FirstClaim, NextClaim, Leaves, Works, Finishes, Zeroes, Ends;
    OneMoved(s, t, id);
  }

  lemma PendingPollMoves(s: System, d: string, id: nat)
    requires Shape(s.srv) && PendingOf(s.srv, d) == Some(id)
    ensures AllMoved(s, Polled(s, d))
  {
    PolledPending(s, d, id);
    hide Shape, AllMoved, Leave, Spent, Polled, PendingOf, IsPending;
    if s.srv.cmds[id].writerActive {
      SameMoves(s, s);
    } else if Spent(s.srv.cmds[id], s.now) {
      FailedPollMoves(s, id);
    } else {
      ReclaimedMoves(s, Polled(s, d), id);
    }
  }

  lemma FailedPollMoves(s: System, id: nat)
    requires Shape(s.srv) && id in s.srv.cmds && IsPending(s.srv, id)
    ensures AllMoved(s, Leave(s, [id], Report(NetworkFailure(s, id))))
  {
    hide Shape, AllMoved, Leave, InQueue, IsPending;
    LeaveMoves(s, [id], Report(NetworkFailure(s, id)));
  }

  lemma PolledMoves(s: System, d: string)
    requires Shape(s.srv)
    ensures AllMoved(s, Polled(s, d))
  {
    hide Shape, AllMoved, PendingOf, Polled, QueueOf;
    if PendingOf(s.srv, d).Some? {
      PendingPollMoves(s, d, PendingOf(s.srv, d).value);
    } else if QueueOf(s.srv, d) != [] {
      TakenMoves(s, d);
    } else {
      PolledQueue(s, d);
      SameMoves(s, s);
    }
  }

  // ---------- shutting down ----------

  lemma ClosedPlaces(srv: Srv, i: nat)
    requires Shape(srv)
    ensures PlaceOf(Shutdown(srv), i) == (if i in srv.cmds then Gone else Absent)
    ensures PlaceOf(Remove(srv, AllWaiting(srv)), i) == (if i in srv.cmds then Gone else Absent)
  {
    AllPendingOut(srv);
    RemoveMembers(srv, AllWaiting(srv));
    assert i in srv.cmds ==> (i in AllWaiting(srv) <==> Waiting(srv, i));
    hide AllWaiting, Shape, Keep;
  }

  lemma ClosingMoves(s: System, out: seq<nat>)
    requires Shape(s.srv) && Enumerates(out, AllWaiting(s.srv))
    ensures AllMoved(s, Closing(s, out))
  {
    var t := Closing(s, out);
    forall i: nat ensures PlaceOf(t.srv, i) == PlaceOf(Remove(s.srv, Members(out)), i) { ClosedPlaces(s.srv, i); }
    assert t.srv.cmds == Remove(s.srv, Members(out)).cmds by { hide Shape, AllWaiting; }
    forall i | i in out ensures i in s.srv.cmds && Live(s, i) { assert i in Members(out); }
    hide Shape, PlaceOf, Remove, AllWaiting, Waiting;
    assert Departs(s, t, out, Drop);
    assert t.trail == s.trail && OwnEnding(s, out, Drop);
    hide Departs, Closing, AllMoved;
    DepartureMoves(s, t, out, Drop);
  }

  // ---------- every step ----------

  ghost predicate WritesFit(s: System) {
    forall i | i in s.writers && s.writers[i].Writing? && i in s.srv.cmds ::
      s.writers[i].sent <= Wire(i, s.srv.cmds[i].payload)
  }

  lemma ProcessMoves(s: System, c: string, act: ProcessStep)
    requires Shape(s.srv) && ProcessEnabled(s, c, act)
    ensures AllMoved(s, ProcessApply(s, c, act))
  {
    var t := ProcessApply(s, c, act);
    hide Shape, AllMoved;
    match act {
      case ReserveID => assert Apart(s, t) by { hide ValidUUID; } SameMoves(s, t);
      case CloudClaims(claim) => hide OrderOf, ValidClaim; SameMoves(s, t);
      case SupersedeOthers(out) => SupersedeMoves(s, c, out);
      case ReportFailure(code, p) =>
        var order := s.owner[c].stage.order;
        SendApart(s, None, order.deploymentID, order.Reported("failed", code, -1), p);
        hide SendResult, Apart;
        SameMoves(s, t);
      case QueueCommand(payload, lease) => hide Queue; QueueMoves(s, c, payload, lease);
      case ReleaseID => SameMoves(s, t);
    }
  }

  lemma SupersedeMoves(s: System, c: string, out: seq<nat>)
    requires Shape(s.srv) && ProcessEnabled(s, c, SupersedeOthers(out))
    ensures AllMoved(s, ProcessApply(s, c, SupersedeOthers(out)))
  {
    var t := ProcessApply(s, c, SupersedeOthers(out));
    forall i | i in out ensures i in s.srv.cmds && Live(s, i) { assert i in Members(out); }
    assert t.trail == s.trail;
    assert Departs(s, t, out, Discard) by { hide Remove, PlaceOf, At; }
    hide Shape, Departs, Waiting, ProcessEnabled, ProcessApply;
    DepartureMoves(s, t, out, Discard);
  }

  lemma ServingMoves(s: System, id: nat, does: WriterStep)
    requires Shape(s.srv) && WritesFit(s) && WriterEnabled(s, id, does)
    ensures AllMoved(s, WriterApply(s, id, does))
  {
    hide Shape, AllMoved, Wire, ValidErrorCode, Checked, Recheck, Lease, Recompat, Begin, Advance, Complete, FailServed;
    hide ReleaseWriter;
    match does
    case CheckDevice(code) => CheckedMoves(s, id, code);
    case RecheckClaim(answer) => RecheckMoves(s, id, answer);
    case CheckLease => LeaseMoves(s, id);
    case RecheckDevice(code) => RecompatMoves(s, id, code);
    case StartWrite => BeginMoves(s, id);
    case WriteSome(upTo) => AdvanceMoves(s, id, upTo);
    case FinishWrite => CompleteMoves(s, id);
    case BreakWrite(timeout) => if timeout { FailedMoves(s, id, "network_unavailable"); } else { ReleasedMoves(s, id); }
  }

  lemma EndingMoves(s: System, id: nat, ends: EndingStep)
    requires Shape(s.srv) && EndingEnabled(s, id, ends)
    ensures AllMoved(s, EndingApply(s, id, ends))
  {
    hide Shape, AllMoved, Leave, Zeroed, Ended, IsPending, InQueue, Apart;
    match ends
    case PreServeTimer => if InQueue(s.srv, id) { LeaveMoves(s, [id], Discard); } else { StaysMoves(s); }
    case DeadlineTimer =>
      if IsPending(s.srv, id) { LeaveMoves(s, [id], Report(NetworkFailure(s, id))); } else { StaysMoves(s); }
    case Zero => ZeroedMoves(s, id);
    case EndCommand(p) => EndedMoves(s, id, p);
  }

  lemma StaysMoves(s: System)
    ensures AllMoved(s, s)
  {
    SameMoves(s, s);
  }

  lemma FlushApart(s: System, c: string, p: Persist)
    requires OutboxEnabled(s, Flush(c, p))
    ensures Apart(s, Flushed(s, c, p))
  {
    hide Enqueue;
  }

  lemma WorkerApart(s: System, p: Persist)
    ensures s.worker.Settled? ==> Apart(s, Dropped(s, p))
    ensures s.worker.Refused? ==> Apart(s, Postponed(s, p))
  {
    hide Delete, Retry;
  }

  lemma DeliveryMoves(s: System, part: OutboxStep)
    requires OutboxEnabled(s, part)
    ensures AllMoved(s, OutboxApply(s, part))
  {
    var t := OutboxApply(s, part);
    hide AllMoved, Flushed, Dropped, Postponed;
    match part {
      case Flush(c, p) => FlushApart(s, c, p); hide Apart; SameMoves(s, t);
      case DropRecord(p) => WorkerApart(s, p); hide Apart; SameMoves(s, t);
      case PostponeRecord(p) => WorkerApart(s, p); hide Apart; SameMoves(s, t);
      case PickRecord(_) => SameMoves(s, t);
      case CloudAnswers(_) => SameMoves(s, t);
    }
  }

  /** In every step every command stays as it is or takes one transition of its own life. */
  lemma StepMoves(s: System, step: Step)
    requires Shape(s.srv) && WritesFit(s) && Enabled(s, step)
    ensures AllMoved(s, Apply(s, step))
  {
    hide Shape, WritesFit, AllMoved, ProcessEnabled, ProcessApply, WriterEnabled, WriterApply, EndingEnabled;
    hide EndingApply, OutboxEnabled, OutboxApply;
    hide Polled, Acked, Closing, Enumerates;
    match step
    case Tick(_) => SameMoves(s, Apply(s, step));
    case Process(c, act) => ProcessMoves(s, c, act);
    case Poll(d) => PolledMoves(s, d);
    case Serving(id, does) => ServingMoves(s, id, does);
    case Ack(d, localID, returnCode) => AckedMoves(s, PendingKey(d, localID), returnCode);
    case EndingOf(id, ends) => EndingMoves(s, id, ends);
    case Delivery(part) => DeliveryMoves(s, part);
    case CloseServer(out) => ClosingMoves(s, out);
  }
}
