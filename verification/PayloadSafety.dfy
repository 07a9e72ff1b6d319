/** Over every run: a command has one writer, a scanner gets exactly the bytes that were queued, and
    what is over is zeroed. */
module PayloadSafety {
  import opened Identifiers
  import Text
  import opened Claims
  import opened SecretServer
  import opened Lifecycle
  import opened OwnershipInvariant
  import opened OwnershipSteps
  import opened OwnershipTheorems
  import opened CommandLife

  /** The command still needs its bytes: it waits for a scanner, or its terminator has not zeroed it. */
  predicate NeedsPayload(a: Life) {
    a.place.InLine? || a.place.Pending? || (a.term.Some? && !a.term.value.zeroed)
  }

  predicate Coherent(i: nat, a: Life) {
    && (a.place.Absent? ==> a == Life(Absent, None, None, None, None))
    && (!a.place.Absent? ==> a.body.Some? && a.original.Some?)
    && (a.place.InLine? ==> a.term.None? && a.writer.None?)
    && (a.place.Pending? ==> a.term.None? && (a.writer.Some? <==> a.body.value.writerActive))
    && (!a.place.Absent? ==> a.body.value.payload == if NeedsPayload(a) then a.original.value else "")
    && (a.writer.Some? && a.writer.value.Writing? ==>
          NeedsPayload(a) && a.writer.value.sent <= Wire(i, a.original.value))
  }

  predicate SaysTruth(m: Milestone, original: map<nat, string>) {
    m.FullyWritten? ==> m.id in original && m.bytes == Wire(m.id, original[m.id])
  }

  ghost predicate Coherents(s: System) { forall i: nat :: Coherent(i, LifeOf(s, i)) }

  ghost predicate Intact(s: System) {
    && Coherents(s)
    && (forall m | m in s.trail :: SaysTruth(m, s.original))
  }

  // ---------- one command, one step ----------

  lemma MoveKeepsCoherent(i: nat, a: Life, b: Life, now: int, e: Option<Milestone>)
    requires Coherent(i, a) && Moved(i, a, b, now, e)
    ensures Coherent(i, b)
    ensures a.original.Some? ==> b.original == a.original
  {
    hide Wire, Spent, FateOf, SameDeletion, LeaseBoundsWrite;
  }

  lemma MoveTellsTruth(i: nat, a: Life, b: Life, now: int, e: Option<Milestone>)
    requires Coherent(i, a) && Moved(i, a, b, now, e) && e.Some? && e.value.FullyWritten?
    ensures b.original == a.original && a.original.Some? && e == Some(FullyWritten(i, Wire(i, a.original.value)))
  {
    forall x: string, y: string | x <= y && |x| == |y| ensures x == y { assert y[..|x|] == y; }
    hide Wire, Spent, FateOf, SameDeletion, LeaseBoundsWrite;
  }

  lemma CoherentFits(s: System)
    requires Coherents(s)
    ensures WritesFit(s)
  {
    hide Wire, PlaceOf;
    forall i | i in s.writers && s.writers[i].Writing? && i in s.srv.cmds
      ensures s.writers[i].sent <= Wire(i, s.srv.cmds[i].payload) {
      assert Coherent(i, LifeOf(s, i));
    }
  }

  lemma OriginalsStay(s: System, t: System, i: nat)
    requires Coherents(s) && MovedIn(s, t, i)
    ensures Coherent(i, LifeOf(t, i))
    ensures i in s.original ==> i in t.original && t.original[i] == s.original[i]
  {
    assert Coherent(i, LifeOf(s, i));
    MoveKeepsCoherent(i, LifeOf(s, i), LifeOf(t, i), s.now, NewsOf(s, t, i));
    hide Coherent, Moved, PlaceOf, Coherents;
  }

  lemma MovesKeepIntact(s: System, t: System)
    requires Intact(s) && AllMoved(s, t)
    ensures Intact(t)
  {
    hide LifeOf, Coherent, Moved, Wire;
    forall i: nat
      ensures Coherent(i, LifeOf(t, i)) && (i in s.original ==> i in t.original && t.original[i] == s.original[i]) {
      assert MovedIn(s, t, i);
      hide MovedIn;
      OriginalsStay(s, t, i);
    }
    forall m | m in t.trail ensures SaysTruth(m, t.original) {
      if m !in s.trail {
        NewsTellTruth(s, t, m);
      } else {
        assert SaysTruth(m, s.original);
      }
    }
  }

  lemma NewsTellTruth(s: System, t: System, m: Milestone)
    requires Coherents(s) && AllMoved(s, t) && m in t.trail && m !in s.trail
    ensures SaysTruth(m, t.original)
  {
    hide Wire, Moved, Coherent, PlaceOf;
    var i := m.id;
    assert MovedIn(s, t, i) && Coherent(i, LifeOf(s, i));
    assert NewsOf(s, t, i) == Some(m);
    if m.FullyWritten? {
      MoveTellsTruth(i, LifeOf(s, i), LifeOf(t, i), s.now, Some(m));
    }
  }

  // ---------- every run ----------

  lemma InitIsIntact(s: System)
    requires Init(s)
    ensures Intact(s)
  {
    hide Wire;
  }

  lemma StepKeepsIntact(s: System, step: Step)
    requires Safe(s) && Intact(s) && Enabled(s, step)
    ensures Intact(Apply(s, step)) && AllMoved(s, Apply(s, step))
  {
    assert Shape(s.srv);
    CoherentFits(s);
    hide Safe, Shape, Intact, Coherents, Enabled, Apply, AllMoved, WritesFit;
    StepMoves(s, step);
    MovesKeepIntact(s, Apply(s, step));
  }

  lemma {:induction false} RunKeepsIntact(s: System, steps: seq<Step>, t: System)
    requires Safe(s) && Intact(s) && Run(s, steps, t)
    ensures Safe(t) && Intact(t)
    decreases |steps|
  {
    hide Safe, Intact, Apply, Enabled;
    if steps != [] {
      StepKeepsIntact(s, steps[0]);
      StepKeepsSafe(s, steps[0]);
      RunKeepsIntact(Apply(s, steps[0]), steps[1..], t);
    }
  }

  lemma ReachableIsIntact(t: System)
    requires Reachable(t)
    ensures Safe(t) && Intact(t)
  {
    hide Safe, Intact, Init, Run;
    var s, steps :| Init(s) && Run(s, steps, t);
    InitIsSafe(s);
    InitIsIntact(s);
    RunKeepsIntact(s, steps, t);
  }

  // ---------- the theorems ----------

  /** Every completed serve sent exactly the bytes that were queued. */
  lemma ServesSendWhatWasQueued(s: System)
    requires Reachable(s)
    ensures forall m | m in s.trail && m.FullyWritten? ::
      m.id in s.original && m.bytes == "C:" + Text.Decimal(m.id) + ":" + s.original[m.id]
  {
    ReachableIsIntact(s);
    hide Reachable, Safe, Coherents;
    forall m | m in s.trail && m.FullyWritten?
      ensures m.id in s.original && m.bytes == "C:" + Text.Decimal(m.id) + ":" + s.original[m.id] {
      assert SaysTruth(m, s.original);
    }
  }

  /** What was queued under an id never changes, and ids are never used again. */
  lemma QueuedBytesAreFixed(s: System, step: Step)
    requires Reachable(s) && Enabled(s, step)
    ensures forall i | i in s.original :: i in Apply(s, step).original && Apply(s, step).original[i] == s.original[i]
  {
    ReachableIsIntact(s);
    hide Reachable, Safe, Enabled, Apply, MovedIn, Coherents;
    StepKeepsIntact(s, step);
    forall i | i in s.original ensures i in Apply(s, step).original && Apply(s, step).original[i] == s.original[i] {
      OriginalsStay(s, Apply(s, step), i);
    }
  }

  /** While a command waits, or a write of it runs, its payload is what was queued; a command that is
      neither queued nor pending and has no terminator holds nothing. */
  lemma PayloadsAreWholeOrZeroed(s: System, i: nat)
    requires Reachable(s) && i in s.srv.cmds
    ensures i in s.original
    ensures Live(s, i) || (i in s.writers && s.writers[i].Writing?) ==> s.srv.cmds[i].payload == s.original[i]
    ensures !Live(s, i) && i !in s.terms ==> s.srv.cmds[i].payload == ""
  {
    ReachableIsIntact(s);
    hide Reachable, Safe, Coherents, Waiting;
    PayloadOf(s, i);
  }

  lemma PayloadOf(s: System, i: nat)
    requires Coherents(s) && i in s.srv.cmds
    ensures i in s.original
    ensures Live(s, i) || (i in s.writers && s.writers[i].Writing?) ==> s.srv.cmds[i].payload == s.original[i]
    ensures !Live(s, i) && i !in s.terms ==> s.srv.cmds[i].payload == ""
  {
    hide Wire;
    assert Coherent(i, LifeOf(s, i));
    hide InQueue, IsPending;
  }

  /** A pending command has a writer exactly while it is marked so. */
  lemma OneWriterPerCommand(s: System, i: nat)
    requires Reachable(s) && IsPending(s.srv, i)
    ensures s.srv.cmds[i].writerActive <==> i in s.writers
  {
    ReachableIsIntact(s);
    hide Reachable, Safe, Wire;
    assert Coherent(i, LifeOf(s, i));
    hide InQueue;
  }

  lemma CoherentAt(s: System, i: nat)
    requires Coherents(s)
    ensures Coherent(i, LifeOf(s, i))
  {}

  lemma PollFindsFree(s: System, d: string)
    requires Shape(s.srv) && Coherents(s)
    ensures var t := Polled(s, d);
      t.claims == s.claims || (|t.claims| == |s.claims| + 1 && t.claims[|s.claims|].id !in s.writers)
  {
    hide Shape, Wire, Remove, Spent, Coherents;
    if PendingOf(s.srv, d).Some? {
      var id := PendingOf(s.srv, d).value;
      PendingIsLive(s.srv, d);
      CoherentAt(s, id);
      hide InQueue, QueueOf, PendingOf;
    } else if QueueOf(s.srv, d) != [] {
      var id := QueueOf(s.srv, d)[0];
      QueuedIsInLine(s.srv, d, id);
      CoherentAt(s, id);
      hide PlaceOf, PendingOf;
    }
  }

  /** A poll never hands out a command that another request is still serving. */
  lemma PollsShareNoCommand(s: System, d: string)
    requires Reachable(s) && Enabled(s, Poll(d))
    ensures var t := Apply(s, Poll(d));
      t.claims == s.claims || (|t.claims| == |s.claims| + 1 && t.claims[|s.claims|].id !in s.writers)
  {
    ReachableIsIntact(s);
    assert Shape(s.srv);
    hide Reachable, Safe, Shape, Coherents, Polled;
    PollFindsFree(s, d);
  }
}
