/** Over every run: what has to happen, and in which order, before a deletion is reported as applied. */
module DeletionTrail {
  import opened Identifiers
  import opened ResultOutbox
  import opened Claims
  import opened SecretServer
  import opened Lifecycle
  import opened OwnershipInvariant
  import opened OwnershipSteps
  import opened OwnershipTheorems
  import opened CommandLife
  import opened PayloadSafety

  type Trail = seq<Milestone>

  /** The claim is for this very deletion: same attempt, asset and metadata. */
  predicate ForOrder(claim: Deletion, order: Order) {
    claim == Deletion("delete", order.deploymentID, order.commandID, order.attempt, claim.leaseExpiresAt,
                      order.deviceSN, order.personnelID, order.vaultAssetID, order.kind, order.bioType, order.slotIndex)
  }

  /** l is the next milestone of command i after k. */
  ghost predicate Follows(trail: Trail, i: nat, k: nat, l: nat) {
    k < l < |trail| && trail[k].id == i && trail[l].id == i && forall m | k < m < l :: trail[m].id != i
  }

  ghost predicate Latest(trail: Trail, i: nat, k: nat) {
    k < |trail| && trail[k].id == i && forall m | k < m < |trail| :: trail[m].id != i
  }

  /** A recheck matched the order. */
  predicate ClaimedAt(trail: Trail, i: nat, order: Order, k: nat) {
    k < |trail| && trail[k].ClaimMatched? && trail[k].id == i && ForOrder(trail[k].claim, order)
  }

  /** Then the lease of that claim outlasted the write timeout. */
  ghost predicate LeasedAt(trail: Trail, i: nat, order: Order, k: nat) {
    && k < |trail| && trail[k].LeaseHeld? && trail[k].id == i
    && trail[k].lease > trail[k].at + 20_000
    && exists j: nat ::
         Follows(trail, i, j, k) && ClaimedAt(trail, i, order, j) && trail[j].claim.leaseExpiresAt == trail[k].lease
  }

  /** Then the device passed the live compatibility check. */
  ghost predicate MatchedAt(trail: Trail, i: nat, order: Order, k: nat) {
    && k < |trail| && trail[k] == DeviceMatched(i)
    && exists j: nat :: Follows(trail, i, j, k) && LeasedAt(trail, i, order, j)
  }

  /** Then the command was written completely. */
  ghost predicate WrittenAt(trail: Trail, i: nat, order: Order, k: nat) {
    && k < |trail| && trail[k].FullyWritten? && trail[k].id == i
    && exists j: nat :: Follows(trail, i, j, k) && MatchedAt(trail, i, order, j)
  }

  /** And then the device acknowledged it with return code 0. */
  ghost predicate AppliedAt(trail: Trail, i: nat, order: Order, k: nat) {
    && k < |trail| && trail[k] == Acknowledged(i, 0)
    && exists j: nat :: j < k && WrittenAt(trail, i, order, j)
  }

  // ---------- the trail only grows ----------

  lemma FollowsStays(trail: Trail, m: Milestone, i: nat, j: nat, k: nat)
    requires Follows(trail, i, j, k)
    ensures Follows(trail + [m], i, j, k)
  {}

  lemma LeasedStays(trail: Trail, m: Milestone, i: nat, order: Order, k: nat)
    requires LeasedAt(trail, i, order, k)
    ensures LeasedAt(trail + [m], i, order, k)
  {
    var j: nat :| Follows(trail, i, j, k) && ClaimedAt(trail, i, order, j)
      && trail[j].claim.leaseExpiresAt == trail[k].lease;
    FollowsStays(trail, m, i, j, k);
    assert ClaimedAt(trail + [m], i, order, j);
  }

  lemma MatchedStays(trail: Trail, m: Milestone, i: nat, order: Order, k: nat)
    requires MatchedAt(trail, i, order, k)
    ensures MatchedAt(trail + [m], i, order, k)
  {
    var j: nat :| Follows(trail, i, j, k) && LeasedAt(trail, i, order, j);
    FollowsStays(trail, m, i, j, k);
    LeasedStays(trail, m, i, order, j);
  }

  lemma WrittenStays(trail: Trail, m: Milestone, i: nat, order: Order, k: nat)
    requires WrittenAt(trail, i, order, k)
    ensures WrittenAt(trail + [m], i, order, k)
  {
    var j: nat :| Follows(trail, i, j, k) && MatchedAt(trail, i, order, j);
    FollowsStays(trail, m, i, j, k);
    MatchedStays(trail, m, i, order, j);
  }

  lemma AppliedStays(trail: Trail, m: Milestone, i: nat, order: Order, k: nat)
    requires AppliedAt(trail, i, order, k)
    ensures AppliedAt(trail + [m], i, order, k)
  {
    var j: nat :| j < k && WrittenAt(trail, i, order, j);
    WrittenStays(trail, m, i, order, j);
  }

  // ---------- what the phase of a writer says about the trail ----------

  ghost predicate HasClaim(trail: Trail, i: nat, order: Order, lease: int) {
    exists k: nat :: Latest(trail, i, k) && ClaimedAt(trail, i, order, k) && trail[k].claim.leaseExpiresAt == lease
  }

  ghost predicate HasLease(trail: Trail, i: nat, order: Order) {
    exists k: nat :: Latest(trail, i, k) && LeasedAt(trail, i, order, k)
  }

  ghost predicate HasMatch(trail: Trail, i: nat, order: Order) {
    exists k: nat :: Latest(trail, i, k) && MatchedAt(trail, i, order, k)
  }

  ghost predicate HasWrite(trail: Trail, i: nat, order: Order) {
    exists k: nat :: WrittenAt(trail, i, order, k)
  }

  ghost predicate HasSuccess(trail: Trail, i: nat, order: Order) {
    exists k: nat :: AppliedAt(trail, i, order, k)
  }

  ghost predicate WriterVouched(trail: Trail, i: nat, order: Order, w: Writer) {
    match w
    case Leased(lease) => HasClaim(trail, i, order, lease)
    case Rechecked(_) => HasLease(trail, i, order)
    case Ready => HasMatch(trail, i, order)
    case Writing(_) => HasMatch(trail, i, order)
    case _ => true
  }

  /** The invariant of one deletion. */
  ghost predicate Vouched(trail: Trail, i: nat, a: Life) {
    a.body.Some? && a.body.value.order.operation == "delete" ==>
      var order := a.body.value.order;
      && (a.place.Pending? && a.writer.Some? ==> WriterVouched(trail, i, order, a.writer.value))
      && (a.body.value.served ==> HasWrite(trail, i, order))
      && (a.term.Some? && FateOf(a.term.value.ending).Applied? ==> HasSuccess(trail, i, order))
  }

  lemma OthersStay(trail: Trail, m: Milestone, i: nat, order: Order)
    requires m.id != i
    ensures forall lease | HasClaim(trail, i, order, lease) :: HasClaim(trail + [m], i, order, lease)
    ensures HasLease(trail, i, order) ==> HasLease(trail + [m], i, order)
    ensures HasMatch(trail, i, order) ==> HasMatch(trail + [m], i, order)
  {
    forall lease | HasClaim(trail, i, order, lease) ensures HasClaim(trail + [m], i, order, lease) {
      var k: nat :| Latest(trail, i, k) && ClaimedAt(trail, i, order, k) && trail[k].claim.leaseExpiresAt == lease;
      assert Latest(trail + [m], i, k) && ClaimedAt(trail + [m], i, order, k);
    }
    if HasLease(trail, i, order) {
      var k: nat :| Latest(trail, i, k) && LeasedAt(trail, i, order, k);
      LeasedStays(trail, m, i, order, k);
      assert Latest(trail + [m], i, k);
    }
    if HasMatch(trail, i, order) {
      var k: nat :| Latest(trail, i, k) && MatchedAt(trail, i, order, k);
      MatchedStays(trail, m, i, order, k);
      assert Latest(trail + [m], i, k);
    }
  }

  lemma DoneStays(trail: Trail, m: Milestone, i: nat, order: Order)
    ensures HasWrite(trail, i, order) ==> HasWrite(trail + [m], i, order)
    ensures HasSuccess(trail, i, order) ==> HasSuccess(trail + [m], i, order)
  {
    if HasWrite(trail, i, order) {
      var k: nat :| WrittenAt(trail, i, order, k);
      WrittenStays(trail, m, i, order, k);
    }
    if HasSuccess(trail, i, order) {
      var k: nat :| AppliedAt(trail, i, order, k);
      AppliedStays(trail, m, i, order, k);
    }
  }

  lemma LatestFollows(trail: Trail, m: Milestone, i: nat, k: nat)
    requires Latest(trail, i, k) && m.id == i
    ensures Follows(trail + [m], i, k, |trail|) && Latest(trail + [m], i, |trail|)
  {}

  lemma ClaimVouches(trail: Trail, claim: Deletion, i: nat, order: Order)
    requires ForOrder(claim, order)
    ensures HasClaim(trail + [ClaimMatched(i, claim)], i, order, claim.leaseExpiresAt)
  {
    var after := trail + [ClaimMatched(i, claim)];
    assert Latest(after, i, |trail|) && ClaimedAt(after, i, order, |trail|)
      && after[|trail|].claim.leaseExpiresAt == claim.leaseExpiresAt;
  }

  lemma LeaseVouches(trail: Trail, i: nat, order: Order, lease: int, at: int)
    requires HasClaim(trail, i, order, lease) && LeaseBoundsWrite(lease, at)
    ensures HasLease(trail + [LeaseHeld(i, lease, at)], i, order)
  {
    var after := trail + [LeaseHeld(i, lease, at)];
    var k: nat :| Latest(trail, i, k) && ClaimedAt(trail, i, order, k) && trail[k].claim.leaseExpiresAt == lease;
    LatestFollows(trail, LeaseHeld(i, lease, at), i, k);
    assert ClaimedAt(after, i, order, k) && after[k].claim.leaseExpiresAt == lease;
    assert LeasedAt(after, i, order, |trail|);
  }

  lemma MatchVouches(trail: Trail, i: nat, order: Order)
    requires HasLease(trail, i, order)
    ensures HasMatch(trail + [DeviceMatched(i)], i, order)
  {
    var after := trail + [DeviceMatched(i)];
    var k: nat :| Latest(trail, i, k) && LeasedAt(trail, i, order, k);
    LatestFollows(trail, DeviceMatched(i), i, k);
    LeasedStays(trail, DeviceMatched(i), i, order, k);
    assert MatchedAt(after, i, order, |trail|);
  }

  lemma WriteVouches(trail: Trail, i: nat, order: Order, bytes: string)
    requires HasMatch(trail, i, order)
    ensures HasWrite(trail + [FullyWritten(i, bytes)], i, order)
  {
    var m := FullyWritten(i, bytes);
    var k: nat :| Latest(trail, i, k) && MatchedAt(trail, i, order, k);
    LatestFollows(trail, m, i, k);
    MatchedStays(trail, m, i, order, k);
    assert WrittenAt(trail + [m], i, order, |trail|);
  }

  lemma SuccessVouches(trail: Trail, i: nat, order: Order)
    requires HasWrite(trail, i, order)
    ensures HasSuccess(trail + [Acknowledged(i, 0)], i, order)
  {
    var k: nat :| WrittenAt(trail, i, order, k);
    WrittenStays(trail, Acknowledged(i, 0), i, order, k);
    assert AppliedAt(trail + [Acknowledged(i, 0)], i, order, |trail|);
  }

  // ---------- one step of one deletion ----------

  lemma SameOrder(i: nat, a: Life, b: Life, now: int, e: Option<Milestone>)
    requires Moved(i, a, b, now, e) && a.body.Some?
    requires Coherent(i, a)
    ensures b.body.Some? && b.body.value.order == a.body.value.order
  {
    hide Wire, Spent, FateOf, SameDeletion, LeaseBoundsWrite;
  }

  /** Nothing is added to the trail, or a milestone of another command. */
  lemma QuietMoveVouched(trail: Trail, i: nat, a: Life, b: Life, now: int)
    requires Coherent(i, a) && Moved(i, a, b, now, None) && Vouched(trail, i, a)
    ensures Vouched(trail, i, b)
  {
    hide Wire, Spent, SameDeletion, LeaseBoundsWrite, HasClaim, HasLease, HasMatch, HasWrite, HasSuccess;
  }

  lemma OtherNewsVouched(trail: Trail, m: Milestone, i: nat, a: Life)
    requires Vouched(trail, i, a) && m.id != i
    ensures Vouched(trail + [m], i, a)
  {
    hide HasClaim, HasLease, HasMatch, HasWrite, HasSuccess;
    if a.body.Some? {
      OthersStay(trail, m, i, a.body.value.order);
      DoneStays(trail, m, i, a.body.value.order);
    }
  }

  lemma NewsVouched(trail: Trail, m: Milestone, i: nat, a: Life, b: Life, now: int)
    requires Coherent(i, a) && Moved(i, a, b, now, Some(m)) && m.id == i && Vouched(trail, i, a)
    ensures Vouched(trail + [m], i, b)
  {
    hide Wire, Spent, HasClaim, HasLease, HasMatch, HasWrite, HasSuccess;
    if a.body.Some? && a.body.value.order.operation == "delete" {
      var order := a.body.value.order;
      DoneStays(trail, m, i, order);
      match m
      case ClaimMatched(_, claim) =>
        assert SameDeletion(a.body.value.Expected(), claim);
        ClaimVouches(trail, claim, i, order);
      case LeaseHeld(_, lease, at) => if HasClaim(trail, i, order, lease) { LeaseVouches(trail, i, order, lease, at); }
      case DeviceMatched(_) => if HasLease(trail, i, order) { MatchVouches(trail, i, order); }
      case FullyWritten(_, bytes) => if HasMatch(trail, i, order) { WriteVouches(trail, i, order, bytes); }
      case Acknowledged(_, code) => if HasWrite(trail, i, order) { SuccessVouches(trail, i, order); }
    }
  }

  // ---------- every deletion, every step ----------

  ghost predicate Vouches(s: System) { forall i: nat :: Vouched(s.trail, i, LifeOf(s, i)) }

  lemma OneVouched(s: System, t: System, i: nat)
    requires Coherent(i, LifeOf(s, i)) && Vouched(s.trail, i, LifeOf(s, i)) && TrailGrows(s, t) && MovedIn(s, t, i)
    ensures Vouched(t.trail, i, LifeOf(t, i))
  {
    var a, b := LifeOf(s, i), LifeOf(t, i);
    hide Coherent, Moved, Vouched, LifeOf;
    if t.trail == s.trail {
      QuietMoveVouched(s.trail, i, a, b, s.now);
    } else {
      var m := t.trail[|s.trail|];
      if m.id == i {
        NewsVouched(s.trail, m, i, a, b, s.now);
      } else {
        QuietMoveVouched(s.trail, i, a, b, s.now);
        OtherNewsVouched(s.trail, m, i, b);
      }
    }
  }

  lemma MovesKeepVouches(s: System, t: System)
    requires Coherents(s) && Vouches(s) && AllMoved(s, t)
    ensures Vouches(t)
  {
    hide LifeOf, Coherent, Moved, Vouched, TrailGrows;
    forall i: nat ensures Vouched(t.trail, i, LifeOf(t, i)) {
      assert MovedIn(s, t, i);
      hide MovedIn;
      OneVouched(s, t, i);
    }
  }

  /** A command that leaves in a step has a terminator after it that says how. */
  ghost predicate ExitsFollowTerms(s: System, t: System) {
    forall e | e in t.exits :: e in s.exits || (e.id in t.terms && FateOf(t.terms[e.id].ending) == e.fate)
  }

  lemma LeaveFollows(s: System, out: seq<nat>, ending: Ending)
    ensures ExitsFollowTerms(s, Leave(s, out, ending))
  {
    hide FateOf, Remove;
  }

  lemma ExitsStay(s: System, t: System)
    requires t.exits == s.exits
    ensures ExitsFollowTerms(s, t)
  {}

  lemma FollowsOn(s: System, t: System, u: System)
    requires ExitsFollowTerms(s, t) && u.exits == t.exits && u.terms == t.terms
    ensures ExitsFollowTerms(s, u)
  {
    hide FateOf;
  }

  lemma FailFollows(s: System, id: nat, code: string)
    requires id in s.srv.cmds
    ensures ExitsFollowTerms(s, FailServed(s, id, code)) && ExitsFollowTerms(s, EndWriter(FailServed(s, id, code), id))
    ensures ExitsFollowTerms(s, DiscardServed(s, id)) && ExitsFollowTerms(s, EndWriter(DiscardServed(s, id), id))
  {
    ExitsStay(s, s);
    LeaveFollows(s, [id], Report(s.srv.cmds[id].order.Reported("failed", code, -1)));
    LeaveFollows(s, [id], Discard);
    hide Leave, IsPending, ExitsFollowTerms;
    FollowsOn(s, FailServed(s, id, code), EndWriter(FailServed(s, id, code), id));
    FollowsOn(s, DiscardServed(s, id), EndWriter(DiscardServed(s, id), id));
  }

  lemma DeviceFollows(s: System, id: nat, does: WriterStep)
    requires WriterEnabled(s, id, does) && (does.CheckDevice? || does.RecheckDevice? || does.BreakWrite?)
    ensures ExitsFollowTerms(s, WriterApply(s, id, does))
  {
    var t := WriterApply(s, id, does);
    hide ValidErrorCode, ReleaseWriter, FailServed, ExitsFollowTerms;
    FailFollows(s, id, if does.BreakWrite? then "network_unavailable" else does.code);
    if t.exits == s.exits { ExitsStay(s, t); }
  }

  lemma RecheckFollows(s: System, id: nat, answer: RecheckAnswer)
    requires id in s.srv.cmds
    ensures ExitsFollowTerms(s, Recheck(s, id, answer))
  {
    var t := Recheck(s, id, answer);
    hide RecheckCode, ReleaseWriter, DiscardServed, EndWriter, ExitsFollowTerms;
    FailFollows(s, id, "");
    WriterEndSame(s.(srv := ReleaseWriter(s.srv, id)), id);
    if t.exits == s.exits { ExitsStay(s, t); }
  }

  lemma WriterEndSame(s: System, id: nat)
    ensures EndWriter(s, id).exits == s.exits
  {}

  lemma ServeSameExits(s: System, id: nat, does: WriterStep)
    requires WriterEnabled(s, id, does) && (does.CheckLease? || does.StartWrite?)
    ensures WriterApply(s, id, does).exits == s.exits
  {
    WriterEndSame(s.(srv := ReleaseWriter(s.srv, id)), id);
    hide ReleaseWriter, LeaseBoundsWrite, BeginWrite;
  }

  lemma WriterFollows(s: System, id: nat, does: WriterStep)
    requires WriterEnabled(s, id, does)
    ensures ExitsFollowTerms(s, WriterApply(s, id, does))
  {
    var t := WriterApply(s, id, does);
    hide Wire, ExitsFollowTerms, Checked, Recompat, Broken, Recheck, Lease, Begin, MarkServed;
    match does {
      case CheckDevice(_) => DeviceFollows(s, id, does);
      case RecheckDevice(_) => DeviceFollows(s, id, does);
      case BreakWrite(_) => DeviceFollows(s, id, does);
      case RecheckClaim(answer) => RecheckFollows(s, id, answer);
      case CheckLease => ServeSameExits(s, id, does); ExitsStay(s, t);
      case StartWrite => ServeSameExits(s, id, does); ExitsStay(s, t);
      case WriteSome(_) => ExitsStay(s, t);
      case FinishWrite => ExitsStay(s, t);
    }
  }

  lemma PollFollows(s: System, d: string)
    requires Shape(s.srv)
    ensures ExitsFollowTerms(s, Polled(s, d))
  {
    var t := Polled(s, d);
    hide Shape, PendingOf, QueueOf, Spent, Leave, ExitsFollowTerms;
    match ClaimWriter(s.srv, d, s.now).1
    case Exhausted(id) => LeaveFollows(s, [id], Report(NetworkFailure(s, id)));
    case _ => ExitsStay(s, t);
  }

  lemma AckFollows(s: System, key: PendingKey, code: int)
    ensures ExitsFollowTerms(s, Acked(s, key, code))
  {
    assert Completion(s.srv, key, code).Some? ==> key in s.srv.pending && s.srv.pending[key] in s.srv.cmds;
    hide Completion, Leave, ExitsFollowTerms;
    match Completion(s.srv, key, code)
    case None => ExitsStay(s, s);
    case Some(result) =>
      LeaveFollows(s, [s.srv.pending[key]], Report(result));
      FollowsOn(s, Leave(s, [s.srv.pending[key]], Report(result)), Acked(s, key, code));
  }

  lemma EndedSameExits(s: System, id: nat, p: Persist)
    requires EndingEnabled(s, id, EndCommand(p))
    ensures Ended(s, id, p).exits == s.exits
  {
    hide EnqueueResult;
  }

  lemma EndingFollows(s: System, id: nat, ends: EndingStep)
    requires EndingEnabled(s, id, ends)
    ensures ExitsFollowTerms(s, EndingApply(s, id, ends))
  {
    hide ExitsFollowTerms, FailServed, Leave, InQueue, ZeroPayload, Ended;
    match ends
    case PreServeTimer => LeaveFollows(s, [id], Discard); ExitsStay(s, s);
    case DeadlineTimer => FailFollows(s, id, "network_unavailable");
    case Zero => ExitsStay(s, Zeroed(s, id));
    case EndCommand(p) => EndedSameExits(s, id, p); ExitsStay(s, Ended(s, id, p));
  }

  lemma ProcessFollows(s: System, c: string, act: ProcessStep)
    requires ProcessEnabled(s, c, act)
    ensures ExitsFollowTerms(s, ProcessApply(s, c, act))
  {
    var t := ProcessApply(s, c, act);
    hide ExitsFollowTerms, Enumerates, EnqueueResult, EnqueueCommand, Reserve, Leave, ValidClaim, OrderOf;
    hide ValidErrorCode;
    match act
    case SupersedeOthers(out) =>
      LeaveFollows(s, out, Discard);
      FollowsOn(s, Leave(s, out, Discard), t);
    case _ => ExitsStay(s, t);
  }

  lemma StepFollows(s: System, step: Step)
    requires Enabled(s, step)
    ensures ExitsFollowTerms(s, Apply(s, step))
  {
    var t := Apply(s, step);
    hide ProcessEnabled, ProcessApply, WriterEnabled, WriterApply, EndingEnabled, EndingApply, OutboxEnabled, Shape;
    hide Polled, Acked, Enumerates, Shutdown;
    hide ExitsFollowTerms, Leave;
    match step
    case Process(c, act) => ProcessFollows(s, c, act);
    case Poll(d) => PollFollows(s, d);
    case Serving(id, does) => WriterFollows(s, id, does);
    case Ack(d, localID, code) => AckFollows(s, PendingKey(d, localID), code);
    case EndingOf(id, ends) => EndingFollows(s, id, ends);
    case CloseServer(out) =>
      LeaveFollows(s, out, Drop);
      FollowsOn(s, Leave(s, out, Drop), t);
    case _ => hide Enqueue, Delete, Retry; ExitsStay(s, t);
  }

  predicate AppliedDeletion(s: System, e: Exit) {
    e.fate.Applied? && e.id in s.srv.cmds && s.srv.cmds[e.id].order.operation == "delete"
  }

  ghost predicate ExitsVouched(s: System) {
    forall e | e in s.exits ::
      e.id in s.srv.cmds && (AppliedDeletion(s, e) ==> HasSuccess(s.trail, e.id, s.srv.cmds[e.id].order))
  }

  lemma OrdersStay(s: System, t: System, i: nat)
    requires Coherents(s) && AllMoved(s, t) && i in s.srv.cmds
    ensures i in t.srv.cmds && t.srv.cmds[i].order == s.srv.cmds[i].order
  {
    assert MovedIn(s, t, i) && Coherent(i, LifeOf(s, i));
    hide Coherent, Moved, PlaceOf, TrailGrows;
    SameOrder(i, LifeOf(s, i), LifeOf(t, i), s.now, NewsOf(s, t, i));
  }

  lemma SuccessStays(s: System, t: System, i: nat, order: Order)
    requires TrailGrows(s, t) && HasSuccess(s.trail, i, order)
    ensures HasSuccess(t.trail, i, order)
  {
    if t.trail != s.trail { DoneStays(s.trail, t.trail[|s.trail|], i, order); }
  }

  lemma MovesKeepExits(s: System, t: System)
    requires Coherents(s) && ExitsVouched(s) && AllMoved(s, t) && ExitsFollowTerms(s, t) && Vouches(t) && TermsApart(t)
    ensures ExitsVouched(t)
  {
    forall e | e in t.exits
      ensures e.id in t.srv.cmds && (AppliedDeletion(t, e) ==> HasSuccess(t.trail, e.id, t.srv.cmds[e.id].order)) {
      assert TrailGrows(s, t);
      if e in s.exits {
        OrdersStay(s, t, e.id);
        hide Coherents, AllMoved, Vouches, HasSuccess, TrailGrows, ExitsFollowTerms, TermsApart;
        if AppliedDeletion(t, e) { SuccessStays(s, t, e.id, t.srv.cmds[e.id].order); }
      } else {
        assert Vouched(t.trail, e.id, LifeOf(t, e.id));
        hide Coherents, AllMoved, Vouches, HasSuccess, TrailGrows, ExitsVouched, PlaceOf, WriterVouched, HasWrite, Live;
      }
    }
  }

  ghost predicate Earned(s: System) { Vouches(s) && ExitsVouched(s) }

  lemma StepKeepsEarned(s: System, step: Step)
    requires Safe(s) && Intact(s) && Earned(s) && Enabled(s, step)
    ensures Earned(Apply(s, step)) && Safe(Apply(s, step)) && Intact(Apply(s, step))
  {
    var t := Apply(s, step);
    StepKeepsSafe(s, step);
    assert TermsApart(t);
    hide Safe, Apply, Enabled, AllMoved, TermsApart, ExitsFollowTerms, Coherents, Vouches, ExitsVouched;
    StepKeepsIntact(s, step);
    StepFollows(s, step);
    MovesKeepVouches(s, t);
    MovesKeepExits(s, t);
  }

  lemma {:induction false} RunKeepsEarned(s: System, steps: seq<Step>, t: System)
    requires Safe(s) && Intact(s) && Earned(s) && Run(s, steps, t)
    ensures Earned(t)
    decreases |steps|
  {
    hide Safe, Intact, Earned, Apply, Enabled;
    if steps != [] {
      StepKeepsEarned(s, steps[0]);
      RunKeepsEarned(Apply(s, steps[0]), steps[1..], t);
    }
  }

  lemma InitIsEarned(s: System)
    requires Init(s)
    ensures Earned(s)
  {
    hide Reopens;
  }

  // ---------- the theorem ----------

  /** A deletion leaves as applied only after, in this order and with no other check or write of it in
      between: a recheck that matched its attempt, asset and metadata; a lease of that claim beyond the
      write timeout; a passing compatibility check; a complete write; and later an acknowledgement with
      return code 0. */
  lemma AppliedDeletionsWereEarned(s: System, e: Exit)
    requires Reachable(s) && e in s.exits && AppliedDeletion(s, e)
    ensures exists k: nat :: AppliedAt(s.trail, e.id, s.srv.cmds[e.id].order, k)
  {
    hide Safe, Intact, Init, Run, Earned;
    assert Earned(s) by {
      var first, steps :| Init(first) && Run(first, steps, s);
      InitIsSafe(first);
      InitIsIntact(first);
      InitIsEarned(first);
      RunKeepsEarned(first, steps, s);
    }
    EarnedExit(s, e);
  }

  lemma EarnedExit(s: System, e: Exit)
    requires Earned(s) && e in s.exits && AppliedDeletion(s, e)
    ensures exists k: nat :: AppliedAt(s.trail, e.id, s.srv.cmds[e.id].order, k)
  {
    hide Vouches, AppliedAt;
  }
}
