/** Each step keeps every reserved id with one owner that has a slot in the outbox. */
module OwnershipSteps {
  import opened Identifiers
  import opened ResultOutbox
  import opened Claims
  import opened SecretServer
  import opened Lifecycle
  import opened OwnershipInvariant
  import opened Sets

  /** A step that moves one id and leaves commands and terminators of other ids alone. */
  ghost predicate MovesID(s: System, t: System, c: string) {
    && t.srv == s.srv.(ids := t.srv.ids, awaiting := t.srv.awaiting, store := t.srv.store)
    && t.srv.ids == (if t.srv.closed then {} else t.owner.Keys)
    && t.now == s.now
    && t.owner - {c} == s.owner - {c}
    && t.srv.awaiting - {c} == s.srv.awaiting - {c}
    && (forall i | i in t.terms :: i in s.terms && t.terms[i] == s.terms[i])
    && (forall i | i in s.terms && i !in t.terms && i in s.srv.cmds :: s.srv.cmds[i].order.commandID == c)
  }

  lemma SameQueues(srv: Srv, after: Srv)
    requires Shape(srv)
    requires after.queue == srv.queue && after.pending == srv.pending && after.cmds == srv.cmds
      && after.cmdID == srv.cmdID
    ensures Shape(after)
    ensures forall i :: InQueue(after, i) <==> InQueue(srv, i)
    ensures forall i :: IsPending(after, i) <==> IsPending(srv, i)
  {
    hide Ascending, AllFor, OlderThanAll;
    forall k | k in after.pending ensures Matches(after, k) { assert Matches(srv, k); }
  }

  lemma MovedHolders(s: System, t: System, c: string)
    requires TermsApart(s) && Shape(s.srv) && MovesID(s, t, c)
    ensures Shape(t.srv) && TermsApart(t)
    ensures forall i | i in s.srv.cmds && s.srv.cmds[i].order.commandID != c :: Held(t, i) <==> Held(s, i)
    ensures forall i | Held(t, i) :: Held(s, i)
  {
    SameQueues(s.srv, t.srv);
    hide InQueue, IsPending, Shape;
  }

  lemma MovedOwners(s: System, t: System, c: string)
    requires Owners(s) && MovesID(s, t, c) && OwnedRight(t, c)
    ensures Owners(t)
  {
    MovedHolders(s, t, c);
    hide InQueue, IsPending, Shape, ValidUUID, Held, Waiting, OwnedRight;
    assert ChangesOwner(s, t, c);
    ChangedOwnerKeeps(s, t, c);
  }

  /** What Sound asks about one id. */
  ghost predicate SoundID(s: System, c: string) {
    && (c in s.srv.awaiting ==>
          && ValidUUID(s.srv.awaiting[c].deploymentID) && ValidResult(s.srv.awaiting[c].result)
          && s.srv.awaiting[c].result.commandID == c)
    && (c in s.owner && s.owner[c].Processing? && HasOrder(s.owner[c].stage) ==>
          Reportable(s.owner[c].stage.order) && s.owner[c].stage.order.commandID == c)
  }

  lemma MovedSound(s: System, t: System, c: string)
    requires Sound(s) && MovesID(s, t, c) && SoundID(t, c)
    ensures Sound(t)
  {
    SameElsewhere(t.owner, s.owner, c);
    SameElsewhere(t.srv.awaiting, s.srv.awaiting, c);
    hide Reportable, ValidResult, ValidUUID;
  }

  // ---------- reserving and releasing ----------

  lemma FreshIsUnheld(s: System, c: string)
    requires Owners(s) && c !in s.owner
    ensures forall i | i in s.srv.cmds && s.srv.cmds[i].order.commandID == c :: !Held(s, i)
    ensures c !in s.srv.awaiting
  {
    hide Held, Shape, ValidUUID;
  }

  /** What a successful reservation has checked. */
  lemma ReserveGrants(srv: Srv, c: string)
    requires Reserve(srv, c).1
    ensures Reserve(srv, c).0 == srv.(ids := srv.ids + {c})
    ensures !srv.closed && c !in srv.ids && ValidUUID(c)
    ensures |srv.ids| < MAX_COMMANDS && |srv.store.records| + |srv.ids| < MAX_RECORDS
    ensures NoRecord(srv.store.records, c)
  {
    hide ValidUUID;
  }

  lemma ReservedMoves(s: System, c: string)
    requires Owners(s) && Reserve(s.srv, c).1
    ensures c !in s.owner && MovesID(s, Reserved(s, c), c) && OwnedRight(Reserved(s, c), c)
  {
    ReserveGrants(s.srv, c);
    hide Reserve, Held, Waiting, Shape, ValidUUID;
    var t := Reserved(s, c);
    assert t.owner.Keys == s.owner.Keys + {c};
    assert MovesID(s, t, c);
    assert t.owner == s.owner[c := Processing(Started)] && t.srv.awaiting == s.srv.awaiting && t.srv.cmds == s.srv.cmds;
    assert Shape(s.srv) && TermsApart(s);
    hide Reserved, MovesID, TermsApart;
    FreshIsUnheld(s, c);
    hide Owners;
    MovedHolders(s, t, c);
  }

  lemma ReservedRoomy(s: System, c: string)
    requires Roomy(s) && !s.srv.closed && s.srv.ids == s.owner.Keys && Reserve(s.srv, c).1
    ensures Roomy(Reserved(s, c))
  {
    ReserveGrants(s.srv, c);
    hide Reserve;
    assert Reserved(s, c).owner.Keys == s.owner.Keys + {c};
  }

  lemma ReservedKeeps(s: System, c: string)
    requires Safe(s)
    ensures Safe(Reserved(s, c))
  {
    if Reserve(s.srv, c).1 {
      ReserveGrants(s.srv, c);
      ReservedMoves(s, c);
      MovedOwners(s, Reserved(s, c), c);
      hide Reserve;
      MovedSound(s, Reserved(s, c), c);
      ReservedRoomy(s, c);
    }
  }

  lemma StageMoves(s: System, c: string, stage: Stage)
    requires Owners(s) && InStage(s, c)
    ensures MovesID(s, SetStage(s, c, stage), c) && OwnedRight(SetStage(s, c, stage), c)
  {
    hide Held, Waiting, Shape, ValidUUID;
    var t := SetStage(s, c, stage);
    assert t.owner.Keys == s.owner.Keys;
    assert MovesID(s, t, c);
    MovedHolders(s, t, c);
  }

  lemma SameRoom(s: System, t: System)
    requires Roomy(s) && t.owner.Keys == s.owner.Keys && StoreKept(t.srv.store)
    requires |t.srv.store.records| <= |s.srv.store.records|
    requires forall c | NoRecord(s.srv.store.records, c) :: NoRecord(t.srv.store.records, c)
    ensures Roomy(t)
  {
    hide StoreKept, NoRecord;
    assert forall c :: c in t.owner <==> c in s.owner.Keys;
    assert |t.owner| == |t.owner.Keys| && |s.owner| == |s.owner.Keys|;
  }

  lemma StageKeeps(s: System, c: string, stage: Stage)
    requires Safe(s) && InStage(s, c)
    requires HasOrder(stage) ==> Reportable(stage.order) && stage.order.commandID == c
    ensures Safe(SetStage(s, c, stage))
  {
    var t := SetStage(s, c, stage);
    StageMoves(s, c, stage);
    MovedOwners(s, t, c);
    MovedSound(s, t, c);
    assert t.owner.Keys == s.owner.Keys;
    hide Owners, Sound, NoRecord, StoreKept;
    SameRoom(s, t);
  }

  lemma {:induction false} ClaimIsReportable(claim: CloudClaim, c: string, now: int)
    requires ValidClaim(claim, c, now)
    ensures Reportable(OrderOf(claim)) && OrderOf(claim).commandID == c
  {
    hide ValidUUID, ValidIdentifier, ValidDigest;
  }

  /** An owner gives its id up; nothing else refers to it any more. */
  ghost predicate GivesUp(s: System, t: System, c: string) {
    && c in s.owner
    && t.owner == s.owner - {c}
    && MovesID(s, t, c)
    && c !in t.srv.awaiting
    && (forall i | i in s.srv.cmds && s.srv.cmds[i].order.commandID == c :: !Held(t, i))
  }

  lemma GivenUpKeeps(s: System, t: System, c: string)
    requires Owners(s) && Sound(s) && GivesUp(s, t, c)
    ensures Owners(t) && Sound(t)
  {
    hide Held, Waiting, Shape, ValidUUID;
    assert OwnedRight(t, c);
    assert SoundID(t, c);
    MovedOwners(s, t, c);
    MovedSound(s, t, c);
  }

  lemma GivenUpRoom(s: System, t: System, c: string)
    requires Roomy(s) && c in s.owner && t.owner == s.owner - {c} && StoreKept(t.srv.store)
    requires |t.srv.store.records| <= |s.srv.store.records| + 1
    requires forall e | e in t.owner && NoRecord(s.srv.store.records, e) :: NoRecord(t.srv.store.records, e)
    ensures Roomy(t)
  {
    assert t.owner.Keys == s.owner.Keys - {c};
    hide StoreKept, NoRecord;
  }

  lemma ReleaseGivesUp(s: System, c: string)
    requires Owners(s) && InStage(s, c)
    ensures GivesUp(s, Released(s, c), c)
  {
    hide Waiting, Shape, ValidUUID, Held;
    var t := Released(s, c);
    assert t.owner.Keys == s.owner.Keys - {c};
    assert MovesID(s, t, c);
    MovedHolders(s, t, c);
  }

  lemma ReleaseKeeps(s: System, c: string)
    requires Safe(s) && InStage(s, c)
    ensures Safe(Released(s, c))
  {
    ReleaseGivesUp(s, c);
    GivenUpKeeps(s, Released(s, c), c);
    hide Owners, Sound;
    GivenUpRoom(s, Released(s, c), c);
  }

  // ---------- results on their way to the outbox ----------

  /** u is s, perhaps without the terminator that reports c; nothing else holds c. */
  ghost predicate Reports(s: System, u: System, c: string) {
    && u == s.(terms := u.terms)
    && c in s.owner && !s.owner[c].Owing?
    && (forall i | i in u.terms :: i in s.terms && u.terms[i] == s.terms[i])
    && (forall i | i in s.terms && i !in u.terms && i in s.srv.cmds :: s.srv.cmds[i].order.commandID == c)
    && (forall i | i in s.srv.cmds && s.srv.cmds[i].order.commandID == c :: !Held(u, i))
  }

  /** The two ends of handing a result to the outbox: it is stored, or it waits for the next flush. */
  lemma SendOutcome(s: System, u: System, origin: Option<nat>, dep: string, result: Result, p: Persist)
    requires Owners(s) && Roomy(s) && Reports(s, u, result.commandID)
    requires ValidUUID(dep) && ValidResult(result)
    ensures var t := SendResult(u, origin, dep, result, p);
      var c := result.commandID;
      && StoreKept(t.srv.store)
      && (if p.Persisted? then
            && t == CommitTo(u, t.srv, origin, dep, result)
            && t.srv == s.srv.(ids := s.srv.ids - {c}, awaiting := s.srv.awaiting - {c}, store := t.srv.store)
            && t.srv.store.records == s.srv.store.records + [Record(dep, result, 0, s.now)]
          else
            && t == u.(srv := t.srv, owner := s.owner[c := Owing(origin)])
            && t.srv == s.srv.(awaiting := s.srv.awaiting[c := AwaitingResult(dep, result)], store := t.srv.store)
            && t.srv.store.records == s.srv.store.records)
  {
    assert result.commandID !in s.srv.awaiting;
    assert |s.srv.store.records| < MAX_RECORDS by {
      assert |s.owner.Keys| > 0;
    }
    EnqueueFits(s.srv.store, dep, result, s.now, p);
    hide Owners, Enqueue, StoreKept, NoRecord;
    assert ValidUUID(result.commandID) && ValidIdentifier(result.deviceSN);
    hide ValidUUID, ValidIdentifier, ValidResult;
  }

  /** Holding a command does not depend on ids, awaiting results or the store. */
  lemma StoreApart(s: System, t: System)
    requires t.terms == s.terms && t.srv.cmds == s.srv.cmds && t.srv.queue == s.srv.queue
      && t.srv.pending == s.srv.pending
    ensures forall i :: Held(t, i) <==> Held(s, i)
  {
    assert forall i :: InQueue(t.srv, i) <==> InQueue(s.srv, i);
    assert forall i :: IsPending(t.srv, i) <==> IsPending(s.srv, i);
    hide InQueue, IsPending;
  }

  lemma SendGivesUp(s: System, u: System, t: System, c: string)
    requires Owners(s) && Reports(s, u, c)
    requires t.srv == s.srv.(ids := s.srv.ids - {c}, awaiting := s.srv.awaiting - {c}, store := t.srv.store)
    requires t.terms == u.terms && t.now == s.now && t.owner == s.owner - {c}
    ensures GivesUp(s, t, c)
  {
    StoreApart(u, t);
    hide Held, Waiting, Shape, ValidUUID;
    assert t.owner.Keys == s.owner.Keys - {c};
    assert MovesID(s, t, c);
  }

  lemma SendStored(s: System, u: System, origin: Option<nat>, dep: string, result: Result, p: Persist)
    requires Safe(s) && Reports(s, u, result.commandID) && p.Persisted?
    requires ValidUUID(dep) && ValidResult(result)
    ensures Safe(SendResult(u, origin, dep, result, p))
  {
    var t := SendResult(u, origin, dep, result, p);
    SendOutcome(s, u, origin, dep, result, p);
    hide SendResult, ValidUUID, ValidResult;
    SendGivesUp(s, u, t, result.commandID);
    GivenUpKeeps(s, t, result.commandID);
    hide Owners, Sound, StoreKept;
    GivenUpRoom(s, t, result.commandID);
  }

  lemma SendMoves(s: System, u: System, t: System, origin: Option<nat>, waiting: AwaitingResult, c: string)
    requires Owners(s) && Reports(s, u, c)
    requires t.srv == s.srv.(awaiting := s.srv.awaiting[c := waiting], store := t.srv.store)
    requires t.terms == u.terms && t.now == s.now && t.owner == s.owner[c := Owing(origin)]
    ensures MovesID(s, t, c) && OwnedRight(t, c)
  {
    assert MovesID(s, t, c) by {
      hide Held, Waiting, Shape, ValidUUID;
      assert t.owner.Keys == s.owner.Keys;
    }
    StoreApart(u, t);
    hide Held, Waiting, Shape, ValidUUID, MovesID;
  }

  lemma SendWaits(s: System, u: System, origin: Option<nat>, dep: string, result: Result, p: Persist)
    requires Owners(s) && Sound(s) && Roomy(s) && Reports(s, u, result.commandID) && !p.Persisted?
    requires ValidUUID(dep) && ValidResult(result)
    ensures Safe(SendResult(u, origin, dep, result, p))
  {
    hide Owners, Sound, ValidUUID, ValidResult;
    var t := SendResult(u, origin, dep, result, p);
    var c := result.commandID;
    SendOutcome(s, u, origin, dep, result, p);
    hide SendResult, StoreKept, NoRecord;
    assert t.owner.Keys == s.owner.Keys;
    SendMoves(s, u, t, origin, AwaitingResult(dep, result), c);
    MovedOwners(s, t, c);
    MovedSound(s, t, c);
  }

  lemma SendKeeps(s: System, u: System, origin: Option<nat>, dep: string, result: Result, p: Persist)
    requires Safe(s) && Reports(s, u, result.commandID)
    requires ValidUUID(dep) && ValidResult(result)
    ensures Safe(SendResult(u, origin, dep, result, p))
  {
    if p.Persisted? {
      SendStored(s, u, origin, dep, result, p);
    } else {
      SendWaits(s, u, origin, dep, result, p);
    }
  }

  /** Any code and any return code but success make a valid failure report. */
  lemma FailureIsValid(order: Order, code: string, returnCode: int)
    requires Reportable(order) && ValidErrorCode(code) && MIN_INT32 <= returnCode <= MAX_INT32
    ensures ValidResult(order.Reported("failed", code, returnCode))
  {
    assert code != "";
    hide ValidUUID, ValidIdentifier, ValidDigest, ValidErrorCode;
  }

  lemma SuccessIsValid(order: Order)
    requires Reportable(order)
    ensures ValidResult(order.Reported("applied", "", 0))
  {
    hide ValidUUID, ValidIdentifier, ValidDigest, ValidErrorCode;
  }

  lemma ReportsAlone(s: System, c: string)
    requires Owners(s) && InStage(s, c)
    ensures Reports(s, s, c)
  {
    hide Held, Waiting, Shape, ValidUUID;
  }

  lemma ReportKeeps(s: System, c: string, code: string, p: Persist)
    requires Safe(s) && InStage(s, c) && s.owner[c].stage.Superseding? && ValidErrorCode(code)
    ensures var order := s.owner[c].stage.order;
      Safe(SendResult(s, None, order.deploymentID, order.Reported("failed", code, -1), p))
  {
    var order := s.owner[c].stage.order;
    FailureIsValid(order, code, -1);
    ReportsAlone(s, c);
    assert ValidUUID(order.deploymentID) && order.commandID == c;
    hide Safe, Reports, SendResult, ValidResult, Reportable, ValidUUID;
    SendKeeps(s, s, None, order.deploymentID, order.Reported("failed", code, -1), p);
  }

  lemma EndHolds(s: System, id: nat)
    requires Owners(s) && id in s.terms && id in s.srv.cmds && !s.terms[id].ending.Drop?
    ensures Reports(s, s.(terms := s.terms - {id}), s.srv.cmds[id].order.commandID)
  {
    var u := s.(terms := s.terms - {id});
    var c := s.srv.cmds[id].order.commandID;
    assert Held(s, id) && s.owner[c] == Holding(id);
    hide Waiting, Shape, ValidUUID;
    forall i | i in s.srv.cmds && s.srv.cmds[i].order.commandID == c ensures !Held(u, i) {
      if i != id { assert !Held(s, i); }
    }
  }

  lemma DropHolders(s: System, id: nat)
    requires Owners(s) && id in s.terms && s.terms[id].ending.Drop?
    ensures SameHolders(s, s.(terms := s.terms - {id}))
  {
    hide InQueue, IsPending, Shape, ValidUUID;
    var u := s.(terms := s.terms - {id});
    assert u.srv == s.srv;
  }

  lemma DropSound(s: System, id: nat)
    requires Sound(s)
    ensures Sound(s.(terms := s.terms - {id}))
  {
    hide Reportable, ValidResult, ValidUUID;
  }

  lemma DropKeeps(s: System, id: nat)
    requires Owners(s) && Sound(s) && Roomy(s) && id in s.terms && s.terms[id].ending.Drop?
    ensures Safe(s.(terms := s.terms - {id}))
  {
    hide Owners, Sound, StoreKept, NoRecord, SameHolders;
    DropHolders(s, id);
    SameHoldersKeep(s, s.(terms := s.terms - {id}));
    DropSound(s, id);
  }

  lemma DiscardGivesUp(s: System, id: nat)
    requires Owners(s) && id in s.terms && id in s.srv.cmds && !s.terms[id].ending.Drop?
    ensures var c := s.srv.cmds[id].order.commandID;
      GivesUp(s, Released(s, c).(terms := s.terms - {id}), c)
  {
    var u := s.(terms := s.terms - {id});
    var c := s.srv.cmds[id].order.commandID;
    EndHolds(s, id);
    assert s.srv.awaiting - {c} == s.srv.awaiting by { hide Held, Waiting, Shape, ValidUUID; }
    hide Owners;
    SendGivesUp(s, u, Released(s, c).(terms := u.terms), c);
  }

  lemma DiscardKeeps(s: System, id: nat)
    requires Owners(s) && Sound(s) && Roomy(s) && id in s.terms && id in s.srv.cmds && !s.terms[id].ending.Drop?
    ensures Safe(Released(s, s.srv.cmds[id].order.commandID).(terms := s.terms - {id}))
  {
    hide Owners, Sound;
    var c := s.srv.cmds[id].order.commandID;
    var t := Released(s, c).(terms := s.terms - {id});
    DiscardGivesUp(s, id);
    GivenUpKeeps(s, t, c);
    GivenUpRoom(s, t, c);
  }

  lemma ReportedKeeps(s: System, id: nat, p: Persist)
    requires Safe(s) && id in s.terms && id in s.srv.cmds && s.terms[id].ending.Report?
    ensures Safe(Ended(s, id, p))
  {
    var order, result := s.srv.cmds[id].order, s.terms[id].ending.result;
    EndHolds(s, id);
    assert result.commandID == order.commandID && ValidResult(result) && ValidUUID(order.deploymentID);
    hide Safe, Reports, ValidResult, Reportable, ValidUUID, SendResult;
    SendKeeps(s, s.(terms := s.terms - {id}), Some(id), order.deploymentID, result, p);
  }

  lemma EndedKeeps(s: System, id: nat, p: Persist)
    requires Safe(s) && id in s.terms && id in s.srv.cmds
    ensures Safe(Ended(s, id, p))
  {
    hide Owners, Sound, Roomy, SendResult;
    match s.terms[id].ending {
      case Drop => DropKeeps(s, id);
      case Discard => DiscardKeeps(s, id);
      case Report(_) => ReportedKeeps(s, id, p);
    }
  }

  lemma FlushMoves(s: System, c: string, p: Persist)
    requires Owners(s) && Sound(s) && Roomy(s) && c in s.srv.awaiting && c in s.owner && s.owner[c].Owing?
    ensures var t := Flushed(s, c, p);
      && StoreKept(t.srv.store)
      && (if p.Persisted? then
            && t == CommitTo(s, t.srv, s.owner[c].origin, s.srv.awaiting[c].deploymentID, s.srv.awaiting[c].result)
            && t.srv == s.srv.(ids := s.srv.ids - {c}, awaiting := s.srv.awaiting - {c}, store := t.srv.store)
            && t.srv.store.records == s.srv.store.records
                 + [Record(s.srv.awaiting[c].deploymentID, s.srv.awaiting[c].result, 0, s.now)]
          else
            t == s.(srv := s.srv.(store := t.srv.store)) && t.srv.store.records == s.srv.store.records)
  {
    var w := s.srv.awaiting[c];
    assert w.result.commandID == c;
    assert |s.srv.store.records| < MAX_RECORDS by {
      assert |s.owner.Keys| > 0;
    }
    assert ValidUUID(w.deploymentID) && ValidResult(w.result) && s.now > 0 && NoRecord(s.srv.store.records, c);
    hide ValidUUID, ValidResult, Owners, Sound, Roomy, NoRecord;
    EnqueueFits(s.srv.store, w.deploymentID, w.result, s.now, p);
    hide Enqueue, StoreKept;
  }

  lemma FlushGivesUp(s: System, t: System, c: string)
    requires Owners(s) && c in s.owner && s.owner[c].Owing?
    requires t.srv == s.srv.(ids := s.srv.ids - {c}, awaiting := s.srv.awaiting - {c}, store := t.srv.store)
    requires t.terms == s.terms && t.now == s.now && t.owner == s.owner - {c}
    ensures GivesUp(s, t, c)
  {
    StoreApart(s, t);
    hide Held, Waiting, Shape, ValidUUID;
    assert t.owner.Keys == s.owner.Keys - {c};
    assert MovesID(s, t, c);
  }

  lemma StoreHolders(s: System, t: System)
    requires Owners(s)
    requires t.srv == s.srv.(store := t.srv.store, outboxFailed := t.srv.outboxFailed)
    requires t.owner == s.owner && t.terms == s.terms && t.now == s.now
    ensures SameHolders(s, t)
  {
    SameQueues(s.srv, t.srv);
    StoreApart(s, t);
    hide Held, ValidUUID;
  }

  lemma StoreSound(s: System, t: System)
    requires Sound(s) && t.srv.cmds == s.srv.cmds && t.srv.awaiting == s.srv.awaiting
    requires t.owner == s.owner && t.terms == s.terms
    ensures Sound(t)
  {
    hide Reportable, ValidResult, ValidUUID;
  }

  /** A change of the records that frees slots or leaves them as they are. */
  lemma StoreKeeps(s: System, t: System)
    requires Owners(s) && Sound(s) && Roomy(s)
    requires t.srv == s.srv.(store := t.srv.store, outboxFailed := t.srv.outboxFailed)
    requires t.owner == s.owner && t.terms == s.terms && t.now == s.now
    requires StoreKept(t.srv.store) && |t.srv.store.records| <= |s.srv.store.records|
    requires forall c | NoRecord(s.srv.store.records, c) :: NoRecord(t.srv.store.records, c)
    ensures Safe(t)
  {
    hide Owners, Sound, Roomy, SameHolders, NoRecord, StoreKept;
    StoreHolders(s, t);
    SameHoldersKeep(s, t);
    StoreSound(s, t);
    SameRoom(s, t);
  }

  lemma FlushDelivers(s: System, c: string, p: Persist)
    requires Owners(s) && Sound(s) && Roomy(s) && c in s.srv.awaiting && c in s.owner && s.owner[c].Owing?
      && p.Persisted?
    ensures Safe(Flushed(s, c, p))
  {
    var t := Flushed(s, c, p);
    FlushMoves(s, c, p);
    assert s.srv.awaiting[c].result.commandID == c;
    hide Flushed, Owners, Sound, Roomy, StoreKept;
    FlushGivesUp(s, t, c);
    AppendedRoom(s, t, c, t.srv.store.records[|t.srv.store.records| - 1]);
    hide NoRecord;
    GivenUpKeeps(s, t, c);
    hide GivesUp;
  }

  lemma AppendedRoom(s: System, t: System, c: string, r: Record)
    requires Roomy(s) && c in s.owner && t.owner == s.owner - {c} && StoreKept(t.srv.store)
    requires t.srv.store.records == s.srv.store.records + [r] && r.result.commandID == c
    ensures Roomy(t)
  {
    hide StoreKept, Roomy;
    forall e | e in t.owner && NoRecord(s.srv.store.records, e) ensures NoRecord(t.srv.store.records, e) {}
    GivenUpRoom(s, t, c);
  }

  lemma FlushWaits(s: System, c: string, p: Persist)
    requires Owners(s) && Sound(s) && Roomy(s) && c in s.srv.awaiting && c in s.owner && s.owner[c].Owing?
      && !p.Persisted?
    ensures Safe(Flushed(s, c, p))
  {
    FlushMoves(s, c, p);
    hide Flushed, Owners, Sound, Roomy, Safe, StoreKept, NoRecord;
    StoreKeeps(s, Flushed(s, c, p));
  }

  lemma WorkerKeeps(s: System, store: Store, ok: bool)
    requires Owners(s) && Sound(s) && Roomy(s)
    requires StoreKept(store) && |store.records| <= |s.srv.store.records|
    requires forall c | NoRecord(s.srv.store.records, c) :: NoRecord(store.records, c)
    ensures Safe(WorkerDone(s, store, ok))
  {
    hide Owners, Sound, Roomy, StoreKept, NoRecord;
    StoreKeeps(s, WorkerDone(s, store, ok));
  }

  // ---------- queueing a command ----------

  lemma AppendAscends(q: seq<nat>, id: nat)
    requires q == [] || (Ascending(q) && forall i | i in q :: i < id)
    ensures Ascending(q + [id])
  {
    forall a, b | 0 <= a < b < |q + [id]| ensures (q + [id])[a] < (q + [id])[b] {
      assert (q + [id])[a] == q[a] && q[a] in q;
    }
  }

  lemma AppendShape(srv: Srv, command: Command)
    requires Shape(srv) && EnqueueCommand(srv, command).1.Queued?
    ensures Shape(EnqueueCommand(srv, command).0)
  {
    var after := EnqueueCommand(srv, command).0;
    var d := command.order.deviceSN;
    var id := after.cmdID;
    hide ValidUUID, ValidIdentifier;
    AppendAscends(QueueOf(srv, d), id);
    forall e | e in after.queue ensures Ascending(after.queue[e]) && AllFor(after.cmds, e, after.queue[e]) {
      hide Matches;
    }
    forall k | k in after.pending ensures Matches(after, k) {
      hide Ascending;
      assert Matches(srv, k);
    }
  }

  lemma AppendMembers(srv: Srv, command: Command)
    requires Shape(srv) && EnqueueCommand(srv, command).1.Queued?
    ensures var after := EnqueueCommand(srv, command).0;
      && after.cmdID !in srv.cmds
      && (forall i | i != after.cmdID :: InQueue(after, i) <==> InQueue(srv, i))
      && (forall i :: IsPending(after, i) <==> IsPending(srv, i))
      && InQueue(after, after.cmdID)
  {
    hide ValidUUID, ValidIdentifier, Ascending;
    var after := EnqueueCommand(srv, command).0;
    var k := PendingKey(command.order.deviceSN, after.cmdID);
    assert k in srv.pending ==> Matches(srv, k);
  }

  /** What queueing changes. */
  ghost predicate Appended(s: System, t: System, c: string, id: nat)
    requires InStage(s, c) && s.owner[c].stage.Superseding?
  {
    && Shape(t.srv)
    && id !in s.srv.cmds && InQueue(t.srv, id)
    && t == s.(srv := t.srv, owner := s.owner[c := Holding(id)], original := t.original)
    && t.srv == s.srv.(cmdID := id, cmds := t.srv.cmds, queue := t.srv.queue)
    && id in t.srv.cmds && t.srv.cmds == s.srv.cmds[id := t.srv.cmds[id]]
    && t.srv.cmds[id].order == s.owner[c].stage.order
    && (forall i | i != id :: InQueue(t.srv, i) <==> InQueue(s.srv, i))
    && (forall i :: IsPending(t.srv, i) <==> IsPending(s.srv, i))
  }

  predicate CanQueue(s: System, c: string, payload: string, lease: int)
    requires InStage(s, c) && s.owner[c].stage.Superseding?
  {
    EnqueueCommand(s.srv, NewCommand(s.owner[c].stage.order, payload, lease)).1.Queued?
  }

  lemma QueueAppends(s: System, c: string, payload: string, lease: int)
    requires Shape(s.srv) && InStage(s, c) && s.owner[c].stage.Superseding? && CanQueue(s, c, payload, lease)
    ensures var t := Queue(s, c, payload, lease); Appended(s, t, c, t.srv.cmdID)
  {
    var command := NewCommand(s.owner[c].stage.order, payload, lease);
    AppendShape(s.srv, command);
    AppendMembers(s.srv, command);
    hide InQueue, IsPending, Shape, ValidUUID, ValidIdentifier;
  }

  lemma AppendedHolders(s: System, t: System, c: string, id: nat)
    requires TermsApart(s) && InStage(s, c) && s.owner[c].stage.Superseding? && Appended(s, t, c, id)
    ensures TermsApart(t) && Held(t, id)
    ensures forall i | i in s.srv.cmds :: Held(t, i) <==> Held(s, i)
  {
    hide InQueue, IsPending, Shape, ValidUUID;
  }

  lemma AppendedOwned(s: System, t: System, c: string, id: nat)
    requires Owners(s) && InStage(s, c) && s.owner[c].stage.Superseding? && s.owner[c].stage.order.commandID == c
    requires Appended(s, t, c, id)
    ensures OwnedRight(t, c)
  {
    AppendedHolders(s, t, c, id);
    hide Held, Waiting, Shape, ValidUUID, TermsApart;
  }

  lemma AppendedMoves(s: System, t: System, c: string, id: nat)
    requires Owners(s) && InStage(s, c) && s.owner[c].stage.Superseding? && s.owner[c].stage.order.commandID == c
    requires Appended(s, t, c, id) && !s.srv.closed
    ensures ChangesOwner(s, t, c)
  {
    AppendedHolders(s, t, c, id);
    AppendedOwned(s, t, c, id);
    assert s.srv.ids == s.owner.Keys;
    hide Owners, OwnedRight, Held, Waiting, InQueue, IsPending, Shape, ValidUUID, TermsApart;
    assert t.owner.Keys == s.owner.Keys;
  }

  lemma AppendedSound(s: System, t: System, c: string, id: nat)
    requires Sound(s) && TermsApart(s) && InStage(s, c) && s.owner[c].stage.Superseding? && Appended(s, t, c, id)
    ensures Sound(t)
  {
    hide InQueue, IsPending, Shape, ValidUUID, Reportable, ValidResult;
  }

  lemma AppendedKeeps(s: System, t: System, c: string, id: nat)
    requires Owners(s) && Sound(s) && Roomy(s) && InStage(s, c) && s.owner[c].stage.Superseding?
    requires Appended(s, t, c, id) && t.owner.Keys == s.owner.Keys && !s.srv.closed
    ensures Safe(t)
  {
    assert TermsApart(s) && Shape(s.srv) && s.owner[c].stage.order.commandID == c;
    hide Owners, Sound, Shape, ChangesOwner, StoreKept, NoRecord, TermsApart;
    AppendedMoves(s, t, c, id);
    AppendedSound(s, t, c, id);
    ChangedOwnerKeeps(s, t, c);
    SameRoom(s, t);
    hide Roomy, Appended;
  }

  lemma QueueKeeps(s: System, c: string, payload: string, lease: int)
    requires Owners(s) && Sound(s) && Roomy(s) && InStage(s, c) && s.owner[c].stage.Superseding?
    ensures Safe(Queue(s, c, payload, lease))
  {
    if CanQueue(s, c, payload, lease) {
      var t := Queue(s, c, payload, lease);
      assert Shape(s.srv) && !s.srv.closed;
      hide Owners, Sound, Roomy, Safe, Shape, Appended;
      QueueAppends(s, c, payload, lease);
      assert t.owner.Keys == s.owner.Keys by { hide EnqueueCommand; }
      hide Queue, CanQueue;
      AppendedKeeps(s, t, c, t.srv.cmdID);
    } else {
      hide Owners, Sound, Roomy;
      StageKeeps(s, c, Abandoned);
    }
  }

  // ---------- shutting down ----------

  /** What a shutdown changes. */
  ghost predicate ShutDown(s: System, t: System, out: set<nat>) {
    && t.srv.closed && t.srv.ids == {} && t.srv.queue == map[] && t.srv.pending == map[]
    && t.srv.awaiting == s.srv.awaiting && t.srv.store == s.srv.store && t.srv.cmdID == s.srv.cmdID
    && t.now == s.now
    && t.srv.cmds.Keys == s.srv.cmds.Keys
    && (forall i | i in s.srv.cmds ::
         t.srv.cmds[i].id == s.srv.cmds[i].id && t.srv.cmds[i].order == s.srv.cmds[i].order)
    && t.owner == (map c | c in s.owner && !(s.owner[c].Holding? && s.owner[c].id in out) :: s.owner[c])
    && (forall i :: i in t.terms <==> i in s.terms || i in out)
    && (forall i | i in t.terms :: t.terms[i] == if i in out then Terminator(Drop, false) else s.terms[i])
  }

  lemma AllPendingOut(srv: Srv)
    requires Shape(srv)
    ensures Remove(srv, AllWaiting(srv)).pending == map[]
  {
    hide Ascending, AllFor, OlderThanAll, InQueue;
    forall k | k in srv.pending ensures srv.pending[k] in AllWaiting(srv) {
      assert Matches(srv, k);
      assert IsPending(srv, k.localID);
    }
  }

  lemma ShutdownChanges(srv: Srv)
    requires Shape(srv)
    ensures var r := Shutdown(srv);
      && r == srv.(closed := true, ids := {}, queue := map[], pending := map[], cmds := r.cmds)
      && r.cmds.Keys == srv.cmds.Keys
      && (forall i | i in srv.cmds :: r.cmds[i].id == srv.cmds[i].id && r.cmds[i].order == srv.cmds[i].order)
  {
    RemoveQueues(srv, AllWaiting(srv));
    AllPendingOut(srv);
    hide Shape, AllWaiting, Keep, QueueOf, Ascending, AllFor, IsPending;
  }

  /** The owners of the commands taken out, whether these are listed or collected. */
  lemma OwnersOfListed(owner: map<string, Owner>, out: seq<nat>, all: set<nat>)
    requires forall i: nat :: i in out <==> i in all
    ensures (map c | c in owner && !(owner[c].Holding? && owner[c].id in out) :: owner[c])
         == (map c | c in owner && !(owner[c].Holding? && owner[c].id in all) :: owner[c])
  {}

  lemma ClosingShutsDown(s: System, out: seq<nat>)
    requires Shape(s.srv) && Enumerates(out, AllWaiting(s.srv))
    ensures ShutDown(s, Closing(s, out), AllWaiting(s.srv))
  {
    ShutdownChanges(s.srv);
    assert forall i :: i in Members(out) <==> i in out;
    hide Shape, AllWaiting, Shutdown, Remove;
    OwnersOfListed(s.owner, out, AllWaiting(s.srv));
  }

  lemma ShutDownHolders(s: System, t: System)
    requires TermsApart(s) && Shape(s.srv) && ShutDown(s, t, AllWaiting(s.srv))
    ensures TermsApart(t) && Shape(t.srv)
    ensures forall i | i in s.srv.cmds :: Held(t, i) <==> Held(s, i) && i !in AllWaiting(s.srv)
  {
    forall i ensures !Live(t, i) {}
    hide InQueue, IsPending;
  }

  lemma ShutDownOwners(s: System, t: System)
    requires Owners(s) && ShutDown(s, t, AllWaiting(s.srv))
    ensures Owners(t)
  {
    ShutDownHolders(s, t);
    var out := AllWaiting(s.srv);
    hide Held, Waiting, Shape, ValidUUID, TermsApart, AllWaiting;
  }

  lemma ShutDownSound(s: System, t: System)
    requires Sound(s) && ShutDown(s, t, AllWaiting(s.srv))
    ensures Sound(t)
  {
    hide AllWaiting, ValidUUID, Reportable, ValidResult;
  }

  lemma ShutDownKeeps(s: System, t: System)
    requires Owners(s) && Sound(s) && Roomy(s) && ShutDown(s, t, AllWaiting(s.srv))
    ensures Safe(t)
  {
    hide Owners, Sound, AllWaiting, StoreKept, NoRecord;
    ShutDownOwners(s, t);
    ShutDownSound(s, t);
    assert t.owner.Keys <= s.owner.Keys;
    SubsetSize(t.owner.Keys, s.owner.Keys);
  }

  // ---------- serving ----------

  lemma KnownCodes()
    ensures ValidErrorCode("network_unavailable") && ValidErrorCode("device_command_failed")
  {}

  lemma PendingIsLive(srv: Srv, d: string)
    requires Shape(srv) && PendingOf(srv, d).Some?
    ensures var id := PendingOf(srv, d).value;
      IsPending(srv, id) && id in srv.cmds && srv.cmds[id].order.deviceSN == d && PendingKey(d, id) in srv.pending
  {
    hide Ascending, AllFor, OlderThanAll;
    var k :| k in srv.pending && k.deviceSN == d && PendingOf(srv, d) == Some(k.localID);
    assert Matches(srv, k);
  }

  /** A command leaves alone, and its report is valid. */
  lemma OneLeaves(s: System, id: nat, ending: Ending)
    requires Safe(s) && id in s.srv.cmds && Live(s, id) && !ending.Drop?
    requires ending.Report? ==> ValidResult(ending.result) && ending.result.commandID == s.srv.cmds[id].order.commandID
    ensures Safe(Leave(s, [id], ending))
  {
    hide Safe, Waiting, ValidResult;
    assert Members([id]) == {id};
    LeaveKeeps(s, [id], ending);
  }

  lemma FailureLeaves(s: System, id: nat, code: string)
    requires Safe(s) && id in s.srv.cmds && IsPending(s.srv, id) && ValidErrorCode(code)
    ensures Safe(Leave(s, [id], Report(s.srv.cmds[id].order.Reported("failed", code, -1))))
  {
    FailureIsValid(s.srv.cmds[id].order, code, -1);
    hide Safe, InQueue, IsPending, ValidResult;
    OneLeaves(s, id, Report(s.srv.cmds[id].order.Reported("failed", code, -1)));
  }

  /** Commands move between queue and pending, and are touched, but none leaves. */
  ghost predicate Calm(s: System, t: System) {
    && Shape(t.srv)
    && t.srv.closed == s.srv.closed && t.srv.ids == s.srv.ids
    && t.srv.awaiting == s.srv.awaiting && t.srv.store == s.srv.store
    && t.owner == s.owner && t.terms == s.terms && t.now == s.now
    && t.srv.cmds.Keys == s.srv.cmds.Keys
    && (forall i | i in s.srv.cmds :: t.srv.cmds[i].order == s.srv.cmds[i].order)
    && (forall i :: Waiting(t.srv, i) <==> Waiting(s.srv, i))
  }

  lemma CalmHolders(s: System, t: System)
    requires TermsApart(s) && Calm(s, t)
    ensures SameHolders(s, t)
  {
    hide Shape, Waiting;
  }

  lemma CalmSound(s: System, t: System)
    requires Sound(s) && Calm(s, t)
    ensures Sound(t)
  {
    hide Shape, Waiting, Reportable, ValidResult, ValidUUID;
  }

  lemma CalmKeeps(s: System, t: System)
    requires Safe(s) && Calm(s, t)
    ensures Safe(t)
  {
    assert TermsApart(s) && Roomy(t);
    CalmHolders(s, t);
    CalmSound(s, t);
    SameHoldersKeep(s, t);
  }

  /** What a poll does while the device has a pending command. */
  lemma PolledPending(s: System, d: string, id: nat)
    requires Shape(s.srv) && PendingOf(s.srv, d) == Some(id)
    ensures id in s.srv.cmds && IsPending(s.srv, id)
    ensures var c, t := s.srv.cmds[id], Polled(s, d);
      if c.writerActive then t == s
      else if Spent(c, s.now) then t == Leave(s, [id], Report(NetworkFailure(s, id)))
      else
        var claimed := c.(writerActive := true, serveAttempts := c.serveAttempts + 1);
        t == s.(srv := s.srv.(cmds := s.srv.cmds[id := claimed]), writers := s.writers[id := Checking],
          claims := t.claims)
  {
    PendingIsLive(s.srv, d);
    hide Shape, PendingOf, IsPending, QueueOf, TakeFirst, Spent, Leave;
  }

  /** What a poll does while the device has none. */
  lemma PolledQueue(s: System, d: string)
    requires Shape(s.srv) && PendingOf(s.srv, d).None?
    ensures var t := Polled(s, d);
      if QueueOf(s.srv, d) == [] then t == s
      else t == s.(srv := TakeFirst(s.srv, d, s.now), writers := t.writers, claims := t.claims)
  {
    hide Shape, PendingOf, QueueOf, TakeFirst, Spent, Leave;
  }

  lemma TakenCalm(s: System, d: string)
    requires Shape(s.srv) && PendingOf(s.srv, d).None? && QueueOf(s.srv, d) != []
    ensures Calm(s, Polled(s, d))
  {
    PolledQueue(s, d);
    TakeFirstShape(s.srv, d, s.now);
    TakeFirstMoves(s.srv, d, s.now);
    hide Shape, Waiting, Polled, PendingOf, QueueOf, TakeFirst;
  }

  /** A poll that finds the pending command free serves it once more. */
  lemma ReclaimTouches(s: System, d: string, id: nat)
    requires Shape(s.srv) && PendingOf(s.srv, d) == Some(id)
    requires id in s.srv.cmds && !s.srv.cmds[id].writerActive && !Spent(s.srv.cmds[id], s.now)
    ensures Touched(s.srv, Polled(s, d).srv) && SameEndings(s, Polled(s, d))
    ensures Polled(s, d).owner == s.owner && Polled(s, d).now == s.now
  {
    PolledPending(s, d, id);
    hide Shape, PendingOf, Polled, Spent;
  }

  lemma PendingPollKeeps(s: System, d: string, id: nat)
    requires Safe(s) && PendingOf(s.srv, d) == Some(id)
    ensures Safe(Polled(s, d))
  {
    assert Shape(s.srv);
    hide Safe, Shape, Touched, SameEndings;
    PolledPending(s, d, id);
    KnownCodes();
    hide ValidErrorCode, Leave, Polled, PendingOf, Spent;
    if !s.srv.cmds[id].writerActive {
      if Spent(s.srv.cmds[id], s.now) {
        FailureLeaves(s, id, "network_unavailable");
      } else {
        ReclaimTouches(s, d, id);
        QuietKeeps(s, Polled(s, d));
      }
    }
  }

  lemma PolledKeeps(s: System, d: string)
    requires Safe(s)
    ensures Safe(Polled(s, d))
  {
    assert Shape(s.srv);
    hide Safe, Shape;
    if PendingOf(s.srv, d).Some? {
      hide Polled, PendingOf;
      PendingPollKeeps(s, d, PendingOf(s.srv, d).value);
    } else if QueueOf(s.srv, d) != [] {
      hide Polled, PendingOf, Calm;
      TakenCalm(s, d);
      CalmKeeps(s, Polled(s, d));
    } else {
      assert Polled(s, d) == s;
    }
  }

  lemma FailKeeps(s: System, id: nat, code: string)
    requires Safe(s) && id in s.srv.cmds && ValidErrorCode(code)
    ensures Safe(FailServed(s, id, code))
  {
    hide Safe, IsPending, ValidErrorCode, Leave;
    if IsPending(s.srv, id) { FailureLeaves(s, id, code); }
  }

  lemma DiscardServedKeeps(s: System, id: nat)
    requires Safe(s) && id in s.srv.cmds
    ensures Safe(DiscardServed(s, id))
  {
    hide Safe, IsPending, InQueue, Leave;
    if IsPending(s.srv, id) { OneLeaves(s, id, Discard); }
  }

  lemma WriterApart(s: System, t: System)
    requires Safe(s) && t == s.(writers := t.writers, worker := t.worker, trail := t.trail, owed := t.owed)
    ensures Safe(t)
  {
    QuietKeeps(s, t);
  }

  lemma TouchedKeeps(s: System, srv: Srv)
    requires Safe(s) && Touched(s.srv, srv)
    ensures Safe(s.(srv := srv))
  {
    hide Safe, Touched;
    QuietKeeps(s, s.(srv := srv));
  }

  lemma SetTouches(srv: Srv, id: nat, c: Command)
    requires id in srv.cmds && c.id == srv.cmds[id].id && c.order == srv.cmds[id].order
    ensures Touched(srv, srv.(cmds := srv.cmds[id := c]))
  {}

  lemma ServingTouches(srv: Srv, id: nat)
    ensures Touched(srv, ReleaseWriter(srv, id))
    ensures Touched(srv, MarkServed(srv, id))
    ensures Touched(srv, BeginWrite(srv, id).0)
    ensures Touched(srv, ZeroPayload(srv, id))
  {
    assert Touched(srv, srv);
    if id in srv.cmds {
      var c := srv.cmds[id];
      SetTouches(srv, id, c.(writerActive := false));
      SetTouches(srv, id, c.(writerActive := false, served := true));
      SetTouches(srv, id, c.(payload := ""));
    }
    assert IsPending(srv, id) ==> id in srv.cmds;
    hide IsPending, Touched;
  }

  lemma ReleaseWriterKeeps(s: System, id: nat)
    requires Safe(s)
    ensures Safe(s.(srv := ReleaseWriter(s.srv, id)))
    ensures Safe(s.(srv := MarkServed(s.srv, id)))
    ensures Safe(s.(srv := BeginWrite(s.srv, id).0))
  {
    ServingTouches(s.srv, id);
    hide Safe, Touched, ReleaseWriter, MarkServed, BeginWrite;
    TouchedKeeps(s, ReleaseWriter(s.srv, id));
    TouchedKeeps(s, MarkServed(s.srv, id));
    TouchedKeeps(s, BeginWrite(s.srv, id).0);
  }

  lemma AckedKeeps(s: System, key: PendingKey, returnCode: int)
    requires Safe(s) && -1_000_000 <= returnCode <= 1_000_000
    ensures Safe(Acked(s, key, returnCode))
  {
    match Completion(s.srv, key, returnCode) {
      case None =>
      case Some(result) =>
        var id := s.srv.pending[key];
        assert Matches(s.srv, key) && Reportable(s.srv.cmds[id].order) && IsPending(s.srv, id);
        KnownCodes();
        SuccessIsValid(s.srv.cmds[id].order);
        FailureIsValid(s.srv.cmds[id].order, "device_command_failed", returnCode);
        hide Safe, Reportable, ValidErrorCode, ValidResult, IsPending, InQueue, Matches;
        OneLeaves(s, id, Report(result));
        hide Leave;
        WriterApart(Leave(s, [id], Report(result)), Acked(s, key, returnCode));
    }
  }

  lemma SupersedeKeeps(s: System, c: string, out: seq<nat>)
    requires Safe(s) && InStage(s, c) && s.owner[c].stage.Ordered?
    requires Enumerates(out, Superseded(s.srv, s.owner[c].stage.order.deploymentID, c))
    ensures Safe(SetStage(Leave(s, out, Discard), c, Superseding(s.owner[c].stage.order)))
  {
    var order := s.owner[c].stage.order;
    assert Reportable(order) && order.commandID == c;
    assert Fits(s, Members(out), Discard) by { hide Safe, Waiting; }
    hide Safe, Reportable, Fits, Superseded;
    var t := Leave(s, out, Discard);
    LeaveKeeps(s, out, Discard);
    assert t.owner == s.owner;
    hide Leave;
    StageKeeps(t, c, Superseding(order));
  }

  lemma RecheckKeeps(s: System, id: nat, answer: RecheckAnswer)
    requires Safe(s) && id in s.srv.cmds
    ensures Safe(Recheck(s, id, answer))
  {
    hide Safe, RecheckCode, ReleaseWriter, DiscardServed;
    ReleaseWriterKeeps(s, id);
    DiscardServedKeeps(s, id);
    var code := RecheckCode(s.srv.cmds[id], answer, s.now);
    if code == "network_unavailable" || code == "deployment_claim_failed" {
      WriterApart(s.(srv := ReleaseWriter(s.srv, id)), Recheck(s, id, answer));
    } else if code != "" || answer.NoAnswer? {
      WriterApart(DiscardServed(s, id), Recheck(s, id, answer));
    } else {
      WriterApart(s, Recheck(s, id, answer));
    }
  }

  lemma LeaseKeeps(s: System, id: nat)
    requires Safe(s) && id in s.writers && s.writers[id].Leased?
    ensures Safe(Lease(s, id))
  {
    hide Safe, ReleaseWriter;
    ReleaseWriterKeeps(s, id);
    WriterApart(if LeaseBoundsWrite(s.writers[id].lease, s.now) then s else s.(srv := ReleaseWriter(s.srv, id)),
      Lease(s, id));
  }

  lemma RecompatKeeps(s: System, id: nat, code: string)
    requires Safe(s) && id in s.writers && s.writers[id].Rechecked? && id in s.srv.cmds
    requires code == "" || ValidErrorCode(code)
    ensures Safe(Recompat(s, id, code))
  {
    hide Safe, FailServed, ValidErrorCode;
    var t := Recompat(s, id, code);
    if code != "" {
      FailKeeps(s, id, code);
      WriterApart(FailServed(s, id, code), t);
    } else {
      TouchedKeeps(s, t.srv);
      WriterApart(s.(srv := t.srv), t);
    }
  }

  lemma BeginKeeps(s: System, id: nat)
    requires Safe(s)
    ensures Safe(Begin(s, id))
  {
    hide Safe, BeginWrite;
    ReleaseWriterKeeps(s, id);
    WriterApart(if BeginWrite(s.srv, id).1 then s else s.(srv := BeginWrite(s.srv, id).0), Begin(s, id));
  }

  lemma AdvanceKeeps(s: System, id: nat, upTo: nat)
    requires Safe(s) && id in s.srv.cmds
    ensures Safe(Advance(s, id, upTo))
  {
    hide Safe, Wire;
    WriterApart(s, Advance(s, id, upTo));
  }

  lemma CompleteKeeps(s: System, id: nat)
    requires Safe(s) && id in s.writers && s.writers[id].Writing?
    ensures Safe(Complete(s, id))
  {
    hide Safe, MarkServed;
    ReleaseWriterKeeps(s, id);
    WriterApart(s.(srv := MarkServed(s.srv, id)), Complete(s, id));
  }

  lemma ZeroKeeps(s: System, id: nat)
    requires Safe(s) && id in s.terms
    ensures Safe(Zeroed(s, id))
  {
    ServingTouches(s.srv, id);
    hide Safe, Touched, ZeroPayload;
    QuietKeeps(s, Zeroed(s, id));
  }

  lemma WorkerStepKeeps(s: System, p: Persist)
    requires Safe(s)
    ensures s.worker.Settled? ==> Safe(Dropped(s, p))
    ensures s.worker.Refused? ==> Safe(Postponed(s, p))
  {
    assert s.now > 0 && StoreKept(s.srv.store);
    if s.worker.Settled? {
      var r := s.worker.record;
      DeleteKeeps(s.srv.store, r.deploymentID, r.result.commandID, p);
      var (store, ok) := Delete(s.srv.store, r.deploymentID, r.result.commandID, p);
      hide Delete, Owners, Sound, Roomy, StoreKept, NoRecord, WorkerDone;
      WorkerKeeps(s, store, ok);
    } else if s.worker.Refused? {
      var r := s.worker.record;
      RetryKeeps(s.srv.store, r.deploymentID, r.result.commandID, s.now, p);
      var (store, ok) := Retry(s.srv.store, r.deploymentID, r.result.commandID, s.now, p);
      hide Retry, Owners, Sound, Roomy, StoreKept, NoRecord, WorkerDone;
      WorkerKeeps(s, store, ok);
    }
  }

  lemma CloseKeeps(s: System, out: seq<nat>)
    requires Safe(s) && !s.srv.closed && Enumerates(out, AllWaiting(s.srv))
    ensures Safe(Closing(s, out))
  {
    assert Shape(s.srv);
    hide Owners, Sound, Roomy, Shape, ShutDown;
    ClosingShutsDown(s, out);
    ShutDownKeeps(s, Closing(s, out));
  }

  lemma CheckKeeps(s: System, id: nat, code: string)
    requires Safe(s) && id in s.srv.cmds && (code == "" || ValidErrorCode(code))
    ensures Safe(Checked(s, id, code))
  {
    hide Safe, FailServed, ValidErrorCode;
    if code != "" {
      FailKeeps(s, id, code);
      WriterApart(FailServed(s, id, code), Checked(s, id, code));
    } else {
      WriterApart(s, Checked(s, id, code));
    }
  }

  lemma BreakKeeps(s: System, id: nat, timeout: bool)
    requires Safe(s) && InWriter(s, id)
    ensures Safe(Broken(s, id, timeout))
  {
    KnownCodes();
    hide Safe, FailServed, ValidErrorCode, ReleaseWriter;
    FailKeeps(s, id, "network_unavailable");
    ReleaseWriterKeeps(s, id);
    WriterApart(if timeout then FailServed(s, id, "network_unavailable") else s.(srv := ReleaseWriter(s.srv, id)),
      Broken(s, id, timeout));
  }

  // ---------- every step ----------

  lemma ProcessKeepsSafe(s: System, c: string, act: ProcessStep)
    requires Safe(s) && ProcessEnabled(s, c, act)
    ensures Safe(ProcessApply(s, c, act))
  {
    match act
    case ReserveID => hide Safe; ReservedKeeps(s, c);
    case CloudClaims(claim) =>
      ClaimIsReportable(claim, c, s.now);
      hide Safe, Reportable, ValidClaim, SetStage;
      StageKeeps(s, c, Ordered(OrderOf(claim)));
    case SupersedeOthers(out) => hide Safe, Leave, SetStage, Enumerates; SupersedeKeeps(s, c, out);
    case ReportFailure(code, p) => hide Safe, SendResult; ReportKeeps(s, c, code, p);
    case QueueCommand(payload, lease) => hide Owners, Sound, Roomy, Queue; QueueKeeps(s, c, payload, lease);
    case ReleaseID => hide Safe; ReleaseKeeps(s, c);
  }

  lemma WriterKeepsSafe(s: System, id: nat, does: WriterStep)
    requires Safe(s) && WriterEnabled(s, id, does)
    ensures Safe(WriterApply(s, id, does))
  {
    hide Safe, ValidErrorCode, Checked, Recheck, Lease, Recompat, Begin, Advance, Complete, Broken, Wire;
    match does
    case CheckDevice(code) => CheckKeeps(s, id, code);
    case RecheckClaim(answer) => RecheckKeeps(s, id, answer);
    case CheckLease => LeaseKeeps(s, id);
    case RecheckDevice(code) => RecompatKeeps(s, id, code);
    case StartWrite => BeginKeeps(s, id);
    case WriteSome(upTo) => AdvanceKeeps(s, id, upTo);
    case FinishWrite => CompleteKeeps(s, id);
    case BreakWrite(timeout) => BreakKeeps(s, id, timeout);
  }

  lemma EndingKeepsSafe(s: System, id: nat, ends: EndingStep)
    requires Safe(s) && EndingEnabled(s, id, ends)
    ensures Safe(EndingApply(s, id, ends))
  {
    hide Safe, FailServed, Zeroed, Ended, Leave, InQueue, IsPending;
    match ends
    case PreServeTimer => if InQueue(s.srv, id) { OneLeaves(s, id, Discard); }
    case DeadlineTimer => KnownCodes(); hide ValidErrorCode; FailKeeps(s, id, "network_unavailable");
    case Zero => ZeroKeeps(s, id);
    case EndCommand(p) => EndedKeeps(s, id, p);
  }

  lemma OutboxKeepsSafe(s: System, part: OutboxStep)
    requires Safe(s) && OutboxEnabled(s, part)
    ensures Safe(OutboxApply(s, part))
  {
    hide Owners, Sound, Roomy, Flushed, Dropped, Postponed;
    match part
    case Flush(c, p) => if p.Persisted? { FlushDelivers(s, c, p); } else { FlushWaits(s, c, p); }
    case PickRecord(_) => WriterApart(s, OutboxApply(s, part));
    case CloudAnswers(_) => WriterApart(s, OutboxApply(s, part));
    case DropRecord(p) => WorkerStepKeeps(s, p);
    case PostponeRecord(p) => WorkerStepKeeps(s, p);
  }

  lemma StepKeepsSafe(s: System, step: Step)
    requires Safe(s) && Enabled(s, step)
    ensures Safe(Apply(s, step))
  {
    hide Safe, ProcessEnabled, ProcessApply, WriterEnabled, WriterApply, EndingEnabled, EndingApply, OutboxEnabled;
    hide OutboxApply;
    hide Polled, Acked, Closing, Enumerates;
    match step
    case Tick(_) => QuietKeeps(s, Apply(s, step));
    case Process(c, act) => ProcessKeepsSafe(s, c, act);
    case Poll(d) => PolledKeeps(s, d);
    case Serving(id, does) => WriterKeepsSafe(s, id, does);
    case Ack(d, localID, returnCode) => AckedKeeps(s, PendingKey(d, localID), returnCode);
    case EndingOf(id, ends) => EndingKeepsSafe(s, id, ends);
    case Delivery(part) => OutboxKeepsSafe(s, part);
    case CloseServer(out) => CloseKeeps(s, out);
  }
}
