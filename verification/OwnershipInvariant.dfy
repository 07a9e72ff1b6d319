/** Who owns a reserved id, and why there is always room for its result. */
module OwnershipInvariant {
  import opened Identifiers
  import opened ResultOutbox
  import opened Claims
  import opened SecretServer
  import opened Lifecycle

  /** A command whose result, with any outcome, passes the outbox validator. */
  predicate Reportable(c: Order) {
    && ValidUUID(c.deploymentID)
    && ValidUUID(c.commandID)
    && ValidIdentifier(c.deviceSN)
    && (if c.operation == "delete" then 1 <= c.attempt <= 5 && ValidUUID(c.vaultAssetID) && c.sha256 == ""
        else c.operation == "" && c.attempt == 0 && c.vaultAssetID == "" && ValidDigest(c.sha256))
  }

  predicate HasOrder(stage: Stage) { stage.Ordered? || stage.Superseding? }

  /** A command that is being terminated is neither queued nor pending. */
  ghost predicate TermsApart(s: System) {
    forall i | i in s.terms :: i in s.srv.cmds && !Live(s, i)
  }

  ghost predicate Owners(s: System) {
    && Shape(s.srv)
    && s.now > 0
    && s.srv.ids == (if s.srv.closed then {} else s.owner.Keys)
    && (forall c | c in s.owner && s.owner[c].Holding? ::
          Held(s, s.owner[c].id) && s.owner[c].id in s.srv.cmds && s.srv.cmds[s.owner[c].id].order.commandID == c)
    && (forall i | i in s.srv.cmds && Held(s, i) ::
          s.srv.cmds[i].order.commandID in s.owner && s.owner[s.srv.cmds[i].order.commandID] == Holding(i))
    && TermsApart(s)
    && (forall c | c in s.srv.awaiting :: c in s.owner)
    && (forall c | c in s.owner :: s.owner[c].Owing? <==> c in s.srv.awaiting)
    && (forall c | c in s.owner :: ValidUUID(c))
  }

  /** Everything that may still be reported is valid. */
  ghost predicate Sound(s: System) {
    && (forall i | i in s.srv.cmds :: Reportable(s.srv.cmds[i].order))
    && (forall i | i in s.terms && s.terms[i].ending.Report? && i in s.srv.cmds ::
          ValidResult(s.terms[i].ending.result) && s.terms[i].ending.result.commandID == s.srv.cmds[i].order.commandID)
    && (forall c | c in s.srv.awaiting ::
          ValidUUID(s.srv.awaiting[c].deploymentID) && ValidResult(s.srv.awaiting[c].result)
          && s.srv.awaiting[c].result.commandID == c)
    && (forall c | c in s.owner && s.owner[c].Processing? && HasOrder(s.owner[c].stage) ::
          Reportable(s.owner[c].stage.order) && s.owner[c].stage.order.commandID == c)
  }

  // ---------- removing commands ----------

  lemma {:induction false} KeepAscends(q: seq<nat>, out: set<nat>)
    requires Ascending(q)
    ensures Ascending(Keep(q, out))
  {
    if q != [] {
      var rest := q[1..];
      KeepAscends(rest, out);
      var r := Keep(q, out);
      if q[0] in out {
        assert r == Keep(rest, out);
      } else {
        assert r == [q[0]] + Keep(rest, out);
        forall b | 0 < b < |r| ensures q[0] < r[b] {
          assert r[b] == Keep(rest, out)[b - 1] && r[b] in rest;
        }
      }
    }
  }

  lemma RemoveQueues(srv: Srv, out: set<nat>)
    requires Shape(srv)
    ensures var r := Remove(srv, out);
      && (forall d | d in r.queue :: Ascending(r.queue[d]) && AllFor(r.cmds, d, r.queue[d]))
      && (forall d :: QueueOf(r, d) == Keep(QueueOf(srv, d), out))
      && r.cmds.Keys == srv.cmds.Keys
      && (forall i | i in srv.cmds :: r.cmds[i].id == srv.cmds[i].id && r.cmds[i].order == srv.cmds[i].order)
  {
    hide Matches;
    var r := Remove(srv, out);
    forall d | d in r.queue ensures Ascending(r.queue[d]) && AllFor(r.cmds, d, r.queue[d]) {
      KeepAscends(srv.queue[d], out);
    }
  }

  lemma RemoveMembers(srv: Srv, out: set<nat>)
    requires Shape(srv)
    ensures var r := Remove(srv, out);
      && (forall i :: InQueue(r, i) <==> InQueue(srv, i) && i !in out)
      && (forall i :: IsPending(r, i) <==> IsPending(srv, i) && i !in out)
  {
    hide Ascending, AllFor, QueueOf, OlderThanAll;
    RemoveQueues(srv, out);
    forall i | IsPending(srv, i) ensures srv.pending[PendingKey(srv.cmds[i].order.deviceSN, i)] == i {
      assert Matches(srv, PendingKey(srv.cmds[i].order.deviceSN, i));
    }
  }

  lemma RemoveShape(srv: Srv, out: set<nat>)
    requires Shape(srv)
    ensures Shape(Remove(srv, out))
  {
    hide Ascending, AllFor, QueueOf;
    var r := Remove(srv, out);
    RemoveQueues(srv, out);
    forall k | k in r.pending ensures Matches(r, k) {
      assert Matches(srv, k);
    }
  }

  // ---------- the outbox under the lifecycle ----------

  /** What every document satisfies, whatever the number of retries. */
  ghost predicate Kept(doc: seq<Record>) {
    && |doc| <= MAX_RECORDS
    && UniqueCommands(doc)
    && (forall r | r in doc ::
          ValidUUID(r.deploymentID) && ValidResult(r.result) && 0 <= r.attempts && r.nextAttemptAt != ZERO_TIME)
  }

  ghost predicate StoreKept(st: Store) {
    && st.records in st.images
    && (forall doc | doc in st.images :: Kept(doc))
  }

  ghost predicate NoRecord(doc: seq<Record>, commandID: string) {
    forall r | r in doc :: r.result.commandID != commandID
  }

  /** Every owner of an id has a slot in the outbox. */
  ghost predicate Roomy(s: System) {
    && |s.owner| <= MAX_COMMANDS
    && |s.srv.store.records| + |s.owner| <= MAX_RECORDS
    && StoreKept(s.srv.store)
    && (forall c | c in s.owner :: NoRecord(s.srv.store.records, c))
  }

  ghost predicate Safe(s: System) { Owners(s) && Sound(s) && Roomy(s) }

  lemma IndexOfAbsent(doc: seq<Record>, commandID: string)
    requires NoRecord(doc, commandID)
    ensures CommandIndex(doc, commandID) == |doc|
  {}

  /** A result for which there is a slot fails to be stored only if persisting fails. */
  lemma EnqueueFits(st: Store, deploymentID: string, result: Result, now: int, p: Persist)
    requires StoreKept(st) && |st.records| < MAX_RECORDS && NoRecord(st.records, result.commandID)
    requires ValidUUID(deploymentID) && ValidResult(result) && now > 0
    ensures var (after, outcome) := Enqueue(st, deploymentID, result, now, p);
      && StoreKept(after)
      && outcome == (if p.Persisted? then Committed else PersistFailed)
      && after.records == (if p.Persisted? then st.records + [Record(deploymentID, result, 0, now)] else st.records)
  {
    IndexOfAbsent(st.records, result.commandID);
    var doc := st.records + [Record(deploymentID, result, 0, now)];
    assert Kept(doc) by {
      assert Kept(st.records);
      forall r | r in doc ensures r in st.records || r == Record(deploymentID, result, 0, now) {}
    }
  }

  /** Counting one more attempt of a record keeps the document well formed and its commands as they are. */
  lemma UpdateKeeps(doc: seq<Record>, k: nat, r: Record)
    requires Kept(doc) && k < |doc|
    requires r == doc[k].(attempts := doc[k].attempts + 1, nextAttemptAt := r.nextAttemptAt)
      && r.nextAttemptAt != ZERO_TIME
    ensures Kept(doc[k := r])
    ensures forall c | NoRecord(doc, c) :: NoRecord(doc[k := r], c)
  {
    assert doc[k] in doc;
    forall x | x in doc[k := r] ensures x == r || x in doc {}
    hide ValidResult, ValidUUID;
  }

  lemma RetryKeeps(st: Store, deploymentID: string, commandID: string, now: int, p: Persist)
    requires StoreKept(st) && now > 0
    ensures StoreKept(Retry(st, deploymentID, commandID, now, p).0)
    ensures |Retry(st, deploymentID, commandID, now, p).0.records| == |st.records|
    ensures forall c | NoRecord(st.records, c) :: NoRecord(Retry(st, deploymentID, commandID, now, p).0.records, c)
  {
    var k := KeyIndex(st.records, Key(deploymentID, commandID));
    if k < |st.records| {
      assert Kept(st.records);
      var attempts := st.records[k].attempts + 1;
      BackoffMonotone(attempts, attempts);
      var r := st.records[k].(attempts := attempts, nextAttemptAt := now + Backoff(attempts));
      UpdateKeeps(st.records, k, r);
      hide Kept, NoRecord, Backoff, Key;
    }
  }

  lemma DeleteKeeps(st: Store, deploymentID: string, commandID: string, p: Persist)
    requires StoreKept(st)
    ensures StoreKept(Delete(st, deploymentID, commandID, p).0)
    ensures |Delete(st, deploymentID, commandID, p).0.records| <= |st.records|
    ensures forall c | NoRecord(st.records, c) :: NoRecord(Delete(st, deploymentID, commandID, p).0.records, c)
  {
    var k := KeyIndex(st.records, Key(deploymentID, commandID));
    if k < |st.records| {
      var doc := Without(st.records, k);
      assert Kept(st.records);
      forall x | x in doc ensures x in st.records {}
      assert Kept(doc);
    }
  }

  // ---------- the steps ----------

  predicate Fits(s: System, out: set<nat>, ending: Ending) {
    && (forall i | i in out :: i in s.srv.cmds && Live(s, i))
    && (ending.Report? ==> ValidResult(ending.result))
    && (ending.Report? ==> forall i | i in out :: ending.result.commandID == s.srv.cmds[i].order.commandID)
  }

  /** What a departure changes, without saying how it is computed. */
  ghost predicate Departed(s: System, out: set<nat>, ending: Ending, t: System) {
    && Shape(t.srv)
    && t.srv.closed == s.srv.closed && t.srv.ids == s.srv.ids
    && t.srv.awaiting == s.srv.awaiting && t.srv.store == s.srv.store
    && t.owner == s.owner && t.now == s.now
    && t.srv.cmds.Keys == s.srv.cmds.Keys
    && (forall i | i in s.srv.cmds :: t.srv.cmds[i].order == s.srv.cmds[i].order)
    && (forall i :: InQueue(t.srv, i) <==> InQueue(s.srv, i) && i !in out)
    && (forall i :: IsPending(t.srv, i) <==> IsPending(s.srv, i) && i !in out)
    && (forall i :: i in t.terms <==> i in s.terms || i in out)
    && (forall i | i in t.terms :: t.terms[i] == if i in out then Terminator(ending, false) else s.terms[i])
  }

  lemma LeaveDeparts(s: System, out: seq<nat>, ending: Ending)
    requires Shape(s.srv)
    ensures Departed(s, Members(out), ending, Leave(s, out, ending))
  {
    RemoveQueues(s.srv, Members(out));
    RemoveMembers(s.srv, Members(out));
    RemoveShape(s.srv, Members(out));
  }

  /** A step that leaves every id with its owner. */
  ghost predicate SameHolders(s: System, t: System) {
    && Shape(t.srv)
    && t.now >= s.now
    && t.owner == s.owner
    && t.srv.ids == s.srv.ids
    && t.srv.closed == s.srv.closed
    && t.srv.awaiting == s.srv.awaiting
    && t.srv.cmds.Keys == s.srv.cmds.Keys
    && (forall i | i in s.srv.cmds :: t.srv.cmds[i].order == s.srv.cmds[i].order)
    && (forall i | i in s.srv.cmds :: Held(t, i) <==> Held(s, i))
    && TermsApart(t)
  }

  lemma SameHoldersKeep(s: System, t: System)
    requires Owners(s) && SameHolders(s, t)
    ensures Owners(t)
  {
    hide Held, Waiting, Shape, ValidUUID;
  }

  /** What has to hold of one id. */
  ghost predicate OwnedRight(s: System, c: string) {
    && (c in s.owner ==> ValidUUID(c))
    && (c in s.srv.awaiting <==> c in s.owner && s.owner[c].Owing?)
    && (c in s.owner && s.owner[c].Holding? ==>
          Held(s, s.owner[c].id) && s.owner[c].id in s.srv.cmds && s.srv.cmds[s.owner[c].id].order.commandID == c)
    && (forall i | i in s.srv.cmds && s.srv.cmds[i].order.commandID == c && Held(s, i) ::
          c in s.owner && s.owner[c] == Holding(i))
  }

  /** A step that changes the owner of one id only. */
  ghost predicate ChangesOwner(s: System, t: System, c: string) {
    && Shape(t.srv)
    && t.now >= s.now
    && t.srv.ids == (if t.srv.closed then {} else t.owner.Keys)
    && t.owner - {c} == s.owner - {c}
    && t.srv.awaiting - {c} == s.srv.awaiting - {c}
    && (forall i | i in s.srv.cmds :: i in t.srv.cmds && t.srv.cmds[i].order == s.srv.cmds[i].order)
    && (forall i | i in t.srv.cmds && t.srv.cmds[i].order.commandID != c ::
          i in s.srv.cmds && (Held(t, i) <==> Held(s, i)))
    && TermsApart(t)
    && OwnedRight(t, c)
  }

  lemma SameElsewhere<V>(m: map<string, V>, n: map<string, V>, c: string)
    requires m - {c} == n - {c}
    ensures forall e | e != c :: e in m <==> e in n
    ensures forall e | e != c && e in m :: m[e] == n[e]
  {
    forall e | e != c ensures (e in m <==> e in n) && (e in m ==> m[e] == n[e]) {
      assert e in m <==> e in m - {c};
      assert e in n <==> e in n - {c};
    }
  }

  lemma ChangedOwnerKeeps(s: System, t: System, c: string)
    requires Owners(s) && ChangesOwner(s, t, c)
    ensures Owners(t)
  {
    SameElsewhere(t.owner, s.owner, c);
    SameElsewhere(t.srv.awaiting, s.srv.awaiting, c);
    hide Held, Waiting, Shape, ValidUUID;
  }

  lemma DepartureHolders(s: System, out: set<nat>, ending: Ending, t: System)
    requires TermsApart(s) && Fits(s, out, ending) && !ending.Drop?
    requires Departed(s, out, ending, t)
    ensures SameHolders(s, t)
  {
    hide InQueue, IsPending, Shape, ValidUUID, ValidResult;
  }

  lemma DepartureSound(s: System, out: set<nat>, ending: Ending, t: System)
    requires Sound(s) && Fits(s, out, ending) && Departed(s, out, ending, t)
    ensures Sound(t)
  {
    hide InQueue, IsPending, Shape, ValidUUID, ValidResult, Reportable;
  }

  lemma LeaveKeeps(s: System, out: seq<nat>, ending: Ending)
    requires Safe(s) && Fits(s, Members(out), ending) && !ending.Drop?
    ensures Safe(Leave(s, out, ending))
  {
    var t := Leave(s, out, ending);
    LeaveDeparts(s, out, ending);
    DepartureHolders(s, Members(out), ending, t);
    SameHoldersKeep(s, t);
    DepartureSound(s, Members(out), ending, t);
    assert Roomy(t);
  }

  // ---------- steps that move no id ----------

  /** Commands change only in what serving them changes. */
  ghost predicate Touched(srv: Srv, after: Srv) {
    && after == srv.(cmds := after.cmds)
    && after.cmds.Keys == srv.cmds.Keys
    && (forall i | i in srv.cmds :: after.cmds[i].id == srv.cmds[i].id && after.cmds[i].order == srv.cmds[i].order)
  }

  lemma TouchedShape(srv: Srv, after: Srv)
    requires Shape(srv) && Touched(srv, after)
    ensures Shape(after)
    ensures forall i :: InQueue(after, i) <==> InQueue(srv, i)
    ensures forall i :: IsPending(after, i) <==> IsPending(srv, i)
  {
    hide Ascending, OlderThanAll;
    forall k | k in after.pending ensures Matches(after, k) {
      assert Matches(srv, k);
    }
  }

  /** Endings of terminators stay what they were. */
  ghost predicate SameEndings(s: System, t: System) {
    && t.terms.Keys == s.terms.Keys
    && (forall i | i in s.terms :: t.terms[i].ending == s.terms[i].ending)
  }

  lemma TouchedHolders(s: System, t: System)
    requires TermsApart(s) && Shape(s.srv) && Touched(s.srv, t.srv) && SameEndings(s, t)
    requires t.owner == s.owner && t.now >= s.now
    ensures SameHolders(s, t)
  {
    TouchedShape(s.srv, t.srv);
    hide InQueue, IsPending, Shape;
  }

  lemma TouchedSound(s: System, t: System)
    requires Sound(s) && Touched(s.srv, t.srv) && SameEndings(s, t) && t.owner == s.owner
    ensures Sound(t)
  {
    hide Reportable, ValidResult, ValidUUID;
  }

  /** Serving, zeroing and the passage of time. */
  lemma QuietKeeps(s: System, t: System)
    requires Safe(s) && Touched(s.srv, t.srv) && SameEndings(s, t) && t.owner == s.owner && t.now >= s.now
    ensures Safe(t)
  {
    TouchedHolders(s, t);
    SameHoldersKeep(s, t);
    TouchedSound(s, t);
    assert Roomy(t);
  }

  lemma TakeFirstQueues(srv: Srv, d: string, now: int)
    requires Shape(srv) && QueueOf(srv, d) != []
    ensures var after := TakeFirst(srv, d, now);
      forall e | e in after.queue :: Ascending(after.queue[e]) && AllFor(after.cmds, e, after.queue[e])
  {
    hide Matches;
    var q := QueueOf(srv, d);
    assert Ascending(q) && AllFor(srv.cmds, d, q);
    assert Ascending(q[1..]) && forall i | i in q[1..] :: i in q;
  }

  lemma TakeFirstMatches(srv: Srv, d: string, now: int, k: PendingKey)
    requires Shape(srv) && PendingOf(srv, d).None? && QueueOf(srv, d) != []
    requires k in TakeFirst(srv, d, now).pending
    ensures Matches(TakeFirst(srv, d, now), k)
  {
    var q := QueueOf(srv, d);
    assert Ascending(q) && AllFor(srv.cmds, d, q);
    hide Shape, AllFor;
    if k.deviceSN == d {
      assert k == PendingKey(d, q[0]);
      assert OlderThanAll(q[0], q[1..]);
    } else {
      assert Matches(srv, k) by { assert Shape(srv); }
    }
  }

  lemma TakeFirstShape(srv: Srv, d: string, now: int)
    requires Shape(srv) && PendingOf(srv, d).None? && QueueOf(srv, d) != []
    ensures Shape(TakeFirst(srv, d, now))
  {
    var after := TakeFirst(srv, d, now);
    TakeFirstQueues(srv, d, now);
    forall k | k in after.pending ensures Matches(after, k) {
      TakeFirstMatches(srv, d, now, k);
    }
    hide Ascending, AllFor, Matches;
  }

  lemma TakeFirstMoves(srv: Srv, d: string, now: int)
    requires Shape(srv) && QueueOf(srv, d) != []
    ensures var after := TakeFirst(srv, d, now);
      && (forall i :: Waiting(after, i) <==> Waiting(srv, i))
      && after.cmds.Keys == srv.cmds.Keys
      && (forall i | i in srv.cmds :: after.cmds[i].order == srv.cmds[i].order)
  {
    hide Ascending, OlderThanAll;
    var q := QueueOf(srv, d);
    assert AllFor(srv.cmds, d, q);
    assert forall i :: i in q <==> i == q[0] || i in q[1..];
  }
}
