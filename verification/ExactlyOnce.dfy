/** Over every run: a queued command leaves exactly once, and is reported at most once. */
module ExactlyOnce {
  import opened Identifiers
  import opened ResultOutbox
  import opened SecretServer
  import opened Lifecycle
  import opened OwnershipInvariant
  import opened OwnershipSteps
  import opened OwnershipTheorems

  predicate HasLeft(exits: seq<Exit>, id: nat) { exists k | 0 <= k < |exits| :: exits[k].id == id }

  ghost predicate LeftOnce(exits: seq<Exit>) {
    forall a, b | 0 <= a < b < |exits| :: exits[a].id != exits[b].id
  }

  predicate IsOwing(s: System, c: string, id: nat) {
    c in s.owner && s.owner[c] == Owing(Some(id)) && c in s.srv.awaiting
  }

  predicate HasCommit(commits: seq<Commit>, id: nat) {
    exists k | 0 <= k < |commits| :: commits[k].origin == Some(id)
  }

  ghost predicate ReportedOnce(commits: seq<Commit>) {
    forall a, b | 0 <= a < b < |commits| && commits[a].origin.Some? :: commits[a].origin != commits[b].origin
  }

  /** A report that is on its way belongs to a command that left with that outcome and that
      nothing else will report. */
  ghost predicate OnItsWay(s: System, c: string, id: nat)
    requires c in s.srv.awaiting
  {
    && id in s.srv.cmds && s.srv.cmds[id].order.commandID == c
    && id !in s.terms && !HasCommit(s.commits, id)
    && Exit(id, FateOf(Report(s.srv.awaiting[c].result))) in s.exits
  }

  /** A command has left exactly when it is neither queued nor pending, and it left once. */
  ghost predicate ExitsMatch(s: System) {
    && LeftOnce(s.exits)
    && (forall i | i in s.srv.cmds :: Live(s, i) <==> !HasLeft(s.exits, i))
    && (forall e | e in s.exits :: e.id in s.srv.cmds)
  }

  ghost predicate EndingsMatch(s: System) {
    forall i | i in s.terms :: Exit(i, FateOf(s.terms[i].ending)) in s.exits && !HasCommit(s.commits, i)
  }

  ghost predicate OwedMatch(s: System) {
    forall c, i | IsOwing(s, c, i) :: OnItsWay(s, c, i)
  }

  ghost predicate CommitsMatch(s: System) {
    && ReportedOnce(s.commits)
    && (forall e | e in s.commits && e.origin.Some? :: Exit(e.origin.value, FateOf(Report(e.result))) in s.exits)
  }

  ghost predicate Accounted(s: System) {
    ExitsMatch(s) && EndingsMatch(s) && OwedMatch(s) && CommitsMatch(s)
  }

  // ---------- steps that neither end nor report a command ----------

  /** Nothing leaves and nothing is committed; commands may be added and endings completed. */
  ghost predicate SameAccount(s: System, t: System) {
    && t.exits == s.exits && t.commits == s.commits
    && (forall i | i in s.srv.cmds ::
          i in t.srv.cmds && t.srv.cmds[i].order == s.srv.cmds[i].order && (Live(t, i) <==> Live(s, i)))
    && (forall i | i in t.srv.cmds && i !in s.srv.cmds :: Live(t, i))
    && (forall i | i in t.terms :: i in s.terms && t.terms[i].ending == s.terms[i].ending)
    && (forall c, i | IsOwing(t, c, i) :: IsOwing(s, c, i) && t.srv.awaiting[c] == s.srv.awaiting[c])
  }

  lemma UnknownHasNotLeft(s: System, i: nat)
    requires ExitsMatch(s) && i !in s.srv.cmds
    ensures !HasLeft(s.exits, i)
  {
    hide Waiting;
    forall k | 0 <= k < |s.exits| ensures s.exits[k].id in s.srv.cmds {
      assert s.exits[k] in s.exits;
    }
  }

  lemma SameAccountKeeps(s: System, t: System)
    requires Accounted(s) && SameAccount(s, t)
    ensures Accounted(t)
  {
    forall i: nat | i !in s.srv.cmds ensures !HasLeft(s.exits, i) { UnknownHasNotLeft(s, i); }
    hide Waiting, HasLeft, HasCommit, LeftOnce, ReportedOnce;
    assert ExitsMatch(t) && EndingsMatch(t) && CommitsMatch(t) by { hide OwedMatch; }
    forall c, i | IsOwing(t, c, i) ensures OnItsWay(t, c, i) {
      hide ExitsMatch, CommitsMatch, EndingsMatch;
      assert IsOwing(s, c, i) && OnItsWay(s, c, i);
    }
  }

  lemma {:induction false} AppendExits(exits: seq<Exit>, out: seq<nat>, fate: Fate)
    requires LeftOnce(exits)
    requires forall a, b | 0 <= a < b < |out| :: out[a] != out[b]
    requires forall i | i in out :: !HasLeft(exits, i)
    ensures var after := exits + seq(|out|, k requires 0 <= k < |out| => Exit(out[k], fate));
      && LeftOnce(after)
      && (forall i: nat :: HasLeft(after, i) <==> HasLeft(exits, i) || i in out)
      && (forall e | e in exits :: e in after)
      && (forall i | i in out :: Exit(i, fate) in after)
      && (forall e | e in after :: e in exits || e.id in out)
  {
    var more := seq(|out|, k requires 0 <= k < |out| => Exit(out[k], fate));
    var after := exits + more;
    assert forall k | 0 <= k < |out| :: after[|exits| + k] == Exit(out[k], fate) && out[k] in out;
    forall i: nat ensures HasLeft(after, i) <==> HasLeft(exits, i) || i in out {
      if HasLeft(exits, i) {
        var k :| 0 <= k < |exits| && exits[k].id == i;
        assert after[k].id == i;
      }
      if i in out {
        var k :| 0 <= k < |out| && out[k] == i;
        assert after[|exits| + k].id == i;
      }
    }
    forall i | i in out ensures Exit(i, fate) in after {
      var k :| 0 <= k < |out| && out[k] == i;
      assert after[|exits| + k] == Exit(i, fate);
    }
    forall a, b | 0 <= a < b < |after| ensures after[a].id != after[b].id {
      if a < |exits| <= b {
        assert exits[a] == after[a] && HasLeft(exits, after[a].id);
      }
    }
  }

  predicate Distinct(out: seq<nat>) { forall a, b | 0 <= a < b < |out| :: out[a] != out[b] }

  /** A command that was reported has left. */
  lemma CommittedHaveLeft(s: System, i: nat)
    requires CommitsMatch(s) && HasCommit(s.commits, i)
    ensures HasLeft(s.exits, i)
  {
    var k :| 0 <= k < |s.commits| && s.commits[k].origin == Some(i);
    assert s.commits[k] in s.commits;
    var e := Exit(i, FateOf(Report(s.commits[k].result)));
    var x :| 0 <= x < |s.exits| && s.exits[x] == e;
  }

  /** The history of exits after a departure. */
  ghost predicate MoreExits(exits: seq<Exit>, out: set<nat>, fate: Fate, after: seq<Exit>) {
    && LeftOnce(after)
    && (forall i: nat :: HasLeft(after, i) <==> HasLeft(exits, i) || i in out)
    && (forall e | e in exits :: e in after)
    && (forall i | i in out :: Exit(i, fate) in after)
    && (forall e | e in after :: e in exits || e.id in out)
  }

  lemma DepartureExits(s: System, out: set<nat>, ending: Ending, t: System)
    requires ExitsMatch(s) && Departed(s, out, ending, t) && MoreExits(s.exits, out, FateOf(ending), t.exits)
    requires forall i | i in out :: i in s.srv.cmds
    ensures ExitsMatch(t)
  {
    hide InQueue, IsPending, Shape, HasLeft, LeftOnce;
  }

  lemma DepartureEndings(s: System, out: set<nat>, ending: Ending, t: System)
    requires Accounted(s) && Departed(s, out, ending, t) && MoreExits(s.exits, out, FateOf(ending), t.exits)
    requires forall i | i in out :: i in s.srv.cmds && Live(s, i)
    requires t.commits == s.commits
    ensures EndingsMatch(t)
  {
    forall i | i in out ensures !HasCommit(s.commits, i) {
      if HasCommit(s.commits, i) { CommittedHaveLeft(s, i); }
    }
    hide InQueue, IsPending, Shape, HasLeft, LeftOnce, OwedMatch, CommitsMatch, HasCommit;
  }

  lemma DepartureOwed(s: System, out: set<nat>, ending: Ending, t: System)
    requires Accounted(s) && Departed(s, out, ending, t) && MoreExits(s.exits, out, FateOf(ending), t.exits)
    requires forall i | i in out :: i in s.srv.cmds && Live(s, i)
    requires t.commits == s.commits
    ensures OwedMatch(t)
  {
    forall c, i | IsOwing(t, c, i) ensures OnItsWay(t, c, i) {
      assert IsOwing(s, c, i) && OnItsWay(s, c, i);
      var e := Exit(i, FateOf(Report(s.srv.awaiting[c].result)));
      var k :| 0 <= k < |s.exits| && s.exits[k] == e;
      assert HasLeft(s.exits, i);
      hide InQueue, IsPending, Shape, HasLeft, LeftOnce, EndingsMatch, CommitsMatch, HasCommit, OwedMatch;
    }
  }

  lemma DepartureAccounted(s: System, out: seq<nat>, ending: Ending, t: System)
    requires Accounted(s) && Distinct(out)
    requires forall i | i in out :: i in s.srv.cmds && Live(s, i)
    requires Departed(s, Members(out), ending, t)
    requires t.exits == s.exits + seq(|out|, k requires 0 <= k < |out| => Exit(out[k], FateOf(ending)))
    requires t.commits == s.commits
    ensures Accounted(t)
  {
    AppendExits(s.exits, out, FateOf(ending));
    assert forall i :: i in Members(out) <==> i in out;
    assert MoreExits(s.exits, Members(out), FateOf(ending), t.exits) by { hide HasLeft, LeftOnce, Departed; }
    hide Departed, Waiting, Members, HasLeft, LeftOnce, ExitsMatch, EndingsMatch, OwedMatch, ReportedOnce;
    DepartureExits(s, Members(out), ending, t);
    DepartureEndings(s, Members(out), ending, t);
    DepartureOwed(s, Members(out), ending, t);
  }

  // ---------- reports ----------

  lemma AppendCommit(commits: seq<Commit>, e: Commit)
    requires ReportedOnce(commits) && (e.origin.Some? ==> !HasCommit(commits, e.origin.value))
    ensures ReportedOnce(commits + [e])
    ensures forall i: nat :: HasCommit(commits + [e], i) <==> HasCommit(commits, i) || e.origin == Some(i)
  {
    forall i: nat ensures HasCommit(commits + [e], i) <==> HasCommit(commits, i) || e.origin == Some(i) {
      if HasCommit(commits, i) {
        var k :| 0 <= k < |commits| && commits[k].origin == Some(i);
        assert (commits + [e])[k].origin == Some(i);
      }
      assert (commits + [e])[|commits|] == e;
    }
    forall a, b | 0 <= a < b < |commits + [e]| && (commits + [e])[a].origin.Some?
      ensures (commits + [e])[a].origin != (commits + [e])[b].origin {
      if b == |commits| { assert commits[a].origin == (commits + [e])[a].origin; }
    }
  }

  /** A result is stored: its owner is gone and the history has one more commit. */
  ghost predicate Stored(s: System, u: System, e: Commit, t: System) {
    && t.exits == s.exits && t.commits == s.commits + [e]
    && t.srv.cmds == s.srv.cmds && t.srv.queue == s.srv.queue && t.srv.pending == s.srv.pending
    && t.terms == u.terms
    && t.owner == s.owner - {e.result.commandID}
    && (forall c | c in t.srv.awaiting :: c in s.srv.awaiting && t.srv.awaiting[c] == s.srv.awaiting[c])
  }

  lemma StoredKeeps(s: System, u: System, e: Commit, t: System)
    requires Accounted(s) && Stored(s, u, e, t)
    requires forall i | i in u.terms :: i in s.terms && u.terms[i] == s.terms[i]
    requires e.origin.Some? ==>
      && !HasCommit(s.commits, e.origin.value) && e.origin.value !in u.terms
      && e.origin.value in s.srv.cmds && s.srv.cmds[e.origin.value].order.commandID == e.result.commandID
      && Exit(e.origin.value, FateOf(Report(e.result))) in s.exits
    ensures Accounted(t)
  {
    AppendCommit(s.commits, e);
    assert forall i :: Live(t, i) <==> Live(s, i);
    hide Waiting, HasLeft, HasCommit, LeftOnce, ReportedOnce;
    assert ExitsMatch(t) && EndingsMatch(t) && CommitsMatch(t) by { hide OwedMatch; }
    forall c, i | IsOwing(t, c, i) ensures OnItsWay(t, c, i) {
      hide ExitsMatch, EndingsMatch, CommitsMatch;
      assert IsOwing(s, c, i) && OnItsWay(s, c, i);
    }
  }

  /** A result could not be stored and waits. */
  lemma WaitingKeeps(s: System, u: System, t: System, id: nat, c: string)
    requires Accounted(s) && id in s.terms && id in s.srv.cmds && s.terms[id].ending.Report?
    requires u.terms == s.terms - {id} && t.terms == u.terms
    requires c == s.terms[id].ending.result.commandID == s.srv.cmds[id].order.commandID && c !in s.srv.awaiting
    requires t.exits == s.exits && t.commits == s.commits
    requires t.srv.cmds == s.srv.cmds && t.srv.queue == s.srv.queue && t.srv.pending == s.srv.pending
    requires t.owner == s.owner[c := Owing(Some(id))]
    requires t.srv.awaiting
      == s.srv.awaiting[c := AwaitingResult(s.srv.cmds[id].order.deploymentID, s.terms[id].ending.result)]
    ensures Accounted(t)
  {
    assert forall i :: Live(t, i) <==> Live(s, i);
    hide Waiting, HasLeft, HasCommit, LeftOnce, ReportedOnce;
    assert ExitsMatch(t) && EndingsMatch(t) && CommitsMatch(t) by { hide OwedMatch; }
    forall e, i | IsOwing(t, e, i) ensures OnItsWay(t, e, i) {
      hide ExitsMatch, CommitsMatch;
      if e != c { assert IsOwing(s, e, i) && OnItsWay(s, e, i); }
    }
  }

  lemma EndAccounted(s: System, id: nat, p: Persist)
    requires Accounted(s) && Safe(s) && EndingEnabled(s, id, EndCommand(p)) && s.terms[id].ending.Report?
    ensures Accounted(Ended(s, id, p))
  {
    var order := s.srv.cmds[id].order;
    var result := s.terms[id].ending.result;
    var u := s.(terms := s.terms - {id});
    var t := Ended(s, id, p);
    EndHolds(s, id);
    assert result.commandID == order.commandID && ValidResult(result) && ValidUUID(order.deploymentID);
    assert result.commandID !in s.srv.awaiting;
    hide Sound, Reportable, ValidUUID, ValidResult;
    SendOutcome(s, u, Some(id), order.deploymentID, result, p);
    assert t == SendResult(u, Some(id), order.deploymentID, result, p);
    hide Ended, SendResult, Owners, Roomy, StoreKept, Reports;
    if p.Persisted? {
      assert Exit(id, FateOf(Report(result))) in s.exits && !HasCommit(s.commits, id) by { assert EndingsMatch(s); }
      hide Accounted, FateOf, HasCommit;
      StoredKeeps(s, u, Commit(Some(id), order.deploymentID, result), t);
    } else {
      hide Accounted;
      WaitingKeeps(s, u, t, id, result.commandID);
    }
  }

  lemma QuietEndSame(s: System, id: nat, p: Persist)
    requires EndingEnabled(s, id, EndCommand(p)) && !s.terms[id].ending.Report?
    ensures SameAccount(s, Ended(s, id, p))
  {
    var t := Ended(s, id, p);
    assert forall i :: Live(t, i) <==> Live(s, i);
    hide Waiting;
  }

  lemma FlushSame(s: System, c: string, t: System)
    requires t == s.(srv := s.srv.(store := t.srv.store))
    ensures SameAccount(s, t)
  {
    assert forall i :: Live(t, i) <==> Live(s, i);
    hide Waiting;
  }

  lemma FlushAccounted(s: System, c: string, p: Persist)
    requires Accounted(s) && Owners(s) && Sound(s) && Roomy(s) && OutboxEnabled(s, Flush(c, p))
    ensures Accounted(Flushed(s, c, p))
  {
    var w := s.srv.awaiting[c];
    var origin := s.owner[c].origin;
    var t := Flushed(s, c, p);
    hide Accounted, Owners, Roomy;
    FlushMoves(s, c, p);
    assert w.result.commandID == c;
    hide Flushed, Sound, StoreKept, SameAccount;
    if p.Persisted? {
      if origin.Some? { OwedIsOnItsWay(s, c, origin.value); }
      hide HasCommit, FateOf;
      StoredKeeps(s, s, Commit(origin, w.deploymentID, w.result), t);
    } else {
      FlushSame(s, c, t);
      SameAccountKeeps(s, t);
    }
  }

  lemma OwedIsOnItsWay(s: System, c: string, i: nat)
    requires Accounted(s) && IsOwing(s, c, i)
    ensures OnItsWay(s, c, i)
  {
    hide ExitsMatch, EndingsMatch, CommitsMatch;
  }

  lemma UnreportedSame(s: System, t: System, c: string)
    requires t == s.(srv := t.srv, owner := s.owner[c := Owing(None)])
    requires t.srv == s.srv.(awaiting := t.srv.awaiting, store := t.srv.store)
    requires t.srv.awaiting - {c} == s.srv.awaiting - {c}
    ensures SameAccount(s, t)
  {
    assert forall i :: Live(t, i) <==> Live(s, i);
    SameElsewhere(t.srv.awaiting, s.srv.awaiting, c);
    hide Waiting;
  }

  lemma ReportAccounted(s: System, c: string, code: string, p: Persist)
    requires Accounted(s) && Owners(s) && Sound(s) && Roomy(s) && ProcessEnabled(s, c, ReportFailure(code, p))
    ensures Accounted(ProcessApply(s, c, ReportFailure(code, p)))
  {
    hide Accounted, Owners, Roomy, Reports, SameAccount;
    var order := s.owner[c].stage.order;
    var result := order.Reported("failed", code, -1);
    var t := SendResult(s, None, order.deploymentID, result, p);
    FailureIsValid(order, code, -1);
    ReportsAlone(s, c);
    assert ValidUUID(order.deploymentID) && order.commandID == c;
    hide Sound, Reportable, ValidUUID, ValidResult, ValidErrorCode;
    SendOutcome(s, s, None, order.deploymentID, result, p);
    hide SendResult, StoreKept;
    if p.Persisted? {
      hide HasCommit, FateOf;
      StoredKeeps(s, s, Commit(None, order.deploymentID, result), t);
    } else {
      UnreportedSame(s, t, c);
      SameAccountKeeps(s, t);
    }
  }

  lemma AppendedSame(s: System, t: System, c: string, id: nat)
    requires InStage(s, c) && s.owner[c].stage.Superseding? && Appended(s, t, c, id)
    ensures SameAccount(s, t)
  {
    hide Shape, InQueue, IsPending;
  }

  lemma StageSame(s: System, c: string, stage: Stage)
    ensures SameAccount(s, SetStage(s, c, stage))
  {
    hide Waiting;
  }

  lemma QueueSame(s: System, c: string, payload: string, lease: int)
    requires Shape(s.srv) && ProcessEnabled(s, c, QueueCommand(payload, lease))
    ensures SameAccount(s, Queue(s, c, payload, lease))
  {
    hide SameAccount, Shape, Appended;
    if CanQueue(s, c, payload, lease) {
      QueueAppends(s, c, payload, lease);
      hide Queue, CanQueue;
      AppendedSame(s, Queue(s, c, payload, lease), c, Queue(s, c, payload, lease).srv.cmdID);
    } else {
      StageSame(s, c, Abandoned);
    }
  }

  lemma ClosingExits(s: System, out: seq<nat>)
    requires ExitsMatch(s) && Enumerates(out, AllWaiting(s.srv))
    ensures MoreExits(s.exits, AllWaiting(s.srv), Discarded, Closing(s, out).exits)
  {
    var after := Closing(s, out).exits;
    var more := seq(|out|, k requires 0 <= k < |out| => Exit(out[k], FateOf(Drop)));
    assert after == s.exits + more by { hide ExitsMatch, AllWaiting, Enumerates; }
    hide Closing;
    assert forall i :: i in AllWaiting(s.srv) <==> i in out by {
      assert forall i :: i in Members(out) <==> i in out;
      hide AllWaiting;
    }
    assert forall i | i in out :: !HasLeft(s.exits, i) by { hide HasLeft, LeftOnce, InQueue, IsPending, Enumerates; }
    hide AllWaiting, ExitsMatch;
    AppendExits(s.exits, out, FateOf(Drop));
    hide HasLeft, LeftOnce, Enumerates;
  }

  lemma CloseAccounted(s: System, out: seq<nat>)
    requires Accounted(s) && Shape(s.srv) && Enumerates(out, AllWaiting(s.srv))
    ensures Accounted(Closing(s, out))
  {
    var t := Closing(s, out);
    assert t.commits == s.commits;
    hide Shape, Enumerates, ShutDown, MoreExits, EndingsMatch, OwedMatch, CommitsMatch, AllWaiting;
    ClosingShutsDown(s, out);
    ClosingExits(s, out);
    hide Closing;
    ShutAccounted(s, t);
  }

  lemma ShutEndings(s: System, out: set<nat>, t: System)
    requires Accounted(s) && ShutDown(s, t, out) && forall i | i in out :: i in s.srv.cmds && Live(s, i)
    requires MoreExits(s.exits, out, Discarded, t.exits) && t.commits == s.commits
    ensures EndingsMatch(t)
  {
    forall i | i in out ensures !HasCommit(s.commits, i) {
      if HasCommit(s.commits, i) { CommittedHaveLeft(s, i); }
    }
    hide InQueue, IsPending, HasLeft, LeftOnce, OwedMatch, CommitsMatch, HasCommit;
  }

  lemma ShutOwed(s: System, out: set<nat>, t: System)
    requires Accounted(s) && ShutDown(s, t, out) && forall i | i in out :: i in s.srv.cmds && Live(s, i)
    requires MoreExits(s.exits, out, Discarded, t.exits) && t.commits == s.commits
    ensures OwedMatch(t)
  {
    forall c, i | IsOwing(t, c, i) ensures OnItsWay(t, c, i) {
      assert IsOwing(s, c, i) && OnItsWay(s, c, i);
      var e := Exit(i, FateOf(Report(s.srv.awaiting[c].result)));
      var k :| 0 <= k < |s.exits| && s.exits[k] == e;
      assert HasLeft(s.exits, i);
      hide InQueue, IsPending, HasLeft, LeftOnce, EndingsMatch, CommitsMatch, HasCommit, OwedMatch;
    }
  }

  lemma ShutAccounted(s: System, t: System)
    requires Accounted(s) && ShutDown(s, t, AllWaiting(s.srv))
    requires MoreExits(s.exits, AllWaiting(s.srv), Discarded, t.exits) && t.commits == s.commits
    ensures Accounted(t)
  {
    assert forall i :: !Live(t, i);
    assert ExitsMatch(t) by { hide InQueue, IsPending, HasLeft, LeftOnce, EndingsMatch, OwedMatch, CommitsMatch; }
    assert CommitsMatch(t) by { hide InQueue, IsPending, HasLeft, LeftOnce, EndingsMatch, OwedMatch, ExitsMatch; }
    hide ShutDown, MoreExits, InQueue, IsPending, ExitsMatch, EndingsMatch, OwedMatch, CommitsMatch;
    ShutEndings(s, AllWaiting(s.srv), t);
    ShutOwed(s, AllWaiting(s.srv), t);
  }

  // ---------- departures ----------

  lemma LeaveAccounted(s: System, out: seq<nat>, ending: Ending)
    requires Accounted(s) && Shape(s.srv) && Distinct(out)
    requires forall i | i in out :: i in s.srv.cmds && Live(s, i)
    ensures Accounted(Leave(s, out, ending))
  {
    var t := Leave(s, out, ending);
    LeaveDeparts(s, out, ending);
    assert t.commits == s.commits;
    assert t.exits == s.exits + seq(|out|, k requires 0 <= k < |out| => Exit(out[k], FateOf(ending)));
    hide Accounted, Shape, Departed, Leave, Waiting, FateOf;
    DepartureAccounted(s, out, ending, t);
  }

  lemma OneAccounted(s: System, id: nat, ending: Ending)
    requires Accounted(s) && Shape(s.srv) && id in s.srv.cmds && Live(s, id)
    ensures Accounted(Leave(s, [id], ending))
  {
    hide Accounted, Shape, Waiting;
    LeaveAccounted(s, [id], ending);
  }

  /** Steps that touch commands, writers and the trail only. */
  ghost predicate Elsewhere(s: System, t: System) {
    && t.exits == s.exits && t.commits == s.commits && t.terms.Keys == s.terms.Keys
    && (forall i | i in s.terms :: t.terms[i].ending == s.terms[i].ending)
    && t.srv.queue == s.srv.queue && t.srv.pending == s.srv.pending && t.srv.awaiting == s.srv.awaiting
    && t.owner == s.owner
    && t.srv.cmds.Keys == s.srv.cmds.Keys
    && (forall i | i in s.srv.cmds :: t.srv.cmds[i].order == s.srv.cmds[i].order)
  }

  lemma ElsewhereKeeps(s: System, t: System)
    requires Accounted(s) && Elsewhere(s, t)
    ensures Accounted(t)
  {
    assert SameAccount(s, t) by {
      hide Accounted;
      assert forall i :: Live(t, i) <==> Live(s, i);
      hide Waiting;
    }
    hide Accounted, SameAccount, Elsewhere;
    SameAccountKeeps(s, t);
  }

  lemma ReleaseElsewhere(s: System, id: nat)
    ensures Elsewhere(s, s.(srv := ReleaseWriter(s.srv, id)))
    ensures Elsewhere(s, s.(srv := BeginWrite(s.srv, id).0))
  {
    assert IsPending(s.srv, id) ==> id in s.srv.cmds;
    hide IsPending;
  }

  lemma ServedElsewhere(s: System, id: nat)
    ensures Elsewhere(s, s.(srv := MarkServed(s.srv, id)))
  {
    assert IsPending(s.srv, id) ==> id in s.srv.cmds;
    hide IsPending;
  }

  lemma FailAccounted(s: System, id: nat, code: string)
    requires Accounted(s) && Shape(s.srv) && id in s.srv.cmds
    ensures Accounted(EndWriter(FailServed(s, id, code), id)) && Accounted(FailServed(s, id, code))
    ensures Accounted(EndWriter(DiscardServed(s, id), id))
  {
    hide Accounted, Shape, IsPending, Leave, Elsewhere;
    if IsPending(s.srv, id) {
      OneAccounted(s, id, Report(s.srv.cmds[id].order.Reported("failed", code, -1)));
      OneAccounted(s, id, Discard);
    }
    WritersElsewhere(FailServed(s, id, code), EndWriter(FailServed(s, id, code), id));
    WritersElsewhere(DiscardServed(s, id), EndWriter(DiscardServed(s, id), id));
    ElsewhereKeeps(FailServed(s, id, code), EndWriter(FailServed(s, id, code), id));
    ElsewhereKeeps(DiscardServed(s, id), EndWriter(DiscardServed(s, id), id));
  }

  lemma WritersElsewhere(s: System, t: System)
    requires t == s.(writers := t.writers, trail := t.trail, worker := t.worker, owed := t.owed, now := t.now)
    ensures Elsewhere(s, t)
  {}

  // ---------- every step ----------

  lemma ProcessAccounted(s: System, c: string, act: ProcessStep)
    requires Accounted(s) && Safe(s) && ProcessEnabled(s, c, act)
    ensures Accounted(ProcessApply(s, c, act))
  {
    assert Shape(s.srv);
    hide Accounted, Owners, Sound, Roomy, Shape;
    match act {
      case ReserveID =>
        assert SameAccount(s, Reserved(s, c)) by { ReservedSame(s, c); }
        SameAccountKeeps(s, Reserved(s, c));
      case CloudClaims(claim) => StageSame(s, c, Ordered(OrderOf(claim))); SameAccountKeeps(s, ProcessApply(s, c, act));
      case SupersedeOthers(out) => SupersedeAccounted(s, c, out);
      case ReportFailure(code, p) => ReportAccounted(s, c, code, p);
      case QueueCommand(payload, lease) =>
        QueueSame(s, c, payload, lease);
        SameAccountKeeps(s, Queue(s, c, payload, lease));
      case ReleaseID => ReleasedSame(s, c); SameAccountKeeps(s, Released(s, c));
    }
  }

  lemma GrantedSame(s: System, t: System)
    requires t == s.(srv := s.srv.(ids := t.srv.ids), owner := t.owner)
    requires forall c, i | IsOwing(t, c, i) :: IsOwing(s, c, i)
    ensures SameAccount(s, t)
  {
    assert forall i :: Live(t, i) <==> Live(s, i);
    hide Waiting;
  }

  lemma ReservedSame(s: System, c: string)
    ensures SameAccount(s, Reserved(s, c))
  {
    if Reserve(s.srv, c).1 { ReserveGrants(s.srv, c); }
    hide Reserve, SameAccount;
    GrantedSame(s, Reserved(s, c));
  }

  lemma ReleasedSame(s: System, c: string)
    ensures SameAccount(s, Released(s, c))
  {
    assert forall i :: Live(Released(s, c), i) <==> Live(s, i);
    hide Waiting;
  }

  lemma SupersedeAccounted(s: System, c: string, out: seq<nat>)
    requires Accounted(s) && Shape(s.srv) && ProcessEnabled(s, c, SupersedeOthers(out))
    ensures Accounted(ProcessApply(s, c, SupersedeOthers(out)))
  {
    var t := Leave(s, out, Discard);
    var stage := Superseding(s.owner[c].stage.order);
    forall i | i in out ensures i in s.srv.cmds && Live(s, i) { assert i in Members(out); }
    hide Accounted, Shape, Leave, Waiting, SameAccount;
    LeaveAccounted(s, out, Discard);
    StageSame(t, c, stage);
    SameAccountKeeps(t, SetStage(t, c, stage));
  }

  lemma WriterAccounted(s: System, id: nat, does: WriterStep)
    requires Accounted(s) && Shape(s.srv) && WriterEnabled(s, id, does)
    ensures Accounted(WriterApply(s, id, does))
  {
    var t := WriterApply(s, id, does);
    hide Accounted, Shape, FailServed, DiscardServed, Elsewhere, ValidErrorCode, RecheckCode, LeaseBoundsWrite, Wire;
    hide IsPending;
    match does {
      case CheckDevice(code) =>
        FailAccounted(s, id, code);
        if code == "" { WritersElsewhere(s, t); ElsewhereKeeps(s, t); }
      case RecheckClaim(answer) => RecheckAccounted(s, id, answer);
      case CheckLease => LeaseAccounted(s, id);
      case RecheckDevice(code) =>
        FailAccounted(s, id, code);
        if code == "" { RecompatElsewhere(s, id); ElsewhereKeeps(s, t); }
      case StartWrite => BeginAccounted(s, id);
      case WriteSome(upTo) => WritersElsewhere(s, t); ElsewhereKeeps(s, t);
      case FinishWrite => CompleteElsewhere(s, id); ElsewhereKeeps(s, t);
      case BreakWrite(timeout) =>
        FailAccounted(s, id, "network_unavailable");
        if !timeout { GiveBack(s, id); }
    }
  }

  lemma RecompatElsewhere(s: System, id: nat)
    requires id in s.writers && s.writers[id].Rechecked? && id in s.srv.cmds
    ensures Elsewhere(s, Recompat(s, id, ""))
  {}

  lemma CompleteElsewhere(s: System, id: nat)
    requires id in s.writers && s.writers[id].Writing?
    ensures Elsewhere(s, Complete(s, id))
  {
    ServedElsewhere(s, id);
    hide MarkServed;
  }

  lemma GiveBack(s: System, id: nat)
    requires Accounted(s)
    ensures Accounted(EndWriter(s.(srv := ReleaseWriter(s.srv, id)), id))
  {
    ReleaseElsewhere(s, id);
    hide Accounted, ReleaseWriter;
    ElsewhereKeeps(s, EndWriter(s.(srv := ReleaseWriter(s.srv, id)), id));
  }

  lemma RecheckAccounted(s: System, id: nat, answer: RecheckAnswer)
    requires Accounted(s) && Shape(s.srv) && id in s.srv.cmds
    ensures Accounted(Recheck(s, id, answer))
  {
    hide Accounted, Shape, FailServed, DiscardServed, Elsewhere, RecheckCode, ReleaseWriter;
    FailAccounted(s, id, "");
    GiveBack(s, id);
    if RecheckCode(s.srv.cmds[id], answer, s.now) == "" && answer.Answer? {
      WritersElsewhere(s, Recheck(s, id, answer));
      ElsewhereKeeps(s, Recheck(s, id, answer));
    }
  }

  lemma LeaseAccounted(s: System, id: nat)
    requires Accounted(s) && id in s.writers && s.writers[id].Leased?
    ensures Accounted(Lease(s, id))
  {
    hide Accounted, Elsewhere, ReleaseWriter;
    GiveBack(s, id);
    if LeaseBoundsWrite(s.writers[id].lease, s.now) {
      WritersElsewhere(s, Lease(s, id));
      ElsewhereKeeps(s, Lease(s, id));
    }
  }

  lemma BeginAccounted(s: System, id: nat)
    requires Accounted(s)
    ensures Accounted(Begin(s, id))
  {
    ReleaseElsewhere(s, id);
    hide Accounted, BeginWrite;
    assert Elsewhere(s, Begin(s, id));
    ElsewhereKeeps(s, Begin(s, id));
  }

  lemma EndingAccounted(s: System, id: nat, ends: EndingStep)
    requires Accounted(s) && Safe(s) && EndingEnabled(s, id, ends)
    ensures Accounted(EndingApply(s, id, ends))
  {
    assert Shape(s.srv);
    hide Accounted, Owners, Sound, Roomy, Shape, Leave, IsPending, InQueue;
    match ends {
      case PreServeTimer => if InQueue(s.srv, id) { OneAccounted(s, id, Discard); }
      case DeadlineTimer => hide FailServed, EndWriter; FailAccounted(s, id, "network_unavailable");
      case Zero => ZeroElsewhere(s, id); hide Zeroed, Elsewhere; ElsewhereKeeps(s, Zeroed(s, id));
      case EndCommand(p) => EndCommandAccounted(s, id, p);
    }
  }

  lemma ZeroElsewhere(s: System, id: nat)
    requires id in s.terms
    ensures Elsewhere(s, Zeroed(s, id))
  {}

  lemma EndCommandAccounted(s: System, id: nat, p: Persist)
    requires Accounted(s) && Safe(s) && EndingEnabled(s, id, EndCommand(p))
    ensures Accounted(Ended(s, id, p))
  {
    hide Accounted, Safe, Ended, SameAccount;
    if s.terms[id].ending.Report? {
      EndAccounted(s, id, p);
    } else {
      QuietEndSame(s, id, p);
      SameAccountKeeps(s, Ended(s, id, p));
    }
  }

  lemma AckAccounted(s: System, key: PendingKey, returnCode: int)
    requires Accounted(s) && Shape(s.srv)
    ensures Accounted(Acked(s, key, returnCode))
  {
    match Completion(s.srv, key, returnCode) {
      case None =>
      case Some(result) =>
        var id := s.srv.pending[key];
        assert Matches(s.srv, key);
        assert IsPending(s.srv, id) && id in s.srv.cmds;
        hide Accounted, Shape, IsPending, InQueue, Matches;
        OneAccounted(s, id, Report(result));
        hide Leave, Elsewhere;
        WritersElsewhere(Leave(s, [id], Report(result)), Acked(s, key, returnCode));
        ElsewhereKeeps(Leave(s, [id], Report(result)), Acked(s, key, returnCode));
    }
  }

  lemma PollAccounted(s: System, d: string)
    requires Accounted(s) && Shape(s.srv)
    ensures Accounted(Polled(s, d))
  {
    hide Accounted, Shape;
    if PendingOf(s.srv, d).Some? {
      PendingIsLive(s.srv, d);
      var id := PendingOf(s.srv, d).value;
      var outcome := ClaimWriter(s.srv, d, s.now).1;
      if outcome.Exhausted? {
        hide PendingOf, Leave, IsPending;
        OneAccounted(s, id, Report(NetworkFailure(s, id)));
      } else {
        hide PendingOf, IsPending;
        assert Elsewhere(s, Polled(s, d)) by { hide Spent, NetworkFailure, QueueOf; }
        hide Polled, Elsewhere;
        ElsewhereKeeps(s, Polled(s, d));
      }
    } else if QueueOf(s.srv, d) != [] {
      TakenCalm(s, d);
      assert Polled(s, d).exits == s.exits && Polled(s, d).commits == s.commits;
      hide Polled, PendingOf, QueueOf;
      CalmSame(s, Polled(s, d));
      SameAccountKeeps(s, Polled(s, d));
    }
  }

  lemma CalmSame(s: System, t: System)
    requires Calm(s, t) && t.exits == s.exits && t.commits == s.commits
    ensures SameAccount(s, t)
  {
    hide Waiting, Shape;
  }

  lemma DeliveryAccounted(s: System, part: OutboxStep)
    requires Accounted(s) && Safe(s) && OutboxEnabled(s, part)
    ensures Accounted(OutboxApply(s, part))
  {
    hide Accounted, Owners, Sound, Roomy, Flushed, Elsewhere, Delete, Retry;
    match part {
      case Flush(c, p) => FlushAccounted(s, c, p);
      case _ =>
        WorkerElsewhere(s, part);
        ElsewhereKeeps(s, OutboxApply(s, part));
    }
  }

  lemma WorkerElsewhere(s: System, part: OutboxStep)
    requires OutboxEnabled(s, part) && !part.Flush?
    ensures Elsewhere(s, OutboxApply(s, part))
  {
    hide Delete, Retry;
  }

  lemma StepAccounted(s: System, step: Step)
    requires Accounted(s) && Safe(s) && Enabled(s, step)
    ensures Accounted(Apply(s, step))
  {
    assert Shape(s.srv);
    hide Accounted, Safe, Shape, ProcessEnabled, ProcessApply, WriterEnabled, WriterApply, EndingEnabled, EndingApply;
    hide OutboxEnabled, OutboxApply;
    hide Polled, Acked, Closing, Enumerates, Elsewhere;
    match step
    case Tick(_) => WritersElsewhere(s, Apply(s, step)); ElsewhereKeeps(s, Apply(s, step));
    case Process(c, act) => ProcessAccounted(s, c, act);
    case Poll(d) => PollAccounted(s, d);
    case Serving(id, does) => WriterAccounted(s, id, does);
    case Ack(d, localID, returnCode) => AckAccounted(s, PendingKey(d, localID), returnCode);
    case EndingOf(id, ends) => EndingAccounted(s, id, ends);
    case Delivery(part) => DeliveryAccounted(s, part);
    case CloseServer(out) => CloseAccounted(s, out);
  }

  lemma {:induction false} RunKeepsAccounted(s: System, steps: seq<Step>, t: System)
    requires Accounted(s) && Safe(s) && Run(s, steps, t)
    ensures Accounted(t)
    decreases |steps|
  {
    hide Accounted, Safe, Apply, Enabled;
    if steps != [] {
      StepAccounted(s, steps[0]);
      StepKeepsSafe(s, steps[0]);
      RunKeepsAccounted(Apply(s, steps[0]), steps[1..], t);
    }
  }

  lemma InitIsAccounted(s: System)
    requires Init(s)
    ensures Accounted(s)
  {
    hide Reopens;
  }

  lemma ReachableIsAccounted(t: System)
    requires Reachable(t)
    ensures Accounted(t)
  {
    hide Safe, Init, Run, Accounted;
    var s, steps :| Init(s) && Run(s, steps, t);
    InitIsSafe(s);
    InitIsAccounted(s);
    RunKeepsAccounted(s, steps, t);
  }

  // ---------- the theorem ----------

  /** A command that is gone left once; one that is queued or pending has not left. */
  ghost predicate LeavesExactlyOnce(s: System, id: nat) {
    if Live(s, id) then
      forall k | 0 <= k < |s.exits| :: s.exits[k].id != id
    else
      exists k | 0 <= k < |s.exits| :: OnlyExit(s.exits, k, id)
  }

  ghost predicate OnlyExit(exits: seq<Exit>, k: nat, id: nat)
    requires k < |exits|
  {
    exits[k].id == id && forall l | 0 <= l < |exits| && l != k :: exits[l].id != id
  }

  /** A stored report agrees with the one fate of its command, which is not Discarded. */
  ghost predicate ReportMatchesFate(s: System, e: Commit) {
    e.origin.Some? ==>
      && Exit(e.origin.value, if e.result.status == "applied" then Applied else Failed) in s.exits
      && Exit(e.origin.value, Discarded) !in s.exits
  }

  lemma OneFate(exits: seq<Exit>)
    requires LeftOnce(exits)
    ensures forall x, y | x in exits && y in exits && x.id == y.id :: x.fate == y.fate
  {}

  /** Under every interleaving, a command that was queued leaves exactly once, as applied, failed or
      discarded; at most one report of it is stored, with that outcome, and none if it was discarded. */
  lemma CommandsLeaveExactlyOnce(s: System)
    requires Reachable(s)
    ensures forall id | id in s.srv.cmds :: LeavesExactlyOnce(s, id)
    ensures ReportedOnce(s.commits)
    ensures forall e | e in s.commits :: ReportMatchesFate(s, e)
  {
    ReachableIsAccounted(s);
    OneFate(s.exits);
    hide Reachable, Waiting, EndingsMatch, OwedMatch, ReportedOnce;
    forall id | id in s.srv.cmds ensures LeavesExactlyOnce(s, id) {
      hide CommitsMatch;
      if HasLeft(s.exits, id) {
        var k :| 0 <= k < |s.exits| && s.exits[k].id == id;
        assert OnlyExit(s.exits, k, id);
      }
    }
  }
}
