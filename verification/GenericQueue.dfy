/** The generic command queue: local ids shared with the secret queue, and the cloud ids in flight. */
module GenericQueue {
  import opened Identifiers
  import opened Text
  import opened ClockCodec

  datatype Cmd = Cmd(id: nat, command: string, cloudID: string, caption: string)

  datatype Key = Key(deviceSN: string, localID: nat)

  /** What the server holds under its lock for generic commands. */
  datatype Board = Board(cmdID: nat, queue: map<string, seq<Cmd>>, pending: map<Key, Cmd>, cloudIDs: set<string>)

  function QueueOf(b: Board, deviceSN: string): seq<Cmd> { if deviceSN in b.queue then b.queue[deviceSN] else [] }

  function UpToSpace(s: string): (r: string)
    ensures |r| <= |s| && (s != "" && !IsSpace(s[0]) ==> r != "")
  {
    if s == "" || IsSpace(s[0]) then "" else [s[0]] + UpToSpace(s[1..])
  }

  /** strings.Fields on ASCII text. */
  function Words(s: string): seq<string>
    decreases |s|
  {
    if s == "" then []
    else if IsSpace(s[0]) then Words(s[1..])
    else [UpToSpace(s)] + Words(s[|UpToSpace(s)|..])
  }

  predicate Starts(command: string, word: string) { Words(command) != [] && Words(command)[0] == word }

  /** The two references that the delivery path takes over. */
  predicate IsReference(command: string) {
    Starts(command, "DEPLOY_BIOMETRIC_ASSET") || Starts(command, "DELETE_BIOMETRIC_ASSET")
  }

  /** A deployment reference that the delivery path does not take: it reports it as failed instead. */
  predicate IsInvalidDeployment(deviceSN: string, cmd: Cmd) {
    Starts(cmd.command, "DEPLOY_BIOMETRIC_ASSET")
    && !(ValidUUID(cmd.cloudID) && |Words(cmd.command)| == 2 && ValidUUID(Words(cmd.command)[1])
       && ValidIdentifier(deviceSN))
  }

  // ---------- the critical sections ----------

  function Append(b: Board, deviceSN: string, cmd: Cmd): Board {
    b.(cmdID := cmd.id, queue := b.queue[deviceSN := QueueOf(b, deviceSN) + [cmd]])
  }

  /** enqueueADMSCommand: a cloud command that is already in flight is not queued again. */
  function Enqueue(b: Board, deviceSN: string, command: string, cloudID: string, caption: string): (Board, nat) {
    if cloudID != "" && cloudID in b.cloudIDs then (b, 0)
    else
      var cmd := Cmd(b.cmdID + 1, command, cloudID, caption);
      var after := Append(b, deviceSN, cmd);
      (if cloudID != "" then after.(cloudIDs := b.cloudIDs + {cloudID}) else after, cmd.id)
  }

  function CommandAt(q: seq<Cmd>, command: string): (k: nat)
    ensures k <= |q|
    ensures k < |q| ==> q[k].command == command
    ensures forall j | 0 <= j < k :: q[j].command != command
  {
    if q == [] || q[0].command == command then 0 else 1 + CommandAt(q[1..], command)
  }

  /** enqueueCommandUnlessPending */
  function EnqueueUnlessPending(b: Board, deviceSN: string, command: string): (Board, nat, bool) {
    var q := QueueOf(b, deviceSN);
    var k := CommandAt(q, command);
    if k < |q| then (b, q[k].id, false)
    else (Append(b, deviceSN, Cmd(b.cmdID + 1, command, "", "")), b.cmdID + 1, true)
  }

  /** The part of handleGetRequest that takes a command: clock templates are filled, references release
      their cloud id. */
  function Pop(b: Board, deviceSN: string, now: Civil): (Board, Option<Cmd>) {
    var q := QueueOf(b, deviceSN);
    if q == [] then (b, None)
    else
      var cmd := q[0].(command := FillClock(q[0].command, now));
      var after := b.(queue := b.queue[deviceSN := q[1..]]);
      var freed := if IsReference(cmd.command) && cmd.cloudID != "" then b.cloudIDs - {cmd.cloudID} else b.cloudIDs;
      (after.(cloudIDs := freed), Some(cmd))
  }

  function ReleaseCloud(b: Board, cloudID: string): Board {
    if cloudID != "" then b.(cloudIDs := b.cloudIDs - {cloudID}) else b
  }

  function Serve(b: Board, deviceSN: string, cmd: Cmd): Board {
    b.(pending := b.pending[Key(deviceSN, cmd.id) := cmd])
  }

  /** What an acknowledgement or a final query pack takes out. */
  function Finish(b: Board, key: Key): (Board, Option<Cmd>) {
    if key !in b.pending then (b, None)
    else (ReleaseCloud(b.(pending := b.pending - {key}), b.pending[key].cloudID), Some(b.pending[key]))
  }

  // ---------- the object ----------

  class Commands {
    var cmdID: nat
    var cmdQueue: map<string, seq<Cmd>>
    var pendingCmd: map<Key, Cmd>
    var cloudCmdID: set<string>

    function View(): Board
      reads this
    {
      Board(cmdID, cmdQueue, pendingCmd, cloudCmdID)
    }

    constructor ()
      ensures View() == Board(0, map[], map[], {})
    {
      cmdID, cmdQueue, pendingCmd, cloudCmdID := 0, map[], map[], {};
    }

    method EnqueueADMSCommand(deviceSN: string, command: string, cloudID: string, caption: string) returns (id: nat)
      modifies this
      ensures (View(), id) == Enqueue(old(View()), deviceSN, command, cloudID, caption)
    {
      if cloudID != "" {
        if cloudID in cloudCmdID {
          return 0;
        }
      }
      cmdID := cmdID + 1;
      id := cmdID;
      var queue := if deviceSN in cmdQueue then cmdQueue[deviceSN] else [];
      cmdQueue := cmdQueue[deviceSN := queue + [Cmd(id, command, cloudID, caption)]];
      if cloudID != "" {
        cloudCmdID := cloudCmdID + {cloudID};
      }
    }

    method EnqueueCommandUnlessPending(deviceSN: string, command: string) returns (id: nat, queued: bool)
      modifies this
      ensures (View(), id, queued) == EnqueueUnlessPending(old(View()), deviceSN, command)
    {
      var q := if deviceSN in cmdQueue then cmdQueue[deviceSN] else [];
      for k := 0 to |q|
        invariant k <= CommandAt(q, command)
        invariant View() == old(View())
      {
        if q[k].command == command {
          return q[k].id, false;
        }
      }
      cmdID := cmdID + 1;
      id := cmdID;
      cmdQueue := cmdQueue[deviceSN := q + [Cmd(id, command, "", "")]];
      queued := true;
    }

    method PopCommand(deviceSN: string, now: Civil) returns (cmd: Option<Cmd>)
      modifies this
      ensures (View(), cmd) == Pop(old(View()), deviceSN, now)
    {
      var q := if deviceSN in cmdQueue then cmdQueue[deviceSN] else [];
      if |q| == 0 {
        return None;
      }
      var first := q[0];
      cmdQueue := cmdQueue[deviceSN := q[1..]];
      first := first.(command := FillClock(first.command, now));
      if IsReference(first.command) && first.cloudID != "" {
        cloudCmdID := cloudCmdID - {first.cloudID};
      }
      cmd := Some(first);
    }

    method RefuseCommand(cmd: Cmd)
      modifies this
      ensures View() == ReleaseCloud(old(View()), cmd.cloudID)
    {
      if cmd.cloudID != "" {
        cloudCmdID := cloudCmdID - {cmd.cloudID};
      }
    }

    method ServeCommand(deviceSN: string, cmd: Cmd)
      modifies this
      ensures View() == Serve(old(View()), deviceSN, cmd)
    {
      pendingCmd := pendingCmd[Key(deviceSN, cmd.id) := cmd];
    }

    method FinishCommand(deviceSN: string, localID: nat) returns (cmd: Option<Cmd>)
      modifies this
      ensures (View(), cmd) == Finish(old(View()), Key(deviceSN, localID))
    {
      var key := Key(deviceSN, localID);
      if key !in pendingCmd {
        return None;
      }
      var done := pendingCmd[key];
      pendingCmd := pendingCmd - {key};
      if done.cloudID != "" {
        cloudCmdID := cloudCmdID - {done.cloudID};
      }
      cmd := Some(done);
    }
  }

  // ---------- every interleaving ----------

  datatype Where = Queued(deviceSN: string) | Popped(deviceSN: string) | Pending(deviceSN: string)

  datatype Entry = Entry(cmd: Cmd, place: Where)

  /** The board, the commands between two critical sections, the secret ids, and the reports sent. */
  datatype System = System(board: Board, live: map<nat, Entry>, secretIDs: set<nat>, reported: seq<nat>)

  datatype Step =
    | EnqueueCommand(deviceSN: string, command: string, cloudID: string, caption: string)
    | EnqueueUnless(deviceSN: string, command: string)
    | EnqueueSecret
    | PopOne(deviceSN: string, now: Civil)
    | RefuseOne(id: nat)
    | ServeOne(id: nat)
    | FinishOne(key: Key)

  function Reported(s: System, cmd: Cmd): seq<nat> { if cmd.cloudID != "" then s.reported + [cmd.id] else s.reported }

  predicate Enabled(s: System, step: Step) {
    match step
    case RefuseOne(id) => id in s.live && s.live[id].place.Popped?
    case ServeOne(id) => id in s.live && s.live[id].place.Popped?
    case _ => true
  }

  function Apply(s: System, step: Step): System
    requires Enabled(s, step)
  {
    match step
    case EnqueueCommand(sn, command, cloudID, caption) =>
      var (board, id) := Enqueue(s.board, sn, command, cloudID, caption);
      if id == 0 then s
      else s.(board := board, live := s.live[id := Entry(Cmd(id, command, cloudID, caption), Queued(sn))])
    case EnqueueUnless(sn, command) =>
      var (board, id, queued) := EnqueueUnlessPending(s.board, sn, command);
      if !queued then s
      else s.(board := board, live := s.live[id := Entry(Cmd(id, command, "", ""), Queued(sn))])
    case EnqueueSecret =>
      s.(board := s.board.(cmdID := s.board.cmdID + 1), secretIDs := s.secretIDs + {s.board.cmdID + 1})
    case PopOne(sn, now) =>
      var (board, cmd) := Pop(s.board, sn, now);
      if cmd.None? then s
      else if IsReference(cmd.value.command) then
        s.(board := board,
           live := s.live - {cmd.value.id},
           reported := if IsInvalidDeployment(sn, cmd.value) then Reported(s, cmd.value) else s.reported)
      else s.(board := board, live := s.live[cmd.value.id := Entry(cmd.value, Popped(sn))])
    case RefuseOne(id) =>
      var cmd := s.live[id].cmd;
      s.(board := ReleaseCloud(s.board, cmd.cloudID), live := s.live - {id}, reported := Reported(s, cmd))
    case ServeOne(id) =>
      var e := s.live[id];
      s.(board := Serve(s.board, e.place.deviceSN, e.cmd),
        live := s.live[id := Entry(e.cmd, Pending(e.place.deviceSN))])
    case FinishOne(key) =>
      var (board, cmd) := Finish(s.board, key);
      if cmd.None? then s
      else s.(board := board, live := s.live - {key.localID}, reported := Reported(s, cmd.value))
  }

  ghost predicate Init(s: System) { s == System(Board(0, map[], map[], {}), map[], {}, []) }

  ghost predicate Runs(steps: seq<Step>, s: System) {
    if steps == [] then Init(s)
    else
      var rest, last := steps[..|steps| - 1], steps[|steps| - 1];
      exists before :: Takes(before, last, s) && Runs(rest, before)
  }

  predicate Takes(before: System, step: Step, after: System) { Enabled(before, step) && Apply(before, step) == after }

  // ---------- the invariant ----------

  ghost predicate Ascending(q: seq<Cmd>) { forall a, b | 0 <= a < b < |q| :: q[a].id < q[b].id }

  ghost predicate QueueMatches(s: System, sn: string) {
    var q := QueueOf(s.board, sn);
    Ascending(q) && forall c | c in q :: c.id in s.live && s.live[c.id] == Entry(c, Queued(sn))
  }

  /** An entry is where it says it is. */
  ghost predicate EntryMatches(s: System, id: nat) {
    id in s.live ==>
      var e := s.live[id];
      && e.cmd.id == id && 0 < id <= s.board.cmdID && id !in s.secretIDs && id !in s.reported
      && match e.place
         case Queued(sn) => e.cmd in QueueOf(s.board, sn)
         case Popped(_) => true
         case Pending(sn) => Key(sn, id) in s.board.pending
  }

  ghost predicate PendingMatches(s: System, key: Key) {
    key in s.board.pending ==>
      key.localID in s.live && s.live[key.localID] == Entry(s.board.pending[key], Pending(key.deviceSN))
  }

  /** Some command in flight carries the cloud id. */
  predicate Carried(live: map<nat, Entry>, cloudID: string) { exists i | i in live :: live[i].cmd.cloudID == cloudID }

  ghost predicate CloudMatches(s: System) {
    && (forall c :: c in s.board.cloudIDs <==> c != "" && Carried(s.live, c))
    && OneCarrier(s.live)
  }

  ghost predicate OneCarrier(live: map<nat, Entry>) {
    forall i: nat, j: nat | ShareCloud(live, i, j) :: i == j
  }

  predicate ShareCloud(live: map<nat, Entry>, i: nat, j: nat) {
    i in live && j in live && live[i].cmd.cloudID != "" && live[i].cmd.cloudID == live[j].cmd.cloudID
  }

  ghost predicate IdsUsed(s: System) {
    && (forall i | i in s.secretIDs :: 0 < i <= s.board.cmdID)
    && (forall k | 0 <= k < |s.reported| :: 0 < s.reported[k] <= s.board.cmdID)
    && (forall a, b | 0 <= a < b < |s.reported| :: s.reported[a] != s.reported[b])
  }

  ghost predicate Consistent(s: System) {
    && (forall sn :: QueueMatches(s, sn))
    && (forall id: nat :: EntryMatches(s, id))
    && (forall key :: PendingMatches(s, key))
    && CloudMatches(s)
    && IdsUsed(s)
  }

  // ---------- a command is added ----------

  predicate Adds(s: System, t: System, sn: string, cmd: Cmd) {
    && cmd.id == s.board.cmdID + 1
    && (cmd.cloudID != "" ==> cmd.cloudID !in s.board.cloudIDs)
    && t == s.(board := t.board, live := s.live[cmd.id := Entry(cmd, Queued(sn))])
    && t.board == Append(s.board, sn, cmd).(cloudIDs := t.board.cloudIDs)
    && t.board.cloudIDs == (if cmd.cloudID != "" then s.board.cloudIDs + {cmd.cloudID} else s.board.cloudIDs)
  }

  lemma QueueIdsKnown(s: System, sn: string)
    requires Consistent(s)
    ensures Ascending(QueueOf(s.board, sn))
    ensures forall c | c in QueueOf(s.board, sn) :: 0 < c.id <= s.board.cmdID && c.id in s.live
  {
    assert QueueMatches(s, sn);
    forall c | c in QueueOf(s.board, sn) ensures 0 < c.id <= s.board.cmdID { assert EntryMatches(s, c.id); }
  }

  lemma AddedQueue(s: System, t: System, sn: string, cmd: Cmd, other: string)
    requires Consistent(s) && Adds(s, t, sn, cmd)
    ensures QueueMatches(t, other)
  {
    QueueIdsKnown(s, other);
    assert QueueMatches(s, other);
    hide Consistent;
    if other == sn {
      var q := QueueOf(s.board, sn);
      assert QueueOf(t.board, sn) == q + [cmd];
      forall a, b | 0 <= a < b < |q + [cmd]| ensures (q + [cmd])[a].id < (q + [cmd])[b].id {
        assert (q + [cmd])[a] == q[a] && q[a] in q;
      }
    } else {
      assert QueueOf(t.board, other) == QueueOf(s.board, other);
    }
  }

  lemma AddedEntry(s: System, t: System, sn: string, cmd: Cmd, id: nat)
    requires Consistent(s) && Adds(s, t, sn, cmd)
    ensures EntryMatches(t, id)
  {
    assert EntryMatches(s, id) && IdsUsed(s);
    hide Consistent;
    assert cmd in QueueOf(t.board, sn);
    if id != cmd.id && id in s.live && s.live[id].place.Queued? {
      var other := s.live[id].place.deviceSN;
      assert s.live[id].cmd in QueueOf(t.board, other);
    }
  }

  lemma AddedPending(s: System, t: System, sn: string, cmd: Cmd, key: Key)
    requires Consistent(s) && Adds(s, t, sn, cmd)
    ensures PendingMatches(t, key)
  {
    assert PendingMatches(s, key) && EntryMatches(s, key.localID);
    hide Consistent;
  }

  lemma CarriedMore(live: map<nat, Entry>, id: nat, e: Entry, c: string)
    requires id !in live
    ensures Carried(live[id := e], c) <==> Carried(live, c) || e.cmd.cloudID == c
  {
    var more := live[id := e];
    if Carried(live, c) {
      var i :| i in live && live[i].cmd.cloudID == c;
      assert i in more && more[i].cmd.cloudID == c;
    }
    if e.cmd.cloudID == c { assert id in more && more[id].cmd.cloudID == c; }
  }

  lemma FreshID(s: System, id: nat)
    requires Consistent(s) && id > s.board.cmdID
    ensures id !in s.live
  {
    assert EntryMatches(s, id);
  }

  lemma AddedCloud(s: System, t: System, sn: string, cmd: Cmd)
    requires Consistent(s) && Adds(s, t, sn, cmd)
    ensures CloudMatches(t)
  {
    FreshID(s, cmd.id);
    forall c ensures c in t.board.cloudIDs <==> c != "" && Carried(t.live, c) {
      CarriedMore(s.live, cmd.id, Entry(cmd, Queued(sn)), c);
    }
    assert CloudMatches(s);
    hide Consistent;
    assert forall i | i in s.live :: Carried(s.live, s.live[i].cmd.cloudID);
    forall i: nat, j: nat | ShareCloud(t.live, i, j) ensures i == j {
      assert i in s.live && j in s.live ==> ShareCloud(s.live, i, j);
    }
  }

  lemma AddKeeps(s: System, t: System, sn: string, cmd: Cmd)
    requires Consistent(s) && Adds(s, t, sn, cmd)
    ensures Consistent(t)
  {
    forall other ensures QueueMatches(t, other) { AddedQueue(s, t, sn, cmd, other); }
    forall id: nat ensures EntryMatches(t, id) { AddedEntry(s, t, sn, cmd, id); }
    forall key ensures PendingMatches(t, key) { AddedPending(s, t, sn, cmd, key); }
    AddedCloud(s, t, sn, cmd);
    assert IdsUsed(t);
    hide QueueMatches, EntryMatches, PendingMatches, CloudMatches, IdsUsed;
  }

  // ---------- a command moves or leaves ----------

  /** One entry changes place or goes; its device's queue may lose its head, its key may come or go. */
  ghost predicate Changes(s: System, t: System, id: nat, sn: string) {
    && id in s.live && s.live[id].place.deviceSN == sn
    && t.secretIDs == s.secretIDs && t.board.cmdID == s.board.cmdID
    && t.live - {id} == s.live - {id}
    && t.board.queue - {sn} == s.board.queue - {sn}
    && t.board.pending - {Key(sn, id)} == s.board.pending - {Key(sn, id)}
  }

  /** What has to hold of the entry and its device's queue afterwards. */
  ghost predicate ChangedRight(s: System, t: System, id: nat, sn: string) {
    && id in s.live
    && (forall c :: c in QueueOf(t.board, sn) <==>
         c in QueueOf(s.board, sn) && (c.id == id ==> id in t.live && t.live[id].place.Queued?))
    && Ascending(QueueOf(t.board, sn))
    && (id in t.live ==>
          var e := t.live[id];
          && e.cmd.id == id && e.place.deviceSN == sn && !e.place.Queued?
          && e.cmd.cloudID == s.live[id].cmd.cloudID)
    && (Key(sn, id) in t.board.pending <==> id in t.live && t.live[id].place.Pending?)
    && (Key(sn, id) in t.board.pending ==> t.board.pending[Key(sn, id)] == t.live[id].cmd)
  }

  lemma SameOutside<K, V>(m: map<K, V>, n: map<K, V>, k: K, e: K)
    requires m - {k} == n - {k} && e != k
    ensures e in m <==> e in n
    ensures e in m ==> m[e] == n[e]
  {
    assert e in m <==> e in m - {k};
    assert e in n <==> e in n - {k};
  }

  lemma ChangedQueue(s: System, t: System, id: nat, sn: string, other: string)
    requires Consistent(s) && Changes(s, t, id, sn) && ChangedRight(s, t, id, sn)
    ensures QueueMatches(t, other)
  {
    assert QueueMatches(s, other) && QueueMatches(s, sn) && EntryMatches(s, id);
    hide Consistent;
    if other != sn { SameOutside(t.board.queue, s.board.queue, sn, other); }
    forall c | c in QueueOf(t.board, other) ensures c.id in t.live && t.live[c.id] == Entry(c, Queued(other)) {
      assert c in QueueOf(s.board, other);
      if c.id != id { SameOutside(t.live, s.live, id, c.id); }
    }
  }

  lemma ChangedEntry(s: System, t: System, id: nat, sn: string, other: nat)
    requires Consistent(s) && Changes(s, t, id, sn) && ChangedRight(s, t, id, sn)
    requires forall i | i in t.reported :: i in s.reported || (i == id && id !in t.live)
    ensures EntryMatches(t, other)
  {
    assert EntryMatches(s, other) && EntryMatches(s, id);
    hide Consistent;
    if other != id && other in t.live {
      SameOutside(t.live, s.live, id, other);
      match t.live[other].place
      case Queued(d) => if d != sn { SameOutside(t.board.queue, s.board.queue, sn, d); }
      case Popped(_) =>
      case Pending(d) => SameOutside(t.board.pending, s.board.pending, Key(sn, id), Key(d, other));
    }
  }

  lemma ChangedPending(s: System, t: System, id: nat, sn: string, key: Key)
    requires Consistent(s) && Changes(s, t, id, sn) && ChangedRight(s, t, id, sn)
    ensures PendingMatches(t, key)
  {
    assert PendingMatches(s, key) && EntryMatches(s, id);
    hide Consistent;
    if key != Key(sn, id) {
      SameOutside(t.board.pending, s.board.pending, Key(sn, id), key);
      if key.localID != id { SameOutside(t.live, s.live, id, key.localID); }
    }
  }

  lemma CarriedSame(live: map<nat, Entry>, after: map<nat, Entry>, id: nat, c: string)
    requires id in live && id in after && after - {id} == live - {id} && after[id].cmd.cloudID == live[id].cmd.cloudID
    ensures Carried(after, c) <==> Carried(live, c)
  {
    if Carried(live, c) {
      var i :| i in live && live[i].cmd.cloudID == c;
      if i != id { SameOutside(after, live, id, i); }
      assert i in after && after[i].cmd.cloudID == c;
    }
    if Carried(after, c) {
      var i :| i in after && after[i].cmd.cloudID == c;
      if i != id { SameOutside(after, live, id, i); }
      assert i in live && live[i].cmd.cloudID == c;
    }
  }

  lemma CarriedLess(live: map<nat, Entry>, id: nat, c: string)
    requires id in live && OneCarrier(live) && c != ""
    ensures Carried(live - {id}, c) <==> Carried(live, c) && live[id].cmd.cloudID != c
  {
    var less := live - {id};
    if Carried(less, c) {
      var i :| i in less && less[i].cmd.cloudID == c;
      assert i in live && live[i].cmd.cloudID == c;
      assert live[id].cmd.cloudID == c ==> ShareCloud(live, i, id);
    }
    if Carried(live, c) && live[id].cmd.cloudID != c {
      var i :| i in live && live[i].cmd.cloudID == c;
      assert i in less && less[i].cmd.cloudID == c;
    }
  }

  lemma MovedCloud(s: System, t: System, id: nat)
    requires CloudMatches(s) && id in s.live && id in t.live && t.live - {id} == s.live - {id}
    requires t.live[id].cmd.cloudID == s.live[id].cmd.cloudID && t.board.cloudIDs == s.board.cloudIDs
    ensures CloudMatches(t)
  {
    forall c ensures Carried(t.live, c) <==> Carried(s.live, c) { CarriedSame(s.live, t.live, id, c); }
    hide Carried;
    forall i: nat, j: nat | ShareCloud(t.live, i, j) ensures i == j {
      if i != id { SameOutside(t.live, s.live, id, i); }
      if j != id { SameOutside(t.live, s.live, id, j); }
      assert ShareCloud(s.live, i, j);
    }
  }

  lemma LeftCloud(s: System, t: System, id: nat)
    requires CloudMatches(s) && id in s.live && t.live == s.live - {id}
    requires t.board.cloudIDs == s.board.cloudIDs - {s.live[id].cmd.cloudID}
    ensures CloudMatches(t)
  {
    forall c ensures c in t.board.cloudIDs <==> c != "" && Carried(t.live, c) {
      if c != "" { CarriedLess(s.live, id, c); }
    }
    hide Carried;
    forall i: nat, j: nat | ShareCloud(t.live, i, j) ensures i == j { assert ShareCloud(s.live, i, j); }
  }

  lemma ReportedIds(s: System, t: System, id: nat)
    requires Consistent(s) && id in s.live && t.secretIDs == s.secretIDs && t.board.cmdID == s.board.cmdID
    requires t.reported == s.reported || t.reported == s.reported + [id]
    ensures IdsUsed(t)
    ensures forall i | i in t.reported :: i in s.reported || i == id
  {
    assert EntryMatches(s, id) && IdsUsed(s);
    hide Consistent;
    forall a, b | 0 <= a < b < |t.reported| ensures t.reported[a] != t.reported[b] {
      assert a < |s.reported| ==> t.reported[a] == s.reported[a] && s.reported[a] in s.reported;
    }
  }

  lemma ChangeKeeps(s: System, t: System, id: nat, sn: string)
    requires Consistent(s) && Changes(s, t, id, sn) && ChangedRight(s, t, id, sn)
    requires t.reported == s.reported || (t.reported == s.reported + [id] && id !in t.live)
    requires if id in t.live then t.board.cloudIDs == s.board.cloudIDs
             else t.board.cloudIDs == s.board.cloudIDs - {s.live[id].cmd.cloudID}
    ensures Consistent(t)
  {
    ReportedIds(s, t, id);
    forall other ensures QueueMatches(t, other) { ChangedQueue(s, t, id, sn, other); }
    forall other: nat ensures EntryMatches(t, other) { ChangedEntry(s, t, id, sn, other); }
    forall key ensures PendingMatches(t, key) { ChangedPending(s, t, id, sn, key); }
    hide QueueMatches, EntryMatches, PendingMatches, IdsUsed, ChangedRight;
    if id in t.live {
      assert t.live[id].cmd.cloudID == s.live[id].cmd.cloudID by { SameCloud(s, t, id, sn); }
      MovedCloud(s, t, id);
    } else {
      assert t.live == s.live - {id};
      LeftCloud(s, t, id);
    }
    hide CloudMatches;
  }

  lemma SameCloud(s: System, t: System, id: nat, sn: string)
    requires ChangedRight(s, t, id, sn) && id in s.live && id in t.live
    ensures t.live[id].cmd.cloudID == s.live[id].cmd.cloudID
  {}

  // ---------- every step ----------

  lemma HeadIsLive(s: System, sn: string)
    requires Consistent(s) && QueueOf(s.board, sn) != []
    ensures var c := QueueOf(s.board, sn)[0];
      && c.id in s.live && s.live[c.id] == Entry(c, Queued(sn)) && Key(sn, c.id) !in s.board.pending
  {
    assert QueueMatches(s, sn);
    assert PendingMatches(s, Key(sn, QueueOf(s.board, sn)[0].id));
    hide Consistent, Ascending;
  }

  lemma TailMembers(s: System, t: System, sn: string)
    requires Consistent(s) && QueueOf(s.board, sn) != []
      && t.board.queue == s.board.queue[sn := QueueOf(s.board, sn)[1..]]
    ensures Ascending(QueueOf(t.board, sn))
    ensures forall c :: c in QueueOf(t.board, sn) <==> c in QueueOf(s.board, sn) && c.id != QueueOf(s.board, sn)[0].id
  {
    assert QueueMatches(s, sn);
    hide Consistent;
    var q := QueueOf(s.board, sn);
    assert QueueOf(t.board, sn) == q[1..];
    assert forall c :: c in q <==> c == q[0] || c in q[1..];
  }

  lemma PopKeeps(s: System, sn: string, now: Civil)
    requires Consistent(s)
    ensures Consistent(Apply(s, PopOne(sn, now)))
  {
    var t := Apply(s, PopOne(sn, now));
    if QueueOf(s.board, sn) != [] {
      var c := QueueOf(s.board, sn)[0];
      HeadIsLive(s, sn);
      hide FillClock, IsReference, IsInvalidDeployment;
      TailMembers(s, t, sn);
      assert s.board.queue[sn := QueueOf(s.board, sn)[1..]] - {sn} == s.board.queue - {sn};
      assert Changes(s, t, c.id, sn) by { hide Ascending, QueueOf; }
      assert ChangedRight(s, t, c.id, sn) by { hide Ascending, QueueOf; }
      EmptyIsFree(s);
      hide Consistent, Changes, ChangedRight, Ascending;
      ChangeKeeps(s, t, c.id, sn);
    }
  }

  lemma EmptyIsFree(s: System)
    requires Consistent(s)
    ensures s.board.cloudIDs - {""} == s.board.cloudIDs
  {
    assert CloudMatches(s);
    hide Consistent, Carried;
  }

  /** A popped command is served, or refused. */
  lemma PoppedKeeps(s: System, step: Step, id: nat)
    requires Consistent(s) && (step == RefuseOne(id) || step == ServeOne(id)) && Enabled(s, step)
    ensures Consistent(Apply(s, step))
  {
    var t := Apply(s, step);
    var sn := s.live[id].place.deviceSN;
    EmptyIsFree(s);
    assert EntryMatches(s, id) && QueueMatches(s, sn) && PendingMatches(s, Key(sn, id));
    hide Consistent;
    assert forall c | c in QueueOf(s.board, sn) :: c.id != id;
    assert Changes(s, t, id, sn);
    assert ChangedRight(s, t, id, sn);
    hide Changes, ChangedRight;
    ChangeKeeps(s, t, id, sn);
  }

  lemma FinishKeeps(s: System, key: Key)
    requires Consistent(s)
    ensures Consistent(Apply(s, FinishOne(key)))
  {
    var t := Apply(s, FinishOne(key));
    if key in s.board.pending {
      EmptyIsFree(s);
      assert PendingMatches(s, key) && EntryMatches(s, key.localID) && QueueMatches(s, key.deviceSN);
      hide Consistent;
      assert forall c | c in QueueOf(s.board, key.deviceSN) :: c.id != key.localID;
      assert Changes(s, t, key.localID, key.deviceSN);
      assert ChangedRight(s, t, key.localID, key.deviceSN);
      hide Changes, ChangedRight;
      ChangeKeeps(s, t, key.localID, key.deviceSN);
    }
  }

  lemma SecretKeeps(s: System)
    requires Consistent(s)
    ensures Consistent(Apply(s, EnqueueSecret))
  {
    var t := Apply(s, EnqueueSecret);
    forall sn ensures QueueMatches(t, sn) { assert QueueMatches(s, sn); }
    forall id: nat ensures EntryMatches(t, id) { assert EntryMatches(s, id); }
    forall key ensures PendingMatches(t, key) { assert PendingMatches(s, key); }
    assert CloudMatches(t) && IdsUsed(t);
    hide QueueMatches, EntryMatches, PendingMatches, CloudMatches, IdsUsed;
  }

  lemma StepKeeps(s: System, step: Step)
    requires Consistent(s) && Enabled(s, step)
    ensures Consistent(Apply(s, step))
  {
    hide Consistent;
    match step
    case EnqueueCommand(sn, command, cloudID, caption) =>
      if Enqueue(s.board, sn, command, cloudID, caption).1 != 0 {
        AddKeeps(s, Apply(s, step), sn, Cmd(s.board.cmdID + 1, command, cloudID, caption));
      }
    case EnqueueUnless(sn, command) =>
      if EnqueueUnlessPending(s.board, sn, command).2 {
        AddKeeps(s, Apply(s, step), sn, Cmd(s.board.cmdID + 1, command, "", ""));
      }
    case EnqueueSecret => SecretKeeps(s);
    case PopOne(sn, now) => PopKeeps(s, sn, now);
    case RefuseOne(id) => PoppedKeeps(s, step, id);
    case ServeOne(id) => PoppedKeeps(s, step, id);
    case FinishOne(key) => FinishKeeps(s, key);
  }

  lemma {:induction false} RunKeeps(steps: seq<Step>, s: System)
    requires Runs(steps, s)
    ensures Consistent(s)
    decreases |steps|
  {
    if steps == [] {
      assert s == System(Board(0, map[], map[], {}), map[], {}, []);
    } else {
      var before :| Takes(before, steps[|steps| - 1], s) && Runs(steps[..|steps| - 1], before);
      hide Consistent, Apply, Runs;
      RunKeeps(steps[..|steps| - 1], before);
      StepKeeps(before, steps[|steps| - 1]);
    }
  }

  // ---------- the theorems ----------

  /** A command that is queued, popped or pending. */
  ghost predicate InFlight(s: System, c: Cmd) { c.id in s.live && s.live[c.id].cmd == c }

  /** The cloud ids held back are exactly those of commands in flight, each carried by one command. */
  lemma CloudIDsAreExact(steps: seq<Step>, s: System)
    requires Runs(steps, s)
    ensures forall id :: id in s.board.cloudIDs <==> id != "" && exists c :: InFlight(s, c) && c.cloudID == id
    ensures forall c, d | InFlight(s, c) && InFlight(s, d) && c.cloudID == d.cloudID != "" :: c == d
  {
    RunKeeps(steps, s);
    assert CloudMatches(s);
    forall id ensures id in s.board.cloudIDs <==> id != "" && exists c :: InFlight(s, c) && c.cloudID == id {
      if Carried(s.live, id) {
        var i :| i in s.live && s.live[i].cmd.cloudID == id;
        assert EntryMatches(s, i);
        assert InFlight(s, s.live[i].cmd);
      }
    }
    forall c, d | InFlight(s, c) && InFlight(s, d) && c.cloudID == d.cloudID != "" ensures c == d {
      assert ShareCloud(s.live, c.id, d.id);
    }
    hide Consistent, Runs;
  }

  /** Each queued or pending command is in flight in that one place. */
  lemma EachInOnePlace(steps: seq<Step>, s: System, sn: string, key: Key)
    requires Runs(steps, s)
    ensures forall c | c in QueueOf(s.board, sn) :: InFlight(s, c) && s.live[c.id].place == Queued(sn)
    ensures key in s.board.pending ==>
      InFlight(s, s.board.pending[key]) && s.board.pending[key].id == key.localID
        && s.live[key.localID].place == Pending(key.deviceSN)
  {
    RunKeeps(steps, s);
    assert QueueMatches(s, sn) && PendingMatches(s, key) && EntryMatches(s, key.localID);
    hide Consistent, Runs;
  }

  /** Generic and secret commands never share a local id, so their pending keys are disjoint. */
  lemma LocalIDsAreDisjoint(steps: seq<Step>, s: System, key: Key)
    requires Runs(steps, s) && key in s.board.pending
    ensures key.localID !in s.secretIDs
  {
    RunKeeps(steps, s);
    assert PendingMatches(s, key) && EntryMatches(s, key.localID);
    hide Consistent, Runs;
  }

  /** A command is reported at most once, and then it is no longer in flight. */
  lemma ReportedAtMostOnce(steps: seq<Step>, s: System)
    requires Runs(steps, s)
    ensures forall a, b | 0 <= a < b < |s.reported| :: s.reported[a] != s.reported[b]
    ensures forall i | i in s.reported :: i !in s.live
  {
    RunKeeps(steps, s);
    forall i | i in s.reported ensures i !in s.live { assert EntryMatches(s, i); }
    assert IdsUsed(s);
    hide Consistent, Runs;
  }

  // ---------- clock templates ----------

  /** At most one template waits for a device. */
  ghost predicate OneTemplate(q: seq<Cmd>) {
    forall a, b | 0 <= a < b < |q| :: !(q[a].command == CLOCK_TEMPLATE && q[b].command == CLOCK_TEMPLATE)
  }

  predicate HasTemplate(q: seq<Cmd>) { CommandAt(q, CLOCK_TEMPLATE) < |q| }

  lemma AppendedTemplate(q: seq<Cmd>, cmd: Cmd)
    requires OneTemplate(q)
    ensures OneTemplate(q + [cmd]) <==> !(cmd.command == CLOCK_TEMPLATE && HasTemplate(q))
  {
    var k := CommandAt(q, CLOCK_TEMPLATE);
    var r := q + [cmd];
    if cmd.command == CLOCK_TEMPLATE && k < |q| {
      assert r[k].command == CLOCK_TEMPLATE && r[|q|].command == CLOCK_TEMPLATE;
    }
  }

  /** Ticks of the clock loop never queue a second template; a poll never adds one; and a command from
      elsewhere does exactly if it is the bare template while one waits. */
  lemma StepKeepsOneTemplate(s: System, step: Step, sn: string)
    requires Enabled(s, step) && OneTemplate(QueueOf(s.board, sn))
    ensures OneTemplate(QueueOf(Apply(s, step).board, sn)) <==>
      !(step.EnqueueCommand? && step.deviceSN == sn && step.command == CLOCK_TEMPLATE
        && HasTemplate(QueueOf(s.board, sn))
        && (step.cloudID == "" || step.cloudID !in s.board.cloudIDs))
  {
    var q := QueueOf(s.board, sn);
    match step
    case EnqueueCommand(d, command, cloudID, caption) =>
      AppendedTemplate(q, Cmd(s.board.cmdID + 1, command, cloudID, caption));
    case EnqueueUnless(d, command) =>
      AppendedTemplate(q, Cmd(s.board.cmdID + 1, command, "", ""));
    case PopOne(d, now) => hide FillClock, IsReference, IsInvalidDeployment;
    case _ =>
  }

  predicate NoBareTemplates(steps: seq<Step>) {
    forall k | 0 <= k < |steps| :: steps[k].EnqueueCommand? ==> steps[k].command != CLOCK_TEMPLATE
  }

  /** Over any run of ticks and polls a device has at most one unfilled template queued. */
  lemma {:induction false} TemplatesDoNotPileUp(steps: seq<Step>, s: System, sn: string)
    requires Runs(steps, s) && NoBareTemplates(steps)
    ensures OneTemplate(QueueOf(s.board, sn))
    decreases |steps|
  {
    if steps != [] {
      var before :| Takes(before, steps[|steps| - 1], s) && Runs(steps[..|steps| - 1], before);
      hide OneTemplate, Apply, Runs, HasTemplate;
      TemplatesDoNotPileUp(steps[..|steps| - 1], before, sn);
      StepKeepsOneTemplate(before, steps[|steps| - 1], sn);
    }
  }

  lemma RunsOn(steps: seq<Step>, before: System, step: Step)
    requires Runs(steps, before) && Enabled(before, step)
    ensures Runs(steps + [step], Apply(before, step))
  {
    assert (steps + [step])[..|steps|] == steps;
    assert Takes(before, step, Apply(before, step));
    hide Apply, Enabled;
  }

  ghost predicate Ticked(s: System, sn: string) {
    && Runs([EnqueueUnless(sn, CLOCK_TEMPLATE)], s)
    && QueueOf(s.board, sn) == [Cmd(1, CLOCK_TEMPLATE, "", "")] && s.board.cloudIDs == {}
  }

  lemma OneTick(sn: string)
    ensures exists s :: Ticked(s, sn)
  {
    var none := System(Board(0, map[], map[], {}), map[], {}, []);
    RunsOn([], none, EnqueueUnless(sn, CLOCK_TEMPLATE));
    assert [] + [EnqueueUnless(sn, CLOCK_TEMPLATE)] == [EnqueueUnless(sn, CLOCK_TEMPLATE)];
    hide Runs;
    assert CommandAt([], CLOCK_TEMPLATE) == 0;
    assert Ticked(Apply(none, EnqueueUnless(sn, CLOCK_TEMPLATE)), sn);
  }

  /** The bare template sent by the cloud escapes the rule: after one tick it waits twice. */
  lemma TwoTemplatesCanWait(sn: string)
    ensures exists steps, s :: Runs(steps, s) && !OneTemplate(QueueOf(s.board, sn))
  {
    OneTick(sn);
    hide Runs, Apply;
    var s :| Ticked(s, sn);
    var fromCloud := EnqueueCommand(sn, CLOCK_TEMPLATE, "c", "");
    assert OneTemplate(QueueOf(s.board, sn)) && HasTemplate(QueueOf(s.board, sn));
    hide OneTemplate, HasTemplate;
    StepKeepsOneTemplate(s, fromCloud, sn);
    RunsOn([EnqueueUnless(sn, CLOCK_TEMPLATE)], s, fromCloud);
  }
}
