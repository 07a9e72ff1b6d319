/** Over every run: generic commands leave a device's queue in the order they came, with their clock filled. */
module GenericOrder {
  import opened Identifiers
  import opened Text
  import opened ClockCodec
  import opened GenericQueue

  /** What a poll took, and when. */
  datatype Taken = Taken(cmd: Cmd, at: Civil)

  /** The command that a step brings for a device: a cloud command not in flight yet, or one of the agent's own
      that no queued command repeats. */
  function Brings(before: System, step: Step, sn: string): seq<Cmd> {
    match step
    case EnqueueCommand(d, command, cloudID, caption) =>
      if d == sn && (cloudID == "" || cloudID !in before.board.cloudIDs)
      then [Cmd(before.board.cmdID + 1, command, cloudID, caption)] else []
    case EnqueueUnless(d, command) =>
      if d == sn && (forall c | c in QueueOf(before.board, sn) :: c.command != command)
      then [Cmd(before.board.cmdID + 1, command, "", "")] else []
    case _ => []
  }

  /** What a poll of the device takes. */
  function Drawn(before: System, step: Step, sn: string): seq<Taken> {
    if step.PopOne? && step.deviceSN == sn && Pop(before.board, sn, step.now).1.Some?
    then [Taken(Pop(before.board, sn, step.now).1.value, step.now)] else []
  }

  /** A run, with what came for the device and what was taken for it. */
  ghost predicate Traces(steps: seq<Step>, s: System, sn: string, came: seq<Cmd>, taken: seq<Taken>) {
    if steps == [] then Init(s) && came == [] && taken == []
    else
      var rest, last := steps[..|steps| - 1], steps[|steps| - 1];
      exists before, came0, taken0 ::
        Traces(rest, before, sn, came0, taken0) && Grows(before, last, s, sn, came0, taken0, came, taken)
  }

  predicate Grows(before: System, step: Step, after: System, sn: string, came0: seq<Cmd>, taken0: seq<Taken>,
                  came: seq<Cmd>, taken: seq<Taken>) {
    && Takes(before, step, after)
    && came == came0 + Brings(before, step, sn)
    && taken == taken0 + Drawn(before, step, sn)
  }

  /** The same command, but that a clock template tells the time it was taken. */
  predicate IsTaken(c: Cmd, t: Taken) {
    && t.cmd.id == c.id && t.cmd.cloudID == c.cloudID && t.cmd.caption == c.caption
    && t.cmd.command ==
         if c.command == CLOCK_TEMPLATE then "SET OPTIONS DateTime=" + Itoa(Encode(t.at)) else c.command
  }

  predicate InOrder(came: seq<Cmd>, taken: seq<Taken>, q: seq<Cmd>) {
    && |taken| <= |came|
    && q == came[|taken|..]
    && forall k | 0 <= k < |taken| :: IsTaken(came[k], taken[k])
  }

  lemma CommandFound(q: seq<Cmd>, command: string)
    ensures CommandAt(q, command) == |q| <==> forall c | c in q :: c.command != command
  {
    var k := CommandAt(q, command);
    if k < |q| { assert q[k] in q; }
  }

  lemma PopTakes(b: Board, sn: string, now: Civil)
    ensures var (after, cmd) := Pop(b, sn, now);
      var q := QueueOf(b, sn);
      if q == [] then cmd == None && after == b
      else cmd.Some? && IsTaken(q[0], Taken(cmd.value, now)) && QueueOf(after, sn) == q[1..]
    ensures forall other | other != sn :: QueueOf(Pop(b, sn, now).0, other) == QueueOf(b, other)
  {
    hide IsReference, Encode;
  }

  lemma StepQueues(before: System, step: Step, sn: string)
    requires Enabled(before, step) && !step.PopOne?
    ensures QueueOf(Apply(before, step).board, sn) == QueueOf(before.board, sn) + Brings(before, step, sn)
  {
    if step.EnqueueUnless? { CommandFound(QueueOf(before.board, step.deviceSN), step.command); }
  }

  lemma PopQueues(before: System, d: string, now: Civil, sn: string)
    ensures QueueOf(Apply(before, PopOne(d, now)).board, sn) == QueueOf(Pop(before.board, d, now).0, sn)
  {
    hide FillClock, IsReference, IsInvalidDeployment;
  }

  lemma StepKeepsOrder(before: System, step: Step, after: System, sn: string, came0: seq<Cmd>, taken0: seq<Taken>,
                       came: seq<Cmd>, taken: seq<Taken>)
    requires Grows(before, step, after, sn, came0, taken0, came, taken)
    requires InOrder(came0, taken0, QueueOf(before.board, sn))
    ensures InOrder(came, taken, QueueOf(after.board, sn))
  {
    if step.PopOne? {
      PopTakes(before.board, step.deviceSN, step.now);
      PopQueues(before, step.deviceSN, step.now, sn);
      hide Apply, Pop, QueueOf, IsTaken;
    } else {
      StepQueues(before, step, sn);
      hide Apply, QueueOf, IsTaken, Brings;
    }
  }

  lemma NothingYet(s: System, sn: string)
    requires Init(s)
    ensures InOrder([], [], QueueOf(s.board, sn))
  {}

  /** What came for a device is what was taken for it, in that order, and what is still queued. */
  lemma {:induction false} FirstInFirstOut(steps: seq<Step>, s: System, sn: string, came: seq<Cmd>, taken: seq<Taken>)
    requires Traces(steps, s, sn, came, taken)
    ensures InOrder(came, taken, QueueOf(s.board, sn))
    decreases |steps|
  {
    hide InOrder, Grows;
    if steps == [] {
      NothingYet(s, sn);
    } else {
      var rest, last := steps[..|steps| - 1], steps[|steps| - 1];
      var before, came0, taken0 :| Traces(rest, before, sn, came0, taken0)
        && Grows(before, last, s, sn, came0, taken0, came, taken);
      hide Traces;
      FirstInFirstOut(rest, before, sn, came0, taken0);
      StepKeepsOrder(before, last, s, sn, came0, taken0, came, taken);
    }
  }

  lemma TracesMore(steps: seq<Step>, s: System, before: System, sn: string, came0: seq<Cmd>, taken0: seq<Taken>)
    requires steps != [] && Traces(steps[..|steps| - 1], before, sn, came0, taken0)
    requires Takes(before, steps[|steps| - 1], s)
    ensures var last := steps[|steps| - 1];
      Traces(steps, s, sn, came0 + Brings(before, last, sn), taken0 + Drawn(before, last, sn))
  {
    var last := steps[|steps| - 1];
    var came, taken := came0 + Brings(before, last, sn), taken0 + Drawn(before, last, sn);
    assert Grows(before, last, s, sn, came0, taken0, came, taken);
    hide Takes, Brings, Drawn, Grows;
  }

  /** Every run has such a record. */
  lemma {:induction false} EveryRunTraces(steps: seq<Step>, s: System, sn: string)
    requires Runs(steps, s)
    ensures exists came, taken :: Traces(steps, s, sn, came, taken) && InOrder(came, taken, QueueOf(s.board, sn))
    decreases |steps|
  {
    hide InOrder, Takes;
    if steps == [] {
      FirstInFirstOut(steps, s, sn, [], []);
    } else {
      var before :| Takes(before, steps[|steps| - 1], s) && Runs(steps[..|steps| - 1], before);
      EveryRunTraces(steps[..|steps| - 1], before, sn);
      hide Runs;
      var came0, taken0 :| Traces(steps[..|steps| - 1], before, sn, came0, taken0);
      TracesMore(steps, s, before, sn, came0, taken0);
      hide Traces, Brings, Drawn;
      var last := steps[|steps| - 1];
      FirstInFirstOut(steps, s, sn, came0 + Brings(before, last, sn), taken0 + Drawn(before, last, sn));
    }
  }

  // ---------- how commands end ----------

  /** A command ended: its cloud id is free, and it is reported if the cloud gave it one. */
  ghost predicate EndedHere(s: System, t: System, c: Cmd) {
    && t.live == s.live - {c.id}
    && t.reported == s.reported + (if c.cloudID != "" then [c.id] else [])
    && (forall id :: id in t.board.cloudIDs <==> id in s.board.cloudIDs && id != c.cloudID)
    && t.board.queue == s.board.queue && t.board.cmdID == s.board.cmdID
  }

  lemma FreesOne(s: System, cloudID: string)
    requires CloudMatches(s)
    ensures forall id :: id in ReleaseCloud(s.board, cloudID).cloudIDs <==> id in s.board.cloudIDs && id != cloudID
  {
    hide Carried, OneCarrier;
  }

  /** A popped command is refused, which ends it, or served, and then waits under its device and local id. */
  lemma PoppedCommandsGoOn(steps: seq<Step>, s: System, id: nat)
    requires Runs(steps, s) && id in s.live && s.live[id].place.Popped?
    ensures var c := s.live[id].cmd;
      var refused, served := Apply(s, RefuseOne(id)), Apply(s, ServeOne(id));
      && c.id == id && EndedHere(s, refused, c) && refused.board.pending == s.board.pending
      && served.board == s.board.(pending := s.board.pending[Key(s.live[id].place.deviceSN, id) := c])
      && served.reported == s.reported
  {
    RunKeeps(steps, s);
    assert EntryMatches(s, id) && CloudMatches(s);
    FreesOne(s, s.live[id].cmd.cloudID);
    hide Runs, Consistent, CloudMatches, EntryMatches;
  }

  /** An acknowledgement ends the command that waits under its key, and nothing else. */
  lemma PendingCommandsEnd(steps: seq<Step>, s: System, key: Key)
    requires Runs(steps, s)
    ensures var done := Apply(s, FinishOne(key));
      if key !in s.board.pending then done == s
      else EndedHere(s, done, s.board.pending[key]) && done.board.pending == s.board.pending - {key}
  {
    RunKeeps(steps, s);
    assert PendingMatches(s, key) && EntryMatches(s, key.localID) && CloudMatches(s);
    if key in s.board.pending { FreesOne(s, s.board.pending[key].cloudID); }
    hide Runs, Consistent, CloudMatches;
  }

  // ---------- references ----------

  predicate OneWord(s: string) { s != "" && forall k | 0 <= k < |s| :: !IsSpace(s[k]) }

  lemma {:induction false} UpToWord(word: string, rest: string)
    requires OneWord(word) && (rest == "" || IsSpace(rest[0]))
    ensures UpToSpace(word + rest) == word
  {
    var s := word + rest;
    if |word| > 1 {
      assert s[1..] == word[1..] + rest;
      UpToWord(word[1..], rest);
    } else {
      assert s[1..] == rest && word == [s[0]];
    }
  }

  lemma TwoWords(a: string, b: string)
    requires OneWord(a) && OneWord(b)
    ensures Words(a + " " + b) == [a, b]
  {
    var s, rest := a + (" " + b), " " + b;
    UpToWord(a, rest);
    UpToWord(b, "");
    assert s == a + " " + b && s[|a|..] == rest && rest[1..] == b && b + "" == b && b[|b|..] == "";
    assert Words(b) == [b] by { assert Words("") == []; }
    hide UpToSpace;
    assert Words(rest) == [b];
    assert Words(s) == [a] + Words(rest);
  }

  /** A word and a UUID are a reference exactly under the two names; a deployment reference is invalid exactly if
      its cloud id is no UUID or its device has no valid serial number. */
  lemma ReferencesAre(name: string, uuid: string, deviceSN: string, cmd: Cmd)
    requires OneWord(name) && ValidUUID(uuid) && cmd.command == name + " " + uuid
    ensures IsReference(cmd.command) <==> name == "DEPLOY_BIOMETRIC_ASSET" || name == "DELETE_BIOMETRIC_ASSET"
    ensures IsInvalidDeployment(deviceSN, cmd) <==>
      name == "DEPLOY_BIOMETRIC_ASSET" && !(ValidUUID(cmd.cloudID) && ValidIdentifier(deviceSN))
  {
    forall k | 0 <= k < |uuid| ensures !IsSpace(uuid[k]) { assert UUIDCharAt(k, uuid[k]); }
    assert |uuid| == 36;
    TwoWords(name, uuid);
    hide Words, ValidUUID, ValidIdentifier;
  }
}
