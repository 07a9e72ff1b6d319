/** The durable outbox of terminal biometric results.

    `Store` is the value the outbox holds: the records in memory and the set of
    documents that may be found on disk after a crash. `Outbox` is the mutable
    object; its methods are proved against the functions on `Store`. */
module ResultOutbox {
  import opened Identifiers

  const MAX_RECORDS := 64
  const MAX_RETRIES := 1_000_000
  const MIN_INT32 := -2_147_483_648
  const MAX_INT32 := 2_147_483_647
  /** The zero time of Go, in Unix milliseconds. */
  const ZERO_TIME := -62_135_596_800_000
  const SECOND := 1_000
  const MAX_BACKOFF := 300 * SECOND

  datatype Result = Result(
    operation: string,
    status: string,
    deviceSN: string,
    sha256: string,
    errorCode: string,
    commandID: string,
    attempt: int,
    vaultAssetID: string,
    returnCode: int)

  datatype Record = Record(deploymentID: string, result: Result, attempts: int, nextAttemptAt: int)
  {
    /** What the record reports, without its retry bookkeeping. */
    function Value(): (string, Result) { (deploymentID, result) }
  }

  /** How one attempt to replace the outbox file ends. A rename that was not followed by
      a directory sync may or may not survive a crash. */
  datatype Persist = FailedBeforeRename | FailedAfterRename | Persisted

  datatype Store = Store(records: seq<Record>, images: set<seq<Record>>)

  datatype EnqueueOutcome = Committed | Corrupt | Conflict | Full | PersistFailed

  predicate ValidResult(r: Result) {
    && ValidUUID(r.commandID)
    && ValidIdentifier(r.deviceSN)
    && MIN_INT32 <= r.returnCode <= MAX_INT32
    && if r.operation == "delete" then
         && 1 <= r.attempt <= 5
         && ValidUUID(r.vaultAssetID)
         && r.sha256 == ""
         && (if r.status == "applied" then
               r.returnCode == 0 && r.errorCode == ""
             else
               && r.status == "failed"
               && (r.errorCode == "" || ValidErrorCode(r.errorCode))
               && (r.returnCode != 0 || r.errorCode != ""))
       else
         && r.operation == ""
         && r.attempt == 0
         && r.vaultAssetID == ""
         && (if r.status == "applied" then
               r.errorCode == "" && ValidDigest(r.sha256)
             else
               && r.status == "failed"
               && (r.sha256 == "" || ValidDigest(r.sha256))
               && ValidErrorCode(r.errorCode))
  }

  predicate ValidRecord(r: Record) {
    && ValidUUID(r.deploymentID)
    && ValidResult(r.result)
    && 0 <= r.attempts <= MAX_RETRIES
    && r.nextAttemptAt != ZERO_TIME
  }

  ghost predicate UniqueCommands(doc: seq<Record>) {
    forall i, j | 0 <= i < j < |doc| :: doc[i].result.commandID != doc[j].result.commandID
  }

  /** The checks made when the file is opened again. */
  ghost predicate Reopens(doc: seq<Record>) {
    |doc| <= MAX_RECORDS && UniqueCommands(doc) && forall r | r in doc :: ValidRecord(r)
  }

  // ---------- the store as a value ----------

  function CommandIndex(doc: seq<Record>, commandID: string): (k: nat)
    ensures k <= |doc|
    ensures k < |doc| ==> doc[k].result.commandID == commandID
    ensures forall i | 0 <= i < k :: doc[i].result.commandID != commandID
  {
    if doc == [] || doc[0].result.commandID == commandID then 0 else 1 + CommandIndex(doc[1..], commandID)
  }

  /** biometricResultOutboxKey: NUL cannot occur in a UUID, so equal keys mean equal parts. */
  function Key(deploymentID: string, commandID: string): string {
    deploymentID + "\0" + commandID
  }

  function KeyIndex(doc: seq<Record>, key: string): (k: nat)
    ensures k <= |doc|
    ensures k < |doc| ==> Key(doc[k].deploymentID, doc[k].result.commandID) == key
    ensures forall i | 0 <= i < k :: Key(doc[i].deploymentID, doc[i].result.commandID) != key
  {
    if doc == [] || Key(doc[0].deploymentID, doc[0].result.commandID) == key then 0 else 1 + KeyIndex(doc[1..], key)
  }

  function Without(doc: seq<Record>, k: nat): seq<Record>
    requires k < |doc|
  {
    doc[..k] + doc[k + 1..]
  }

  /** persistLocked, seen from the disk: which documents a crash may leave behind. */
  function ImagesAfter(images: set<seq<Record>>, doc: seq<Record>, p: Persist): set<seq<Record>> {
    match p
    case FailedBeforeRename => images
    case FailedAfterRename => images + {doc}
    case Persisted => {doc}
  }

  /** Replaces the document; memory keeps the old one when persisting fails. */
  function Replace(st: Store, doc: seq<Record>, p: Persist): Store {
    Store(if p.Persisted? then doc else st.records, ImagesAfter(st.images, doc, p))
  }

  function Enqueue(st: Store, deploymentID: string, result: Result, now: int, p: Persist): (Store, EnqueueOutcome) {
    var record := Record(deploymentID, result, 0, now);
    if !ValidRecord(record) then (st, Corrupt)
    else
      var k := CommandIndex(st.records, result.commandID);
      if k < |st.records| then
        (st, if st.records[k].Value() == record.Value() then Committed else Conflict)
      else if |st.records| >= MAX_RECORDS then (st, Full)
      else (Replace(st, st.records + [record], p), if p.Persisted? then Committed else PersistFailed)
  }

  function Retry(st: Store, deploymentID: string, commandID: string, now: int, p: Persist): (Store, bool) {
    var k := KeyIndex(st.records, Key(deploymentID, commandID));
    if k == |st.records| then (st, true)
    else
      var attempts := st.records[k].attempts + 1;
      var record := st.records[k].(attempts := attempts, nextAttemptAt := now + Backoff(attempts));
      (Replace(st, st.records[k := record], p), p.Persisted?)
  }

  function Delete(st: Store, deploymentID: string, commandID: string, p: Persist): (Store, bool) {
    var k := KeyIndex(st.records, Key(deploymentID, commandID));
    if k == |st.records| then (st, true)
    else (Replace(st, Without(st.records, k), p), p.Persisted?)
  }

  /** Whether a record for the command is waiting, and whether there is room for one more. */
  function Admission(st: Store, commandID: string, reservations: nat): (bool, bool) {
    if CommandIndex(st.records, commandID) < |st.records| then (true, true)
    else (false, |st.records| + reservations < MAX_RECORDS)
  }

  /** A second result of a command is confirmed if it says the same, and a conflict if not; only a new command
      needs room and the disk. */
  lemma OneRecordPerCommand(st: Store, deploymentID: string, result: Result, now: int, p: Persist)
    requires UniqueCommands(st.records) && ValidRecord(Record(deploymentID, result, 0, now))
    ensures var (after, outcome) := Enqueue(st, deploymentID, result, now, p);
      && (forall r | r in st.records && r.result.commandID == result.commandID ::
            after == st
            && outcome == if r.deploymentID == deploymentID && r.result == result then Committed else Conflict)
      && ((forall r | r in st.records :: r.result.commandID != result.commandID) ==>
            if |st.records| >= 64 then after == st && outcome == Full
            else if p.Persisted? then
              after.records == st.records + [Record(deploymentID, result, 0, now)] && outcome == Committed
            else after.records == st.records && outcome == PersistFailed)
  {
    hide ValidRecord;
    var k := CommandIndex(st.records, result.commandID);
    if k < |st.records| { assert st.records[k] in st.records; }
    forall r | r in st.records && r.result.commandID == result.commandID
      ensures k < |st.records| && r == st.records[k] {
      var i :| 0 <= i < |st.records| && st.records[i] == r;
    }
  }

  // ---------- retry delays ----------

  function Pow2(n: nat): (p: nat)
    ensures p >= 1
  {
    if n == 0 then 1 else 2 * Pow2(n - 1)
  }

  /** The delay that the doubling loop arrives at: 2^(attempt-1) seconds, capped. */
  function Backoff(attempt: int): int {
    if attempt < 1 then 0
    else if attempt > 9 then MAX_BACKOFF
    else if SECOND * Pow2(attempt - 1) > MAX_BACKOFF then MAX_BACKOFF else SECOND * Pow2(attempt - 1)
  }

  lemma {:induction false} Pow2Grows(a: nat, b: nat)
    requires a <= b
    ensures Pow2(a) <= Pow2(b)
    decreases b
  {
    if a < b { Pow2Grows(a, b - 1); }
  }

  lemma Pow2AtNine()
    ensures Pow2(8) == 256 && Pow2(9) == 512
  {
    assert Pow2(2) == 4 && Pow2(4) == 16 && Pow2(6) == 64;
  }

  /** The delay is exactly min(2^(n-1), 300) seconds. */
  lemma {:induction false} BackoffIsCappedPower(n: int)
    requires n >= 1
    ensures Backoff(n) == if SECOND * Pow2(n - 1) > MAX_BACKOFF then MAX_BACKOFF else SECOND * Pow2(n - 1)
  {
    if n > 9 {
      Pow2AtNine();
      Pow2Grows(9, n - 1);
    }
  }

  /** How long, in seconds, the first nine refusals put a record off. Every later one puts it off for 300. */
  const DELAYS := [1, 2, 4, 8, 16, 32, 64, 128, 256]

  /** When a record that was refused `refusals` times before, and is refused again at `now`, is due. */
  function DueAfter(refusals: nat, now: int): int {
    now + 1_000 * (if refusals < 9 then DELAYS[refusals] else 300)
  }

  lemma BackoffTable(refusals: nat, now: int)
    ensures now + Backoff(refusals + 1) == DueAfter(refusals, now)
  {
    Pow2AtNine();
    assert Pow2(1) == 2 && Pow2(2) == 4 && Pow2(3) == 8 && Pow2(4) == 16;
    assert Pow2(5) == 32 && Pow2(6) == 64 && Pow2(7) == 128;
  }

  lemma {:induction false} BackoffMonotone(m: int, n: int)
    requires m <= n
    ensures 0 <= Backoff(m) <= Backoff(n) <= MAX_BACKOFF
  {
    if m >= 1 {
      BackoffIsCappedPower(m);
      BackoffIsCappedPower(n);
      Pow2Grows(m - 1, n - 1);
    } else if n >= 1 {
      BackoffIsCappedPower(n);
    }
  }

  /** biometricResultBackoff. */
  method ComputeBackoff(attempt: int) returns (delay: int)
    ensures delay == Backoff(attempt)
  {
    if attempt < 1 {
      return 0;
    }
    delay := SECOND;
    var current := 1;
    Pow2AtNine();
    while current < attempt && delay < MAX_BACKOFF
      invariant 1 <= current <= attempt && current <= 10
      invariant delay == SECOND * Pow2(current - 1)
      invariant current == 10 ==> delay == SECOND * 512
    {
      if current == 9 { assert delay == SECOND * 256; }
      delay := delay * 2;
      current := current + 1;
    }
    BackoffIsCappedPower(attempt);
    if current < attempt { Pow2Grows(current - 1, attempt - 1); }
    if delay > MAX_BACKOFF {
      delay := MAX_BACKOFF;
    }
  }

  // ---------- the mutable outbox ----------

  class Outbox {
    var records: seq<Record>
    /** What a crash may leave on disk. */
    ghost var images: set<seq<Record>>

    ghost function View(): Store
      reads this
    {
      Store(records, images)
    }

    /** Opening a file that passed the reopen checks. */
    constructor (document: seq<Record>)
      ensures View() == Store(document, {document})
    {
      records := document;
      images := {document};
    }

    /** persistLocked: the outcome of the file operations is the caller's input. */
    method PersistLocked(p: Persist) returns (ok: bool)
      modifies this`images
      ensures ok == p.Persisted?
      ensures images == ImagesAfter(old(images), records, p)
    {
      images := ImagesAfter(images, records, p);
      ok := p.Persisted?;
    }

    /** The commit callback runs exactly when the outcome is Committed. */
    method EnqueueWithCommit(deploymentID: string, result: Result, now: int, p: Persist)
      returns (outcome: EnqueueOutcome)
      modifies this
      ensures (View(), outcome) == Enqueue(old(View()), deploymentID, result, now, p)
    {
      var record := Record(deploymentID, result, 0, now);
      if !ValidRecord(record) {
        return Corrupt;
      }
      for k := 0 to |records|
        invariant k <= CommandIndex(records, result.commandID)
        invariant View() == old(View())
      {
        if records[k].result.commandID == result.commandID {
          return if records[k].Value() == record.Value() then Committed else Conflict;
        }
      }
      if |records| >= MAX_RECORDS {
        return Full;
      }
      records := records + [record];
      var ok := PersistLocked(p);
      if !ok {
        records := records[..|records| - 1];
        return PersistFailed;
      }
      outcome := Committed;
    }

    method RecordRetry(deploymentID: string, commandID: string, now: int, p: Persist) returns (ok: bool)
      modifies this
      ensures (View(), ok) == Retry(old(View()), deploymentID, commandID, now, p)
      ensures !p.Persisted? ==> records == old(records)
      ensures var k := KeyIndex(old(records), Key(deploymentID, commandID));
        if k == |old(records)| then ok && records == old(records) else ok == p.Persisted?
      ensures var k := KeyIndex(old(records), Key(deploymentID, commandID));
        k < |old(records)| && p.Persisted? && old(records)[k].attempts >= 0 ==>
          var r := old(records)[k];
          records == old(records)[k := Record(r.deploymentID, r.result, r.attempts + 1, DueAfter(r.attempts, now))]
    {
      var key := Key(deploymentID, commandID);
      hide Key, Backoff;
      for k := 0 to |records|
        invariant k <= KeyIndex(records, key)
        invariant View() == old(View())
      {
        if Key(records[k].deploymentID, records[k].result.commandID) == key {
          var previous := records[k];
          var delay := ComputeBackoff(previous.attempts + 1);
          if previous.attempts >= 0 { BackoffTable(previous.attempts, now); }
          records := records[k := previous.(attempts := previous.attempts + 1, nextAttemptAt := now + delay)];
          ok := PersistLocked(p);
          if !ok {
            records := records[k := previous];
            assert records == old(records);
          }
          return;
        }
      }
      ok := true;
    }

    method Remove(deploymentID: string, commandID: string, p: Persist) returns (ok: bool)
      modifies this
      ensures (View(), ok) == Delete(old(View()), deploymentID, commandID, p)
    {
      var key := Key(deploymentID, commandID);
      hide Key, Backoff;
      for k := 0 to |records|
        invariant k <= KeyIndex(records, key)
        invariant View() == old(View())
      {
        if Key(records[k].deploymentID, records[k].result.commandID) == key {
          var previous := records;
          records := records[..k] + records[k + 1..];
          ok := PersistLocked(p);
          if !ok {
            records := previous;
          }
          return;
        }
      }
      ok := true;
    }

    method Admit(commandID: string, reservations: nat) returns (waiting: bool, capacity: bool)
      ensures (waiting, capacity) == Admission(View(), commandID, reservations)
    {
      for k := 0 to |records|
        invariant k <= CommandIndex(records, commandID)
      {
        if records[k].result.commandID == commandID {
          return true, true;
        }
      }
      return false, |records| + reservations < MAX_RECORDS;
    }

    /** The record due first, and how long to wait for it. */
    method Next(now: int) returns (next: Option<Record>, wait: nat)
      ensures next.None? <==> records == []
      ensures next.Some? ==>
        next.value in records && wait == if next.value.nextAttemptAt > now then next.value.nextAttemptAt - now else 0
      ensures next.Some? ==> forall r | r in records :: next.value.nextAttemptAt <= r.nextAttemptAt
    {
      if records == [] {
        return None, 0;
      }
      var first := records[0];
      for k := 1 to |records|
        invariant first in records
        invariant forall i | 0 <= i < k :: first.nextAttemptAt <= records[i].nextAttemptAt
      {
        if records[k].nextAttemptAt < first.nextAttemptAt {
          first := records[k];
        }
      }
      next, wait := Some(first), if first.nextAttemptAt > now then first.nextAttemptAt - now else 0;
    }
  }
}
