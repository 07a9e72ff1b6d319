/** Attendance uploads: a scanner whose upload was read hears "OK" exactly if the cloud has confirmed every
    row; one whose upload could not be read hears "OK" too, and nothing is stored. */
module Attendance {
  import opened Identifiers
  import opened Text

  const BATCH_ROWS := 1000

  datatype Row = Row(deviceSN: string, userID: string, punchTime: string, status: int, verifyMode: int, workCode: int)

  datatype Request = Batch(rows: seq<Row>) | Single(row: Row)

  /** One answer of the cloud to a request, and which rows it has committed by then. */
  datatype Answer = Answer(
    arrived: bool,
    status: int,
    decodes: bool,
    ok: bool,
    ignored: bool,
    received: Option<int>,
    committed: set<Row>)

  /** The answer to the scanner: "OK", with the number of rows for a TA PUSH scanner, or status 503. */
  datatype Reply = OK(accepted: Option<nat>) | Unavailable

  datatype Outcome = Accepted(received: Option<int>) | Unsupported | Failed

  lemma PrefixGrows<T>(front: seq<T>, rows: seq<T>, start: nat, end: nat, more: nat)
    requires start + more <= end <= |rows|
    ensures front + rows[..start] + rows[start..end][..more] == front + rows[..start + more]
  {
    assert rows[..start] + rows[start..end][..more] == rows[..start + more];
  }

  function RowsOf(request: Request): seq<Row> {
    match request
    case Batch(rows) => rows
    case Single(row) => [row]
  }

  /** postAttlog: how an answer is read. */
  function Read(a: Answer): Outcome {
    if !a.arrived || a.status != 200 || !a.decodes then Failed
    else if a.ignored then Unsupported
    else if !a.ok then Failed
    else Accepted(a.received)
  }

  /** An accepted row is confirmed, and an accepted batch if the count is that of its rows. */
  predicate Confirms(request: Request, a: Answer) {
    Read(a).Accepted? && (request.Batch? ==> a.received == Some(|request.rows|))
  }

  /** What each answer means: a cloud that ignores a request does not know it, one that takes it says so and
      may count rows, and anything else is a failure. */
  lemma AnswersMean(a: Answer)
    ensures Read(a).Unsupported? <==> a.arrived && a.status == 200 && a.decodes && a.ignored
    ensures Read(a).Accepted? <==> a.arrived && a.status == 200 && a.decodes && !a.ignored && a.ok
    ensures Read(a).Accepted? ==> Read(a).received == a.received
  {}

  /** The cloud's side of the contract: a confirmation of a request means that all its rows are committed. Any
      other answer, among them an accepted batch with a wrong count, may come with some rows committed or none. */
  predicate Honest(request: Request, a: Answer) {
    Confirms(request, a) ==> forall r | r in RowsOf(request) :: r in a.committed
  }

  /** What the cloud would answer to the n-th request. */
  type Script = (nat, Request) -> Answer

  ghost predicate CommittedBy(answers: Script, row: Row) {
    exists k: nat, request :: row in answers(k, request).committed
  }

  // ---------- what is asked ----------

  /** The cloud does not know the request. */
  predicate Ignores(a: Answer) { a.arrived && a.status == 200 && a.decodes && a.ignored }

  /** The cloud took the request. */
  predicate Takes(a: Answer) { a.arrived && a.status == 200 && a.decodes && a.ok && !a.ignored }

  function Singles(rows: seq<Row>): (r: seq<Request>)
    ensures forall request | request in r :: request.Single?
  {
    if rows == [] then [] else Singles(rows[..|rows| - 1]) + [Single(rows[|rows| - 1])]
  }

  lemma SinglesMore(rows: seq<Row>, k: nat)
    requires k < |rows|
    ensures Singles(rows[..k + 1]) == Singles(rows[..k]) + [Single(rows[k])]
  {
    assert rows[..k + 1][..k] == rows[..k];
  }

  /** The rows of all batches in some requests, in order. */
  function Batched(log: seq<Request>): seq<Row> {
    if log == [] then []
    else
      var last := log[|log| - 1];
      Batched(log[..|log| - 1]) + if last.Batch? then last.rows else []
  }

  lemma BatchedMore(log: seq<Request>, request: Request)
    ensures Batched(log + [request]) == Batched(log) + if request.Batch? then request.rows else []
  {
    assert (log + [request])[..|log|] == log;
  }

  lemma {:induction false} BatchedSingles(log: seq<Request>, rows: seq<Row>)
    ensures Batched(log + Singles(rows)) == Batched(log)
    decreases |rows|
  {
    if rows == [] {
      assert log + Singles(rows) == log;
    } else {
      var front, last := rows[..|rows| - 1], Single(rows[|rows| - 1]);
      assert log + Singles(rows) == log + Singles(front) + [last];
      hide Batched, Singles;
      BatchedSingles(log, front);
      BatchedMore(log + Singles(front), last);
    }
  }

  /** Since `from`, every batch has 1000 rows, but the last of `all`. */
  ghost predicate FullBatches(log: seq<Request>, from: nat, all: seq<Row>) {
    forall k | from <= k < |log| && log[k].Batch? ::
      0 < |log[k].rows| <= 1000 && (|log[k].rows| == 1000 || Batched(log[..k + 1]) == all)
  }

  lemma FullBatchesMore(log: seq<Request>, from: nat, all: seq<Row>, batch: seq<Row>, singles: seq<Row>)
    requires from <= |log| && FullBatches(log, from, all)
    requires 0 < |batch| <= 1000 && (|batch| == 1000 || Batched(log) + batch == all)
    ensures FullBatches(log + [Batch(batch)] + Singles(singles), from, all)
  {
    var alone := Singles(singles);
    var after := log + [Batch(batch)] + alone;
    BatchedMore(log, Batch(batch));
    hide Batched, Singles;
    assert forall k | |log| < k < |after| :: after[k] in alone;
    forall k | from <= k < |after| && after[k].Batch?
      ensures 0 < |after[k].rows| <= 1000 && (|after[k].rows| == 1000 || Batched(after[..k + 1]) == all) {
      if k < |log| {
        assert after[k] == log[k] && after[..k + 1] == log[..k + 1];
      } else {
        assert after[..k + 1] == log + [Batch(batch)];
      }
    }
  }

  /** The requests begun with number `from` have batched the rows up to `start`. */
  ghost predicate BatchedTo(log: seq<Request>, from: nat, front: seq<Row>, rows: seq<Row>, start: nat) {
    && from <= |log| && start <= |rows|
    && FullBatches(log, from, front + rows) && Batched(log) == front + rows[..start]
  }

  lemma BatchedStart(log: seq<Request>, rows: seq<Row>)
    ensures BatchedTo(log, |log|, Batched(log), rows, 0)
  {}

  lemma BatchedOn(log: seq<Request>, from: nat, front: seq<Row>, rows: seq<Row>, start: nat, end: nat, alone: nat)
    requires BatchedTo(log, from, front, rows, start) && start < |rows| && alone <= end - start
    requires end == if start + 1000 < |rows| then start + 1000 else |rows|
    ensures var batch := rows[start..end];
      BatchedTo(log + [Batch(batch)] + Singles(batch[..alone]), from, front, rows, end)
  {
    var batch := rows[start..end];
    assert front + rows[..start] + batch == front + rows[..end] && rows[..|rows|] == rows;
    BatchedMore(log, Batch(batch));
    BatchedSingles(log + [Batch(batch)], batch[..alone]);
    FullBatchesMore(log, from, front + rows, batch, batch[..alone]);
    hide FullBatches, Batched;
  }

  // ---------- how many rows the cloud confirms, when the next request is number `at` ----------

  /** One by one, up to the first that is not accepted. */
  function RowsSent(answers: Script, at: nat, rows: seq<Row>): (n: nat)
    ensures n <= |rows|
    decreases |rows|
  {
    if rows == [] || !Read(answers(at, Single(rows[0]))).Accepted? then 0 else 1 + RowsSent(answers, at + 1, rows[1..])
  }

  function RowsAsked(answers: Script, at: nat, rows: seq<Row>): nat {
    if RowsSent(answers, at, rows) < |rows| then RowsSent(answers, at, rows) + 1 else |rows|
  }

  /** Sending rows one by one, begun with request `first`, has come to row k. */
  ghost predicate RowsTo(answers: Script, first: nat, rows: seq<Row>, k: nat, front: seq<Row>, confirmed: seq<Row>,
                         before: seq<Request>, log: seq<Request>) {
    && k <= |rows| && confirmed == front + rows[..k] && log == before + Singles(rows[..k])
    && RowsSent(answers, first, rows) == k + RowsSent(answers, first + k, rows[k..])
  }

  lemma RowsStart(answers: Script, first: nat, rows: seq<Row>, front: seq<Row>, before: seq<Request>)
    ensures RowsTo(answers, first, rows, 0, front, front, before, before)
  {
    assert rows[..0] == [] && Singles([]) == [] && rows[0..] == rows && front + [] == front && before + [] == before;
  }

  lemma RowsOn(answers: Script, first: nat, rows: seq<Row>, k: nat, front: seq<Row>, confirmed: seq<Row>,
               before: seq<Request>, log: seq<Request>)
    requires RowsTo(answers, first, rows, k, front, confirmed, before, log) && k < |rows|
    ensures var request := Single(rows[k]);
      if Read(answers(first + k, request)).Accepted? then
        RowsTo(answers, first, rows, k + 1, front, confirmed + [rows[k]], before, log + [request])
      else
        && RowsSent(answers, first, rows) == k && RowsAsked(answers, first, rows) == k + 1
        && confirmed == front + rows[..k] && log + [request] == before + Singles(rows[..k + 1])
  {
    SinglesMore(rows, k);
    assert rows[k..][0] == rows[k] && rows[k..][1..] == rows[k + 1..] && rows[..k + 1] == rows[..k] + [rows[k]];
    assert front + rows[..k] + [rows[k]] == front + rows[..k + 1];
    hide Singles, Read;
  }

  lemma RowsEnd(answers: Script, first: nat, rows: seq<Row>, front: seq<Row>, confirmed: seq<Row>,
                before: seq<Request>, log: seq<Request>)
    requires RowsTo(answers, first, rows, |rows|, front, confirmed, before, log)
    ensures RowsSent(answers, first, rows) == RowsAsked(answers, first, rows) == |rows|
    ensures confirmed == front + rows[..|rows|] && log == before + Singles(rows[..|rows|])
  {
    hide Singles;
  }

  /** How many rows of an ignored batch are sent again, one by one. */
  function RowsAlone(answers: Script, at: nat, rows: seq<Row>): (n: nat)
    ensures n <= |rows|
  {
    if Ignores(answers(at, Batch(rows))) then RowsAsked(answers, at + 1, rows) else 0
  }

  /** All or none, unless the cloud does not know batches. */
  function BatchSent(answers: Script, at: nat, rows: seq<Row>): (n: nat)
    ensures n <= |rows|
  {
    var answer := answers(at, Batch(rows));
    if Read(answer).Unsupported? then RowsSent(answers, at + 1, rows)
    else if Confirms(Batch(rows), answer) then |rows|
    else 0
  }

  function BatchAsked(answers: Script, at: nat, rows: seq<Row>): nat {
    1 + if Read(answers(at, Batch(rows))).Unsupported? then RowsAsked(answers, at + 1, rows) else 0
  }

  /** The rows sent one by one are those up to the first that the cloud does not take. */
  lemma {:induction false} RowsSentAre(answers: Script, at: nat, rows: seq<Row>)
    ensures var n := RowsSent(answers, at, rows);
      && (forall k | 0 <= k < n :: Takes(answers(at + k, Single(rows[k]))))
      && (n < |rows| ==> !Takes(answers(at + n, Single(rows[n]))))
    decreases |rows|
  {
    if rows != [] && Takes(answers(at, Single(rows[0]))) {
      RowsSentAre(answers, at + 1, rows[1..]);
      forall k | 0 <= k < RowsSent(answers, at, rows) ensures Takes(answers(at + k, Single(rows[k]))) {
        if k > 0 { assert rows[k] == rows[1..][k - 1] && Takes(answers(at + 1 + (k - 1), Single(rows[1..][k - 1]))); }
      }
    }
  }

  /** A batch that the cloud takes counts if the count is right; one it does not know goes row by row. */
  lemma BatchSentIs(answers: Script, at: nat, rows: seq<Row>)
    ensures var a := answers(at, Batch(rows));
      BatchSent(answers, at, rows) ==
        if Ignores(a) then RowsSent(answers, at + 1, rows)
        else if Takes(a) && a.received == Some(|rows|) then |rows|
        else 0
  {
    hide RowsSent;
  }

  /** Batch after batch, up to the first that is not confirmed whole. */
  function SaveSent(answers: Script, at: nat, rows: seq<Row>): (n: nat)
    ensures n <= |rows|
    decreases |rows|
  {
    if rows == [] then 0
    else
      var size := if BATCH_ROWS < |rows| then BATCH_ROWS else |rows|;
      var sent := BatchSent(answers, at, rows[..size]);
      if sent < size then sent else size + SaveSent(answers, at + BatchAsked(answers, at, rows[..size]), rows[size..])
  }

  lemma SaveNext(answers: Script, at: nat, rows: seq<Row>, start: nat, end: nat)
    requires start < |rows| && end == if start + BATCH_ROWS < |rows| then start + BATCH_ROWS else |rows|
    ensures var sent, asked := BatchSent(answers, at, rows[start..end]), BatchAsked(answers, at, rows[start..end]);
      SaveSent(answers, at, rows[start..])
      == if sent < end - start then sent else sent + SaveSent(answers, at + asked, rows[end..])
  {
    assert rows[start..][..end - start] == rows[start..end] && rows[start..][end - start..] == rows[end..];
    hide BatchSent, BatchAsked;
  }

  /** Saving the rows, begun with request `first`, has come to row `start` and request `at`. */
  ghost predicate SavedTo(answers: Script, front: seq<Row>, first: nat, rows: seq<Row>,
                          start: nat, at: nat, confirmed: seq<Row>)
  {
    && start <= |rows| && confirmed == front + rows[..start]
    && SaveSent(answers, first, rows) == start + SaveSent(answers, at, rows[start..])
  }

  lemma SaveStarts(answers: Script, front: seq<Row>, first: nat, rows: seq<Row>)
    ensures SavedTo(answers, front, first, rows, 0, first, front)
  {
    assert rows[0..] == rows;
  }

  /** A batch that is confirmed whole takes the save further; any other ends it. */
  lemma SaveGoesOn(answers: Script, front: seq<Row>, first: nat, rows: seq<Row>,
                   start: nat, end: nat, at: nat, confirmed: seq<Row>)
    requires SavedTo(answers, front, first, rows, start, at, confirmed) && start < |rows|
    requires end == if start + BATCH_ROWS < |rows| then start + BATCH_ROWS else |rows|
    ensures var sent, asked := BatchSent(answers, at, rows[start..end]), BatchAsked(answers, at, rows[start..end]);
      var after := confirmed + rows[start..end][..sent];
      if sent == end - start then SavedTo(answers, front, first, rows, end, at + asked, after)
      else start + sent == SaveSent(answers, first, rows) && after == front + rows[..start + sent]
  {
    SaveNext(answers, at, rows, start, end);
    PrefixGrows(front, rows, start, end, BatchSent(answers, at, rows[start..end]));
    hide SaveSent, BatchSent, BatchAsked;
  }

  lemma SaveEnds(answers: Script, front: seq<Row>, first: nat, rows: seq<Row>, at: nat, confirmed: seq<Row>)
    requires SavedTo(answers, front, first, rows, |rows|, at, confirmed)
    ensures SaveSent(answers, first, rows) == |rows| && confirmed == front + rows[..|rows|]
  {}

  /** The cloud: its answers, and the rows it has committed. */
  class Cloud {
    const answers: Script
    var asked: nat
    ghost var committed: set<Row>
    /** The rows of requests that the agent took as confirmed, in order. */
    ghost var confirmed: seq<Row>
    /** The requests sent so far. */
    ghost var log: seq<Request>

    ghost predicate Valid()
      reads this
    {
      && asked == |log|
      && (forall k: nat, request :: Honest(request, answers(k, request)))
      && (forall r | r in confirmed :: r in committed)
      && forall r | r in committed :: CommittedBy(answers, r)
    }

    constructor (answers: Script)
      requires forall k: nat, request :: Honest(request, answers(k, request))
      ensures Valid() && committed == {} && confirmed == [] && asked == 0 && this.answers == answers
    {
      this.answers := answers;
      asked, committed, confirmed, log := 0, {}, [], [];
    }

    method Post(request: Request) returns (outcome: Outcome)
      requires Valid()
      modifies this
      ensures Valid() && confirmed == old(confirmed) && asked == old(asked) + 1 && log == old(log) + [request]
      ensures outcome == Read(answers(old(asked), request))
      ensures committed == old(committed) + answers(old(asked), request).committed
    {
      var answer := answers(asked, request);
      asked := asked + 1;
      log := log + [request];
      committed := committed + answer.committed;
      outcome := Read(answer);
    }

    /** postAttendanceRows: one request for each row, up to the first failure. */
    method PostRows(rows: seq<Row>) returns (ok: bool, ghost sent: nat)
      requires Valid()
      modifies this
      ensures Valid() && committed >= old(committed)
      ensures sent == RowsSent(answers, old(asked), rows) && asked == old(asked) + RowsAsked(answers, old(asked), rows)
      ensures confirmed == old(confirmed) + rows[..sent] && (ok <==> sent == |rows|)
      ensures log == old(log) + Singles(rows[..RowsAsked(answers, old(asked), rows)])
    {
      sent := 0;
      RowsStart(answers, asked, rows, confirmed, log);
      hide Singles, RowsTo;
      for k := 0 to |rows|
        invariant Valid() && committed >= old(committed) && sent == k && asked == old(asked) + k
        invariant RowsTo(answers, old(asked), rows, k, old(confirmed), confirmed, old(log), log)
      {
        ghost var answer := answers(asked, Single(rows[k]));
        assert Honest(Single(rows[k]), answer);
        RowsOn(answers, old(asked), rows, k, old(confirmed), confirmed, old(log), log);
        var outcome := Post(Single(rows[k]));
        if !outcome.Accepted? {
          return false, sent;
        }
        assert rows[k] in RowsOf(Single(rows[k]));
        confirmed := confirmed + [rows[k]];
        sent := sent + 1;
      }
      RowsEnd(answers, old(asked), rows, old(confirmed), confirmed, old(log), log);
      ok := true;
    }

    /** postAttendanceBatch: a count that does not match is no confirmation, whatever was committed; a cloud
        that does not know batches gets the rows one by one. */
    method PostBatch(rows: seq<Row>) returns (ok: bool, ghost sent: nat)
      requires Valid()
      modifies this
      ensures Valid() && committed >= old(committed)
      ensures sent == BatchSent(answers, old(asked), rows)
      ensures asked == old(asked) + BatchAsked(answers, old(asked), rows)
      ensures confirmed == old(confirmed) + rows[..sent]
      ensures (ok ==> sent == |rows|) && (rows != [] && sent == |rows| ==> ok)
      ensures var answer := answers(old(asked), Batch(rows));
        Read(answer).Accepted? && answer.received != Some(|rows|) ==> !ok && confirmed == old(confirmed)
      ensures log == old(log) + [Batch(rows)] + Singles(rows[..RowsAlone(answers, old(asked), rows)])
    {
      assert rows[..0] == [] && Singles([]) == [];
      ghost var answer := answers(asked, Batch(rows));
      assert Honest(Batch(rows), answer);
      var outcome := Post(Batch(rows));
      if outcome.Unsupported? {
        ok, sent := PostRows(rows);
        return;
      }
      if outcome.Failed? || outcome.received != Some(|rows|) {
        return false, 0;
      }
      assert RowsOf(Batch(rows)) == rows;
      confirmed := confirmed + rows;
      assert rows[..|rows|] == rows;
      return true, |rows|;
    }

    /** saveAttendance: batches of 1000 in order, up to the first failure. What was confirmed is always a prefix. */
    method SaveAttendance(rows: seq<Row>) returns (ok: bool, ghost sent: nat)
      requires Valid()
      modifies this
      ensures Valid() && committed >= old(committed)
      ensures sent == SaveSent(answers, old(asked), rows)
      ensures confirmed == old(confirmed) + rows[..sent] && (ok <==> sent == |rows|)
      ensures exists end: nat | end <= |rows| ::
        BatchedTo(log, old(|log|), Batched(old(log)), rows, end) && sent <= end && (ok ==> end == |rows|)
    {
      var start := 0;
      SaveStarts(answers, confirmed, asked, rows);
      BatchedStart(log, rows);
      hide SaveSent, BatchSent, BatchAsked, SavedTo, Valid, BatchedTo, Ignores;
      while start < |rows|
        invariant start <= |rows| && Valid() && committed >= old(committed)
        invariant SavedTo(answers, old(confirmed), old(asked), rows, start, asked, confirmed)
        invariant BatchedTo(log, old(|log|), Batched(old(log)), rows, start)
      {
        var end := if start + BATCH_ROWS < |rows| then start + BATCH_ROWS else |rows|;
        SaveGoesOn(answers, old(confirmed), old(asked), rows, start, end, asked, confirmed);
        ghost var more;
        ghost var before, first := log, asked;
        ok, more := PostBatch(rows[start..end]);
        BatchedOn(before, old(|log|), Batched(old(log)), rows, start, end, RowsAlone(answers, first, rows[start..end]));
        if !ok {
          return false, start + more;
        }
        start := end;
      }
      SaveEnds(answers, old(confirmed), old(asked), rows, asked, confirmed);
      ok, sent := true, |rows|;
    }

    /** The attendance part of a data upload. `read` tells whether the body arrived whole and within its
        limit; lines that make no row can never be stored and are dropped. Exactly the uploads that were
        not read, and hold rows, are acknowledged without being stored. */
    method HandleUpload(upload: string, read: bool, ta: bool, parse: string -> Option<Row>) returns (reply: Reply)
      requires Valid()
      modifies this
      ensures Valid() && committed >= old(committed)
      ensures read ==> var rows := Uploaded(upload, parse);
        confirmed == old(confirmed) + rows[..SaveSent(answers, old(asked), rows)]
      ensures reply.OK? <==>
        !read || SaveSent(answers, old(asked), Uploaded(upload, parse)) == |Uploaded(upload, parse)|
      ensures old(confirmed) <= confirmed <= old(confirmed) + Uploaded(upload, parse)
      ensures reply.OK? <==> !read || confirmed == old(confirmed) + Uploaded(upload, parse)
      ensures reply.OK? ==>
        (confirmed == old(confirmed) + Uploaded(upload, parse) <==> read || Uploaded(upload, parse) == [])
      ensures !read ==> confirmed == old(confirmed) && committed == old(committed)
      ensures read && reply.OK? ==>
        && (forall r | r in Uploaded(upload, parse) :: r in committed)
        && reply.accepted == if ta then Some(|Uploaded(upload, parse)|) else None
    {
      if !read {
        return OK(None);
      }
      var rows := ParseRows(upload, parse);
      var ok;
      ghost var sent;
      ok, sent := SaveAttendance(rows);
      assert sent == |rows| ==> rows[..sent] == rows;
      assert old(confirmed) + rows == old(confirmed) + rows[..sent] + rows[sent..];
      if !ok {
        return Unavailable;
      }
      reply := OK(if ta then Some(|rows|) else None);
    }
  }

  /** The rows of an upload. */
  function Uploaded(upload: string, parse: string -> Option<Row>): seq<Row> {
    ReadRows(Split(TrimSpace(upload), '\n'), parse)
  }

  /** A row that no cloud has ever confirmed, acknowledged because the upload broke off. */
  method AnUnreadUpload() returns (cloud: Cloud, upload: string, parse: string -> Option<Row>, reply: Reply)
    ensures Uploaded(upload, parse) != [] && reply.OK?
    ensures cloud.confirmed == [] && cloud.committed == {}
  {
    cloud := new Cloud((k, request) => Answer(false, 0, false, false, false, None, {}));
    upload, parse := "7", line => Some(Row("", line, "", 0, 0, 0));
    TrimNothing(upload);
    SplitNone(upload, '\n');
    assert [upload][..0] == [] && ReadRows([], parse) == [];
    reply := cloud.HandleUpload(upload, false, false, parse);
  }

  /** A cloud that accepts every batch, counts no row and commits none: the scanner is told to keep the row. */
  method AShortCount() returns (cloud: Cloud, upload: string, parse: string -> Option<Row>, reply: Reply)
    ensures Uploaded(upload, parse) != [] && reply == Unavailable
    ensures forall k: nat, rows :: Read(cloud.answers(k, Batch(rows))) == Accepted(Some(0))
    ensures cloud.confirmed == [] && cloud.committed == {}
  {
    var script: Script := (k, request: Request) =>
      if request.Batch? then Answer(true, 200, true, true, false, Some(0), {})
      else Answer(true, 500, false, false, false, None, {});
    cloud := new Cloud(script);
    upload, parse := "7", line => Some(Row("", line, "", 0, 0, 0));
    TrimNothing(upload);
    SplitNone(upload, '\n');
    assert [upload][..0] == [] && ReadRows([], parse) == [];
    ghost var rows := Uploaded(upload, parse);
    assert |rows| == 1 && rows[..1] == rows && SaveSent(cloud.answers, 0, rows) == 0;
    reply := cloud.HandleUpload(upload, true, false, parse);
    assert forall r :: !CommittedBy(script, r);
  }

  function ReadRows(lines: seq<string>, parse: string -> Option<Row>): seq<Row> {
    if lines == [] then []
    else
      var line := TrimSpace(lines[|lines| - 1]);
      ReadRows(lines[..|lines| - 1], parse)
      + if line == "" || parse(line).None? then [] else [parse(line).value]
  }

  /** parseATTLOGRows */
  method ParseRows(body: string, parse: string -> Option<Row>) returns (rows: seq<Row>)
    ensures rows == Uploaded(body, parse)
  {
    rows := [];
    var lines := Split(TrimSpace(body), '\n');
    hide Split, TrimSpace;
    for k := 0 to |lines|
      invariant rows == ReadRows(lines[..k], parse)
    {
      assert lines[..k + 1][..k] == lines[..k];
      var line := TrimSpace(lines[k]);
      if line == "" {
        continue;
      }
      var row := parse(line);
      if row.None? {
        continue;
      }
      rows := rows + [row.value];
    }
    assert lines[..|lines|] == lines;
  }
}
