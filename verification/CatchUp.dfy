/** Catching up with the transactions of a ZKBioTime server from a durable cursor. */
module CatchUp {
  import opened Identifiers
  import opened Sets

  const MAX_SAFE_INTEGER := 9_007_199_254_740_991

  datatype RawID = Missing | NotANumber | Number(value: real)

  datatype Row = Row(raw: RawID, data: string)

  /** zkbioTransactionID: a positive whole number that JSON carries exactly. */
  function TransactionID(row: Row): Option<int> {
    if row.raw.Number? && row.raw.value > 0.0 && row.raw.value == row.raw.value.Floor as real
       && row.raw.value <= MAX_SAFE_INTEGER as real
    then Some(row.raw.value.Floor) else None
  }

  /** The ids are exactly the whole numbers from 1 to 2^53 - 1. */
  lemma IDsAreSafe(row: Row, n: int)
    ensures TransactionID(row) == Some(n) <==> row.raw == Number(n as real) && 1 <= n <= 9_007_199_254_740_991
  {}

  predicate Valid(rows: seq<Row>) { forall k | 0 <= k < |rows| :: TransactionID(rows[k]).Some? }

  function ID(row: Row): int
    requires TransactionID(row).Some?
  {
    TransactionID(row).value
  }

  ghost predicate Sorted(rows: seq<Row>)
    requires Valid(rows)
  {
    forall a, b | 0 <= a < b < |rows| :: ID(rows[a]) <= ID(rows[b])
  }

  function Above(rows: seq<Row>, cursor: int): seq<Row>
    requires Valid(rows)
  {
    if rows == [] then []
    else Above(rows[..|rows| - 1], cursor) + if ID(rows[|rows| - 1]) > cursor then [rows[|rows| - 1]] else []
  }

  function LastID(rows: seq<Row>, cursor: int): int
    requires Valid(rows)
  {
    if rows == [] then cursor else ID(rows[|rows| - 1])
  }

  lemma {:induction false} AboveMembers(rows: seq<Row>, cursor: int)
    requires Valid(rows)
    ensures Valid(Above(rows, cursor))
    ensures forall r :: r in Above(rows, cursor) <==> r in rows && TransactionID(r).Some? && ID(r) > cursor
  {
    if rows != [] {
      AboveMembers(rows[..|rows| - 1], cursor);
      assert rows == rows[..|rows| - 1] + [rows[|rows| - 1]];
    }
  }

  lemma LastCounts<T>(front: seq<T>, last: T, x: T)
    ensures multiset(front + [last])[x] == multiset(front)[x] + if x == last then 1 else 0
  {}

  /** Rows above the cursor are kept as often as they are there. */
  lemma {:induction false} AboveKeepsAll(rows: seq<Row>, cursor: int, row: Row)
    requires Valid(rows)
    ensures multiset(Above(rows, cursor))[row]
      == if TransactionID(row).Some? && ID(row) > cursor then multiset(rows)[row] else 0
  {
    if rows != [] {
      var front, last := rows[..|rows| - 1], rows[|rows| - 1];
      var above := Above(front, cursor);
      assert rows == front + [last];
      assert above + [] == above;
      assert Above(rows, cursor) == if ID(last) > cursor then above + [last] else above;
      AboveKeepsAll(front, cursor, row);
      LastCounts(front, last, row);
      LastCounts(above, last, row);
      hide TransactionID, Above;
    }
  }

  /** batch is what a page has above the cursor, in order. */
  ghost predicate Prepared(rows: seq<Row>, cursor: int, batch: seq<Row>) {
    Valid(rows) && Valid(batch) && Sorted(batch) && multiset(batch) == multiset(Above(rows, cursor))
  }

  /** One row put into its place among sorted ones, after those with the same id. */
  function Insert(sorted: seq<Row>, row: Row): seq<Row>
    requires Valid(sorted) && TransactionID(row).Some?
  {
    if sorted == [] || ID(sorted[|sorted| - 1]) <= ID(row) then sorted + [row]
    else Insert(sorted[..|sorted| - 1], row) + [sorted[|sorted| - 1]]
  }

  lemma {:induction false} InsertMembers(sorted: seq<Row>, row: Row)
    requires Valid(sorted) && TransactionID(row).Some?
    ensures multiset(Insert(sorted, row)) == multiset(sorted) + multiset{row}
    ensures Valid(Insert(sorted, row))
    ensures forall r | r in Insert(sorted, row) :: r in sorted || r == row
  {
    hide TransactionID;
    if sorted != [] && ID(sorted[|sorted| - 1]) > ID(row) {
      var rest, last := sorted[..|sorted| - 1], sorted[|sorted| - 1];
      InsertMembers(rest, row);
      assert sorted == rest + [last];
    }
  }

  lemma {:induction false} InsertSorts(sorted: seq<Row>, row: Row)
    requires Valid(sorted) && TransactionID(row).Some? && Sorted(sorted)
    ensures Valid(Insert(sorted, row)) && Sorted(Insert(sorted, row))
  {
    InsertMembers(sorted, row);
    hide TransactionID;
    if sorted != [] && ID(sorted[|sorted| - 1]) > ID(row) {
      var rest, last := sorted[..|sorted| - 1], sorted[|sorted| - 1];
      InsertSorts(rest, row);
      InsertMembers(rest, row);
      var more := Insert(rest, row);
      forall k | 0 <= k < |more| ensures ID(more[k]) <= ID(last) {
        assert more[k] in more;
      }
    }
  }

  /** prepareZKBioTimeBatch */
  method PrepareBatch(rows: seq<Row>, cursor: int) returns (newer: seq<Row>, next: int, ok: bool)
    ensures ok <==> Valid(rows)
    ensures ok ==> Prepared(rows, cursor, newer) && next == LastID(newer, cursor)
    ensures !ok ==> newer == [] && next == cursor
  {
    var found := [];
    for k := 0 to |rows|
      invariant Valid(rows[..k]) && found == Above(rows[..k], cursor)
    {
      assert rows[..k + 1][..k] == rows[..k];
      var id := TransactionID(rows[k]);
      if id.None? {
        return [], cursor, false;
      }
      if id.value > cursor {
        found := found + [rows[k]];
      }
    }
    assert rows[..|rows|] == rows;
    AboveMembers(rows, cursor);
    newer := SortByID(found);
    if |newer| == 0 {
      return newer, cursor, true;
    }
    next, ok := TransactionID(newer[|newer| - 1]).value, true;
  }

  method SortByID(rows: seq<Row>) returns (sorted: seq<Row>)
    requires Valid(rows)
    ensures Valid(sorted) && Sorted(sorted) && multiset(sorted) == multiset(rows)
  {
    sorted := [];
    for k := 0 to |rows|
      invariant Valid(sorted) && Sorted(sorted) && multiset(sorted) == multiset(rows[..k])
    {
      assert rows[..k + 1] == rows[..k] + [rows[k]];
      InsertMembers(sorted, rows[k]);
      InsertSorts(sorted, rows[k]);
      sorted := Insert(sorted, rows[k]);
    }
    assert rows[..|rows|] == rows;
  }

  // ---------- one catch-up ----------

  /** What the two servers do in one round: a page or a failure, and whether the relay is acknowledged. */
  datatype Round = Round(page: Option<seq<Row>>, relayed: bool)

  /** A batch that the bridge acknowledged, and the cursor it was fetched after. */
  datatype Ack = Ack(after: int, rows: seq<Row>)

  ghost predicate IsBatch(a: Ack) {
    && a.rows != [] && Valid(a.rows) && Sorted(a.rows)
    && forall k | 0 <= k < |a.rows| :: ID(a.rows[k]) > a.after
  }

  /** Each batch starts where the one before it ended. */
  ghost predicate Chain(from: int, acks: seq<Ack>, to: int) {
    if acks == [] then to == from
    else
      var last := acks[|acks| - 1];
      IsBatch(last) && to == LastID(last.rows, 0) && Chain(from, acks[..|acks| - 1], last.after)
  }

  /** The acknowledged batches are what the rounds delivered, one round each. */
  ghost predicate Delivered(env: nat -> Round, acks: seq<Ack>) {
    forall k | 0 <= k < |acks| ::
      env(k).page.Some? && env(k).relayed && Prepared(env(k).page.value, acks[k].after, acks[k].rows)
  }

  /** Why it stopped: nothing new, or a failure. */
  ghost predicate Stops(round: Round, cursor: int, ok: bool) {
    if ok then round.page.Some? && Prepared(round.page.value, cursor, [])
    else round.page.None? || !Valid(round.page.value) || !round.relayed
  }

  lemma PreparedIsBatch(rows: seq<Row>, cursor: int, batch: seq<Row>)
    requires Prepared(rows, cursor, batch) && batch != []
    ensures IsBatch(Ack(cursor, batch))
    ensures cursor < LastID(batch, cursor) <= MAX_SAFE_INTEGER
  {
    AboveMembers(rows, cursor);
    forall k | 0 <= k < |batch| ensures ID(batch[k]) > cursor {
      assert batch[k] in multiset(batch);
      assert batch[k] in Above(rows, cursor);
    }
  }

  lemma ChainMore(from: int, acks: seq<Ack>, to: int, batch: seq<Row>)
    requires Chain(from, acks, to) && IsBatch(Ack(to, batch))
    ensures Chain(from, acks + [Ack(to, batch)], LastID(batch, to))
  {
    assert (acks + [Ack(to, batch)])[..|acks|] == acks;
    hide IsBatch;
  }

  lemma DeliveredMore(env: nat -> Round, acks: seq<Ack>, after: int, batch: seq<Row>)
    requires Delivered(env, acks)
    requires env(|acks|).page.Some? && env(|acks|).relayed && Prepared(env(|acks|).page.value, after, batch)
    ensures Delivered(env, acks + [Ack(after, batch)])
  {
    hide Prepared;
  }

  /** A round of the source held nothing new above the cursor. */
  ghost predicate CaughtUp(env: nat -> Round, cursor: int) {
    exists round: nat :: env(round).page.Some? && Prepared(env(round).page.value, cursor, [])
  }

  /** catchUpZKBioTimeTransactions. It ends whatever the source does, because ids are bounded. */
  method CatchUpTransactions(env: nat -> Round, start: int) returns (cursor: int, ok: bool, ghost acks: seq<Ack>)
    ensures Chain(start, acks, cursor) && Delivered(env, acks)
    ensures Stops(env(|acks|), cursor, ok)
    ensures start <= cursor && (ok ==> CaughtUp(env, cursor))
  {
    cursor, acks := start, [];
    var round: nat := 0;
    assert Chain(start, acks, cursor) && Delivered(env, acks);
    hide Prepared, IsBatch, Sorted, Above, TransactionID, Chain, Delivered, LastID;
    while true
      invariant round == |acks|
      invariant Chain(start, acks, cursor) && Delivered(env, acks) && start <= cursor
      decreases if cursor <= MAX_SAFE_INTEGER then MAX_SAFE_INTEGER - cursor else 0
    {
      var answer := env(round);
      if answer.page.None? {
        return cursor, false, acks;
      }
      var batch, next, valid := PrepareBatch(answer.page.value, cursor);
      if !valid {
        return cursor, false, acks;
      }
      if |batch| == 0 {
        assert batch == [];
        return cursor, true, acks;
      }
      if !answer.relayed {
        return cursor, false, acks;
      }
      PreparedIsBatch(answer.page.value, cursor, batch);
      ChainMore(start, acks, cursor, batch);
      DeliveredMore(env, acks, cursor, batch);
      acks := acks + [Ack(cursor, batch)];
      cursor, round := next, round + 1;
    }
  }

  // ---------- the poller ----------

  class Poller {
    var cursor: int
    var cursorLoaded: bool

    constructor ()
      ensures !cursorLoaded
    {
      cursor, cursorLoaded := 0, false;
    }

    /** pollOnce: the cursor moves only when a whole catch-up succeeded. */
    method PollOnce(checkpoint: Option<int>, env: nat -> Round)
      returns (ok: bool, ghost acks: seq<Ack>, ghost reached: int)
      modifies this
      ensures !old(cursorLoaded) && checkpoint.None? ==> !cursorLoaded && cursor == old(cursor) && acks == [] && !ok
      ensures old(cursorLoaded) || checkpoint.Some? ==>
        var start := if old(cursorLoaded) then old(cursor) else checkpoint.value;
        && cursorLoaded
        && Chain(start, acks, reached) && Delivered(env, acks) && Stops(env(|acks|), reached, ok)
        && cursor == if ok then reached else start
    {
      if !cursorLoaded {
        if checkpoint.None? {
          return false, [], cursor;
        }
        cursor := checkpoint.value;
        cursorLoaded := true;
      }
      var next;
      next, ok, acks := CatchUpTransactions(env, cursor);
      reached := next;
      if ok {
        cursor := next;
      }
    }
  }

  // ---------- over every run of polls ----------

  /** One poll with a loaded cursor. */
  datatype Poll = Poll(acks: seq<Ack>, reached: int, ok: bool)

  function CursorAfter(first: int, polls: seq<Poll>): int {
    if polls == [] then first
    else if polls[|polls| - 1].ok then polls[|polls| - 1].reached
    else CursorAfter(first, polls[..|polls| - 1])
  }

  ghost predicate Polled(first: int, polls: seq<Poll>) {
    forall k | 0 <= k < |polls| :: Chain(CursorAfter(first, polls[..k]), polls[k].acks, polls[k].reached)
  }

  /** The id was in a batch that the bridge acknowledged. */
  ghost predicate Acknowledged(polls: seq<Poll>, id: int) {
    exists p, b, k :: InBatch(polls, p, b, k, id)
  }

  ghost predicate InBatch(polls: seq<Poll>, p: int, b: int, k: int, id: int) {
    0 <= p < |polls| && 0 <= b < |polls[p].acks| && 0 <= k < |polls[p].acks[b].rows|
    && TransactionID(polls[p].acks[b].rows[k]) == Some(id)
  }

  /** A page without holes: every id of the source above `after`, up to the last one on the page, is on it. */
  ghost predicate WithoutHoles(source: set<int>, a: Ack) {
    Valid(a.rows) && forall id | id in source && a.after < id <= LastID(a.rows, a.after) ::
      exists k | 0 <= k < |a.rows| :: ID(a.rows[k]) == id
  }

  /** The source only gets ids above all it had. */
  ghost predicate AppendOnly(before: set<int>, after: set<int>) {
    before <= after && forall x, y | x in before && y in after - before :: x < y
  }

  /** A page that was complete when it was fetched stays complete. */
  lemma PagesStayComplete(earlier: set<int>, later: set<int>, a: Ack)
    requires a.rows != [] && WithoutHoles(earlier, a) && AppendOnly(earlier, later)
    requires LastID(a.rows, 0) in earlier
    ensures WithoutHoles(later, a)
  {
    assert LastID(a.rows, 0) == LastID(a.rows, a.after);
    assert forall y | y in later - earlier :: LastID(a.rows, 0) < y;
    assert forall y | y in later && y !in earlier :: y in later - earlier;
  }

  ghost predicate InAcks(acks: seq<Ack>, id: int) { exists b, k :: IsAt(acks, b, k, id) }

  ghost predicate IsAt(acks: seq<Ack>, b: int, k: int, id: int) {
    0 <= b < |acks| && 0 <= k < |acks[b].rows| && TransactionID(acks[b].rows[k]) == Some(id)
  }

  lemma {:induction false} ChainCovers(source: set<int>, from: int, acks: seq<Ack>, to: int, id: int)
    requires Chain(from, acks, to) && forall k | 0 <= k < |acks| :: WithoutHoles(source, acks[k])
    requires id in source && from < id <= to
    ensures InAcks(acks, id)
    decreases |acks|
  {
    if acks != [] {
      var last := acks[|acks| - 1];
      if id > last.after {
        assert WithoutHoles(source, last);
        var k :| 0 <= k < |last.rows| && ID(last.rows[k]) == id;
        assert IsAt(acks, |acks| - 1, k, id);
      } else {
        var rest := acks[..|acks| - 1];
        forall k | 0 <= k < |rest| ensures WithoutHoles(source, rest[k]) { assert rest[k] == acks[k]; }
        ChainCovers(source, from, rest, last.after, id);
        var b, k :| IsAt(rest, b, k, id);
        assert IsAt(acks, b, k, id);
      }
    }
  }

  lemma {:induction false} ChainRises(from: int, acks: seq<Ack>, to: int)
    requires Chain(from, acks, to)
    ensures from <= to && (acks != [] ==> from < to)
    decreases |acks|
  {
    if acks != [] { ChainRises(from, acks[..|acks| - 1], acks[|acks| - 1].after); }
  }

  lemma EarlierAcknowledged(polls: seq<Poll>, id: int)
    requires polls != [] && Acknowledged(polls[..|polls| - 1], id)
    ensures Acknowledged(polls, id)
  {
    var p, b, k :| InBatch(polls[..|polls| - 1], p, b, k, id);
    assert InBatch(polls, p, b, k, id);
  }

  /** The cursor never goes back and never passes what was acknowledged. */
  lemma {:induction false} CursorIsAcknowledged(first: int, polls: seq<Poll>)
    requires Polled(first, polls)
    ensures CursorAfter(first, polls) >= first
    ensures CursorAfter(first, polls) == first || Acknowledged(polls, CursorAfter(first, polls))
    decreases |polls|
  {
    if polls != [] {
      var rest, last := polls[..|polls| - 1], polls[|polls| - 1];
      forall k | 0 <= k < |rest| ensures Chain(CursorAfter(first, rest[..k]), rest[k].acks, rest[k].reached) {
        assert rest[..k] == polls[..k];
      }
      CursorIsAcknowledged(first, rest);
      assert Chain(CursorAfter(first, rest), last.acks, last.reached);
      ChainRises(CursorAfter(first, rest), last.acks, last.reached);
      if last.ok && last.acks != [] {
        var b := |last.acks| - 1;
        assert InBatch(polls, |polls| - 1, b, |last.acks[b].rows| - 1, last.reached);
      } else if Acknowledged(rest, CursorAfter(first, rest)) {
        EarlierAcknowledged(polls, CursorAfter(first, rest));
      }
    }
  }

  /** No id is skipped, once the acknowledged batches are known to have no holes in a source. */
  lemma {:induction false} CompleteBatchesSkipNothing(first: int, polls: seq<Poll>, source: set<int>, id: int)
    requires Polled(first, polls)
    requires forall p, b | 0 <= p < |polls| && 0 <= b < |polls[p].acks| :: WithoutHoles(source, polls[p].acks[b])
    requires id in source && first < id <= CursorAfter(first, polls)
    ensures Acknowledged(polls, id)
    decreases |polls|
  {
    if polls != [] {
      var rest, last := polls[..|polls| - 1], polls[|polls| - 1];
      var from := CursorAfter(first, rest);
      if last.ok && id > from {
        assert Chain(from, last.acks, last.reached);
        ChainCovers(source, from, last.acks, last.reached, id);
        var b, k :| IsAt(last.acks, b, k, id);
        assert InBatch(polls, |polls| - 1, b, k, id);
      } else {
        forall k | 0 <= k < |rest| ensures Chain(CursorAfter(first, rest[..k]), rest[k].acks, rest[k].reached) {
          assert rest[..k] == polls[..k];
        }
        CompleteBatchesSkipNothing(first, rest, source, id);
        EarlierAcknowledged(polls, id);
      }
    }
  }

  // ---------- a frozen source ----------

  function Remaining(source: set<int>, cursor: int): set<int> { set id | id in source && id > cursor }

  /** A page of a frozen source: some of its ids above the cursor, in order and without holes, and none
      only if there are none. */
  ghost predicate PageOf(source: set<int>, cursor: int, page: seq<Row>) {
    && Valid(page)
    && (forall k | 0 <= k < |page| :: ID(page[k]) in source && ID(page[k]) > cursor)
    && (forall a, b | 0 <= a < b < |page| :: ID(page[a]) < ID(page[b]))
    && (page == [] ==> Remaining(source, cursor) == {})
    && WithoutHoles(source, Ack(cursor, page))
  }

  ghost predicate FromSource(source: set<int>, a: Ack) { IsBatch(a) && LastID(a.rows, 0) in source }

  /** On a frozen source the ids above the cursor are used up: there are at most as many batches. */
  lemma {:induction false} FrozenSourceRunsOut(source: set<int>, from: int, acks: seq<Ack>, to: int)
    requires Chain(from, acks, to) && forall k | 0 <= k < |acks| :: FromSource(source, acks[k])
    ensures |acks| + |Remaining(source, to)| <= |Remaining(source, from)|
    decreases |acks|
  {
    if acks != [] {
      var rest, last := acks[..|acks| - 1], acks[|acks| - 1];
      forall k | 0 <= k < |rest| ensures FromSource(source, rest[k]) { assert rest[k] == acks[k]; }
      FrozenSourceRunsOut(source, from, rest, last.after);
      assert FromSource(source, last);
      assert to in Remaining(source, last.after) - Remaining(source, to);
      SubsetSmaller(Remaining(source, to), Remaining(source, last.after));
    }
  }

  /** What is prepared from a page of the source. */
  lemma BatchOfPage(source: set<int>, cursor: int, page: seq<Row>, batch: seq<Row>)
    requires PageOf(source, cursor, page) && Prepared(page, cursor, batch)
    ensures WithoutHoles(source, Ack(cursor, batch))
    ensures batch != [] ==> FromSource(source, Ack(cursor, batch))
    ensures batch == [] ==> Remaining(source, cursor) == {}
  {
    SameMembers(page, cursor, batch);
    hide TransactionID;
    assert forall k | 0 <= k < |page| :: page[k] in page;
    if batch != [] {
      PreparedIsBatch(page, cursor, batch);
      LastOfPage(source, cursor, page, batch);
      BatchHasNoHoles(source, cursor, page, batch);
    }
  }

  lemma LastOfPage(source: set<int>, cursor: int, page: seq<Row>, batch: seq<Row>)
    requires PageOf(source, cursor, page) && Valid(batch) && batch != [] && forall r :: r in batch <==> r in page
    ensures page != [] && LastID(batch, 0) in source && LastID(batch, 0) <= LastID(page, 0)
  {
    hide TransactionID, WithoutHoles;
    assert batch[|batch| - 1] in batch;
    var k :| 0 <= k < |page| && page[k] == batch[|batch| - 1];
  }

  lemma BatchHasNoHoles(source: set<int>, cursor: int, page: seq<Row>, batch: seq<Row>)
    requires PageOf(source, cursor, page) && Valid(batch) && batch != [] && forall r :: r in batch <==> r in page
    ensures WithoutHoles(source, Ack(cursor, batch))
  {
    LastOfPage(source, cursor, page, batch);
    hide TransactionID;
    forall id | id in source && cursor < id <= LastID(batch, cursor)
      ensures exists j | 0 <= j < |batch| :: ID(batch[j]) == id {
      var i :| 0 <= i < |page| && ID(page[i]) == id;
      assert page[i] in batch;
    }
  }

  lemma SameMembers(page: seq<Row>, cursor: int, batch: seq<Row>)
    requires Prepared(page, cursor, batch) && forall k | 0 <= k < |page| :: ID(page[k]) > cursor
    ensures forall r :: r in batch <==> r in page
  {
    AboveMembers(page, cursor);
    forall r ensures r in batch <==> r in page {
      assert r in batch <==> r in multiset(batch);
      assert r in Above(page, cursor) <==> r in multiset(Above(page, cursor));
    }
  }

  /** What the rounds delivered from a frozen source has no holes in it. */
  lemma FrozenBatches(source: set<int>, env: nat -> Round, from: int, acks: seq<Ack>, to: int)
    requires Chain(from, acks, to) && Delivered(env, acks)
    requires forall k | 0 <= k < |acks| :: PageOf(source, acks[k].after, env(k).page.value)
    ensures forall k | 0 <= k < |acks| :: WithoutHoles(source, acks[k])
    ensures |acks| <= |Remaining(source, from)|
  {
    ChainBatches(from, acks, to);
    forall k | 0 <= k < |acks| ensures WithoutHoles(source, acks[k]) && FromSource(source, acks[k]) {
      BatchOfPage(source, acks[k].after, env(k).page.value, acks[k].rows);
    }
    FrozenSourceRunsOut(source, from, acks, to);
  }

  /** On a frozen source a catch-up that succeeds has delivered everything above the cursor, in no more
      batches than there were ids. */
  lemma FrozenSourceIsDelivered(source: set<int>, env: nat -> Round, from: int, acks: seq<Ack>, to: int)
    requires Chain(from, acks, to) && Delivered(env, acks) && Stops(env(|acks|), to, true)
    requires forall k | 0 <= k < |acks| :: PageOf(source, acks[k].after, env(k).page.value)
    requires PageOf(source, to, env(|acks|).page.value)
    ensures |acks| <= |Remaining(source, from)|
    ensures forall id | id in source && id > from :: InAcks(acks, id)
  {
    FrozenBatches(source, env, from, acks, to);
    BatchOfPage(source, to, env(|acks|).page.value, []);
    forall id | id in source && id > from ensures InAcks(acks, id) {
      assert id !in Remaining(source, to);
      ChainCovers(source, from, acks, to, id);
    }
  }

  /** On a frozen source whose every page arrives and is relayed, a catch-up ends with success and with
      everything above the cursor delivered. */
  lemma FrozenSourceCatchesUp(source: set<int>, env: nat -> Round, from: int, acks: seq<Ack>, to: int, ok: bool)
    requires Chain(from, acks, to) && Delivered(env, acks) && Stops(env(|acks|), to, ok)
    requires forall k: nat | k <= |acks| :: env(k).page.Some? && env(k).relayed
    requires forall k | 0 <= k < |acks| :: PageOf(source, acks[k].after, env(k).page.value)
    requires PageOf(source, to, env(|acks|).page.value)
    ensures ok && |acks| <= |Remaining(source, from)|
    ensures forall id | id in source && id > from :: InAcks(acks, id)
  {
    assert Valid(env(|acks|).page.value);
    hide PageOf, Chain, Delivered, InAcks;
    FrozenSourceIsDelivered(source, env, from, acks, to);
  }

  lemma {:induction false} ChainBatches(from: int, acks: seq<Ack>, to: int)
    requires Chain(from, acks, to)
    ensures forall k | 0 <= k < |acks| :: IsBatch(acks[k])
    decreases |acks|
  {
    if acks != [] {
      var rest := acks[..|acks| - 1];
      ChainBatches(from, rest, acks[|acks| - 1].after);
      forall k | 0 <= k < |acks| ensures IsBatch(acks[k]) { if k < |rest| { assert acks[k] == rest[k]; } }
    }
  }

  // ---------- a source that grows ----------

  ghost predicate GrowsAt(sources: nat -> set<int>, t: nat) { AppendOnly(sources(t), sources(t + 1)) }

  /** The source at each moment; between two moments it only gets ids above all it had. */
  ghost predicate Grows(sources: nat -> set<int>) { forall t: nat :: GrowsAt(sources, t) }

  lemma AppendsOn(a: set<int>, b: set<int>, c: set<int>)
    requires AppendOnly(a, b) && AppendOnly(b, c)
    ensures AppendOnly(a, c)
  {
    forall x, y | x in a && y in c - a ensures x < y {
      assert y in b ==> y in b - a;
      assert y !in b ==> y in c - b;
    }
  }

  lemma {:induction false} GrowsOn(sources: nat -> set<int>, t: nat, end: nat)
    requires Grows(sources) && t <= end
    ensures AppendOnly(sources(t), sources(end))
    decreases end
  {
    if t < end {
      GrowsOn(sources, t, end - 1);
      assert GrowsAt(sources, end - 1);
      AppendsOn(sources(t), sources(end - 1), sources(end));
    }
  }

  /** The batch was prepared from a page that the source gave at some moment up to `end`. */
  ghost predicate Fetched(sources: nat -> set<int>, end: nat, a: Ack) {
    exists t: nat, page :: t <= end && FetchedAt(sources, t, page, a)
  }

  ghost predicate FetchedAt(sources: nat -> set<int>, t: nat, page: seq<Row>, a: Ack) {
    PageOf(sources(t), a.after, page) && Prepared(page, a.after, a.rows)
  }

  /** The batches of a catch-up whose rounds asked the source at some moments were fetched from it. */
  lemma DeliveredIsFetched(sources: nat -> set<int>, end: nat, times: nat -> nat, env: nat -> Round, acks: seq<Ack>)
    requires Delivered(env, acks)
    requires forall k: nat | k < |acks| ::
      times(k) <= end && PageOf(sources(times(k)), acks[k].after, env(k).page.value)
    ensures forall k | 0 <= k < |acks| :: Fetched(sources, end, acks[k])
  {
    hide PageOf, Prepared;
    forall k: nat | k < |acks| ensures Fetched(sources, end, acks[k]) {
      assert FetchedAt(sources, times(k), env(k).page.value, acks[k]);
    }
  }

  lemma FetchedIsComplete(sources: nat -> set<int>, end: nat, a: Ack)
    requires Grows(sources) && Fetched(sources, end, a) && a.rows != []
    ensures WithoutHoles(sources(end), a)
  {
    var t: nat, page :| t <= end && FetchedAt(sources, t, page, a);
    BatchOfPage(sources(t), a.after, page, a.rows);
    GrowsOn(sources, t, end);
    hide Grows, PageOf, Prepared, WithoutHoles, AppendOnly;
    PagesStayComplete(sources(t), sources(end), a);
  }

  /** Over every run of polls of a growing source, whatever failed in between, every transaction between the
      first checkpoint and the cursor was in a batch that the bridge acknowledged. */
  lemma NothingIsSkipped(sources: nat -> set<int>, end: nat, first: int, polls: seq<Poll>, id: int)
    requires Grows(sources) && Polled(first, polls)
    requires forall p, b | 0 <= p < |polls| && 0 <= b < |polls[p].acks| :: Fetched(sources, end, polls[p].acks[b])
    requires id in sources(end) && first < id <= CursorAfter(first, polls)
    ensures Acknowledged(polls, id)
  {
    hide Fetched, Grows, WithoutHoles;
    forall p, b | 0 <= p < |polls| && 0 <= b < |polls[p].acks| ensures WithoutHoles(sources(end), polls[p].acks[b]) {
      assert Chain(CursorAfter(first, polls[..p]), polls[p].acks, polls[p].reached);
      ChainBatches(CursorAfter(first, polls[..p]), polls[p].acks, polls[p].reached);
      assert IsBatch(polls[p].acks[b]);
      FetchedIsComplete(sources, end, polls[p].acks[b]);
    }
    CompleteBatchesSkipNothing(first, polls, sources(end), id);
  }
}
