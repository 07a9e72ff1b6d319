/** Assembling the packs of multipart query replies under three limits and an expiry. */
module QueryPacks {
  import opened Identifiers
  import opened Sets

  const MAX_BUFFER_BYTES := 8 * 1024 * 1024
  const MAX_TOTAL_BYTES := 32 * 1024 * 1024
  const MAX_BUFFERS := 64
  const TTL := 60_000

  /** Unfinished replies, and when each last grew. */
  datatype Packs = Packs(buffers: map<string, string>, updated: map<string, int>)

  datatype Answer = Rejected | Stored | Complete(bytes: string)

  // ---------- totals ----------

  ghost function Total<K>(m: map<K, string>): nat {
    if m == map[] then 0 else var k :| k in m; |m[k]| + Total(m - {k})
  }

  lemma {:induction false} TotalWithout<K>(m: map<K, string>, k: K)
    requires k in m
    ensures Total(m) == |m[k]| + Total(m - {k})
    decreases m.Keys
  {
    var j :| j in m && Total(m) == |m[j]| + Total(m - {j});
    if j != k {
      TotalWithout(m - {j}, k);
      TotalWithout(m - {k}, j);
      assert m - {j} - {k} == m - {k} - {j};
    }
  }

  lemma TotalWith<K>(m: map<K, string>, k: K, v: string)
    ensures Total(m[k := v]) == Total(m - {k}) + |v|
  {
    TotalWithout(m[k := v], k);
    assert m[k := v] - {k} == m - {k};
  }

  lemma {:induction false} TotalShrinks<K>(m: map<K, string>, n: map<K, string>)
    requires forall k | k in n :: k in m && m[k] == n[k]
    ensures Total(n) <= Total(m)
    decreases m.Keys
  {
    if n != map[] {
      var k :| k in n;
      TotalWithout(m, k);
      TotalWithout(n, k);
      TotalShrinks(m - {k}, n - {k});
    }
  }

  // ---------- one pack ----------

  predicate Expired(packs: Packs, key: string, now: int) {
    key in packs.updated && now - packs.updated[key] >= TTL
  }

  function Alive<V>(m: map<string, V>, packs: Packs, now: int): map<string, V> {
    map k | k in m && !Expired(packs, k, now) :: m[k]
  }

  function Unexpired(packs: Packs, now: int): Packs {
    Packs(Alive(packs.buffers, packs, now), Alive(packs.updated, packs, now))
  }

  function BufferOf(packs: Packs, key: string): string { if key in packs.buffers then packs.buffers[key] else "" }

  function Dropped(packs: Packs, key: string): Packs { Packs(packs.buffers - {key}, packs.updated - {key}) }

  /** collectQueryPack, after the expired replies are gone. */
  ghost function Collect(live: Packs, key: string, body: string, final: bool, now: int): (Packs, Answer) {
    var previous := BufferOf(live, key);
    if |previous| + |body| > MAX_BUFFER_BYTES || Total(live.buffers) + |body| > MAX_TOTAL_BYTES
       || (key !in live.buffers && |live.buffers| >= MAX_BUFFERS) then
      (Dropped(live, key), Rejected)
    else if final then (Dropped(live, key), Complete(previous + body))
    else (Packs(live.buffers[key := previous + body], live.updated[key := now]), Stored)
  }

  ghost predicate Bounded(packs: Packs) {
    && packs.buffers.Keys == packs.updated.Keys
    && |packs.buffers| <= MAX_BUFFERS
    && Total(packs.buffers) <= MAX_TOTAL_BYTES
    && (forall k | k in packs.buffers :: |packs.buffers[k]| <= MAX_BUFFER_BYTES)
  }

  ghost predicate Fresh(packs: Packs, now: int) { forall k | k in packs.buffers :: !Expired(packs, k, now) }

  lemma UnexpiredBounded(packs: Packs, now: int)
    requires Bounded(packs)
    ensures Bounded(Unexpired(packs, now)) && Fresh(Unexpired(packs, now), now)
  {
    var live := Unexpired(packs, now);
    TotalShrinks(packs.buffers, live.buffers);
    SubsetSize(live.buffers.Keys, packs.buffers.Keys);
    assert live.buffers.Keys == live.updated.Keys;
  }

  lemma DroppedBounded(live: Packs, key: string, now: int)
    requires Bounded(live) && Fresh(live, now)
    ensures Bounded(Dropped(live, key)) && Fresh(Dropped(live, key), now)
  {
    TotalShrinks(live.buffers, live.buffers - {key});
    SubsetSize((live.buffers - {key}).Keys, live.buffers.Keys);
  }

  lemma StoredSize(m: map<string, string>, key: string, value: string)
    ensures |m[key := value]| == if key in m then |m| else |m| + 1
  {
    assert m[key := value].Keys == m.Keys + {key};
    assert |m.Keys + {key}| == if key in m then |m.Keys| else |m.Keys| + 1 by {
      if key in m { assert m.Keys + {key} == m.Keys; }
    }
  }

  lemma StoredBounded(live: Packs, key: string, body: string, now: int)
    requires Bounded(live) && Fresh(live, now) && Collect(live, key, body, false, now).1.Stored?
    ensures Bounded(Collect(live, key, body, false, now).0) && Fresh(Collect(live, key, body, false, now).0, now)
  {
    var previous := BufferOf(live, key);
    StoredSize(live.buffers, key, previous + body);
    TotalWith(live.buffers, key, previous + body);
    if key in live.buffers { TotalWithout(live.buffers, key); } else { assert live.buffers - {key} == live.buffers; }
    hide Total;
  }

  /** No limit is ever passed, and nothing past its time is kept. */
  lemma CollectKeepsLimits(packs: Packs, key: string, body: string, final: bool, now: int)
    requires Bounded(packs)
    ensures var after := Collect(Unexpired(packs, now), key, body, final, now).0; Bounded(after) && Fresh(after, now)
  {
    UnexpiredBounded(packs, now);
    var live := Unexpired(packs, now);
    DroppedBounded(live, key, now);
    hide Bounded, Fresh, Unexpired;
    if Collect(live, key, body, final, now).1.Stored? { StoredBounded(live, key, body, now); }
  }

  // ---------- the object ----------

  class Assembler {
    var buffers: map<string, string>
    var updated: map<string, int>

    ghost function View(): Packs
      reads this
    {
      Packs(buffers, updated)
    }

    constructor ()
      ensures View() == Packs(map[], map[])
    {
      buffers, updated := map[], map[];
    }

    /** The first loop: drops what expired and adds up the rest. */
    method Expire(now: int) returns (total: nat)
      requires buffers.Keys == updated.Keys
      modifies this
      ensures View() == Unexpired(old(View()), now)
      ensures total == Total(buffers)
    {
      total := 0;
      var todo := buffers.Keys;
      ghost var before := View();
      ExpireStart(before, now);
      hide SoFar, Expired, Unexpired;
      while todo != {}
        invariant SoFar(before, View(), todo, total, now)
        decreases |todo|
      {
        var key :| key in todo;
        ExpireStep(before, View(), todo, total, now, key);
        if key in updated && now - updated[key] >= TTL {
          buffers := buffers - {key};
          updated := updated - {key};
        } else {
          total := total + |buffers[key]|;
        }
        todo := todo - {key};
      }
      ExpireEnd(before, View(), total, now);
    }

    /** collectQueryPack; a final pack returns the whole reply. */
    method CollectQueryPack(key: string, body: string, final: bool, now: int) returns (answer: Answer)
      requires Bounded(View())
      modifies this
      ensures (View(), answer) == Collect(Unexpired(old(View()), now), key, body, final, now)
      ensures Bounded(View()) && Fresh(View(), now)
    {
      CollectKeepsLimits(View(), key, body, final, now);
      hide Fresh, Unexpired, Total;
      var total := Expire(now);
      var known := key in buffers;
      var previous := if known then buffers[key] else "";
      if |previous| + |body| > MAX_BUFFER_BYTES || total
        + |body| > MAX_TOTAL_BYTES || (!known && |buffers| >= MAX_BUFFERS) {
        buffers := buffers - {key};
        updated := updated - {key};
        return Rejected;
      }
      var buffer := previous + body;
      if final {
        buffers := buffers - {key};
        updated := updated - {key};
        return Complete(buffer);
      }
      buffers := buffers[key := buffer];
      updated := updated[key := now];
      answer := Stored;
    }
  }

  /** The expiry loop has visited all but `todo`. */
  ghost predicate SoFar(before: Packs, packs: Packs, todo: set<string>, total: nat, now: int) {
    && before.buffers.Keys == before.updated.Keys && packs.buffers.Keys == packs.updated.Keys
    && todo <= packs.buffers.Keys
    && (forall k | k in packs.buffers ::
         k in before.buffers && packs.buffers[k] == before.buffers[k] && packs.updated[k] == before.updated[k])
    && (forall k | k in before.buffers :: k in packs.buffers <==> k in todo || !Expired(before, k, now))
    && total == Total(packs.buffers - todo)
  }

  lemma ExpireStart(before: Packs, now: int)
    requires before.buffers.Keys == before.updated.Keys
    ensures SoFar(before, before, before.buffers.Keys, 0, now)
  {
    assert before.buffers - before.buffers.Keys == map[];
  }

  lemma VisitedMore<K>(m: map<K, string>, todo: set<K>, key: K)
    requires key in todo && todo <= m.Keys
    ensures Total(m - (todo - {key})) == Total(m - todo) + |m[key]|
    ensures m - {key} - (todo - {key}) == m - todo
  {
    var n := m - (todo - {key});
    TotalWithout(n, key);
    assert n - {key} == m - todo;
  }

  lemma ExpireStep(before: Packs, packs: Packs, todo: set<string>, total: nat, now: int, key: string)
    requires SoFar(before, packs, todo, total, now) && key in todo
    ensures key in packs.buffers && key in packs.updated
    ensures if now - packs.updated[key] >= TTL then SoFar(before, Dropped(packs, key), todo - {key}, total, now)
            else SoFar(before, packs, todo - {key}, total + |packs.buffers[key]|, now)
  {
    VisitedMore(packs.buffers, todo, key);
    hide Total;
  }

  lemma ExpireEnd(before: Packs, packs: Packs, total: nat, now: int)
    requires SoFar(before, packs, {}, total, now)
    ensures packs == Unexpired(before, now) && total == Total(packs.buffers)
  {
    assert packs.buffers - {} == packs.buffers;
    hide Total;
    var live := Unexpired(before, now);
    assert packs.buffers == live.buffers;
    assert packs.updated == live.updated;
  }

  // ---------- over every run ----------

  datatype Event = Event(key: string, body: string, final: bool, now: int, answer: Answer)

  /** The state after a run of calls, from an empty assembler. */
  ghost predicate Runs(events: seq<Event>, packs: Packs) {
    if events == [] then packs == Packs(map[], map[])
    else
      var e := events[|events| - 1];
      exists before :: Runs(events[..|events| - 1], before)
        && Collect(Unexpired(before, e.now), e.key, e.body, e.final, e.now) == (packs, e.answer)
  }

  datatype Reply = Reply(bytes: string, at: int)

  function Kept(reply: Option<Reply>, now: int): Option<Reply> {
    if reply.Some? && now - reply.value.at >= 60_000 then None else reply
  }

  function BytesOf(reply: Option<Reply>): string { if reply.Some? then reply.value.bytes else "" }

  /** What the answers given to one key, and the times of all calls, say it has gathered. */
  function Gathered(events: seq<Event>, key: string): Option<Reply> {
    if events == [] then None
    else
      var e := events[|events| - 1];
      var before := Kept(Gathered(events[..|events| - 1], key), e.now);
      if e.key != key then before
      else if e.answer.Stored? then Some(Reply(BytesOf(before) + e.body, e.now))
      else None
  }

  function Held(packs: Packs, key: string): Option<Reply> {
    if key in packs.buffers && key in packs.updated then Some(Reply(packs.buffers[key], packs.updated[key])) else None
  }

  lemma KeptHeld(packs: Packs, key: string, now: int)
    requires packs.buffers.Keys == packs.updated.Keys
    ensures Held(Unexpired(packs, now), key) == Kept(Held(packs, key), now)
    ensures BufferOf(Unexpired(packs, now), key) == BytesOf(Kept(Held(packs, key), now))
  {}

  lemma CollectHolds(live: Packs, key: string, body: string, final: bool, now: int, k: string)
    requires live.buffers.Keys == live.updated.Keys
    ensures var (after, answer) := Collect(live, key, body, final, now);
      Held(after, k) ==
        if k != key then Held(live, k)
        else if answer.Stored? then Some(Reply(BufferOf(live, key) + body, now))
        else None
  {
    hide Total;
  }

  lemma {:induction false} RunHolds(events: seq<Event>, packs: Packs, key: string)
    requires Runs(events, packs)
    ensures Bounded(packs)
    ensures Held(packs, key) == Gathered(events, key)
    decreases |events|
  {
    if events != [] {
      var e := events[|events| - 1];
      var rest := events[..|events| - 1];
      var before :| Runs(rest, before)
        && Collect(Unexpired(before, e.now), e.key, e.body, e.final, e.now) == (packs, e.answer);
      hide Total, Collect, Unexpired, Runs;
      RunHolds(rest, before, key);
      CollectKeepsLimits(before, e.key, e.body, e.final, e.now);
      UnexpiredBounded(before, e.now);
      KeptHeld(before, key, e.now);
      CollectHolds(Unexpired(before, e.now), e.key, e.body, e.final, e.now, key);
    }
  }

  /** Over every run of calls: the limits hold, and what is held for each key is exactly what its own
      accepted packs add up to since it was last completed, rejected or expired. */
  lemma EveryKeyGathersItsOwn(events: seq<Event>, packs: Packs)
    requires Runs(events, packs)
    ensures Bounded(packs) && forall key :: Held(packs, key) == Gathered(events, key)
  {
    RunHolds(events, packs, "");
    forall key ensures Held(packs, key) == Gathered(events, key) { RunHolds(events, packs, key); }
  }

  /** A final pack returns the in-order concatenation of the packs accepted for its key, and itself. */
  lemma FinalPackCompletes(events: seq<Event>, packs: Packs, key: string, body: string, now: int)
    requires Runs(events, packs)
    ensures var answer := Collect(Unexpired(packs, now), key, body, true, now).1;
      answer.Complete? ==> answer.bytes == BytesOf(Kept(Gathered(events, key), now)) + body
  {
    RunHolds(events, packs, key);
    KeptHeld(packs, key, now);
    hide Total, Runs, Gathered;
  }

  // ---------- what is accepted ----------

  function KeysOf(events: seq<Event>): set<string> { set e | e in events :: e.key }

  /** What the unfinished replies have gathered, as far as it has not expired. */
  function Unfinished(events: seq<Event>, now: int): map<string, string> {
    map k | k in KeysOf(events) && Kept(Gathered(events, k), now).Some? :: Kept(Gathered(events, k), now).value.bytes
  }

  lemma {:induction false} GatheredKey(events: seq<Event>, key: string)
    requires Gathered(events, key).Some?
    ensures key in KeysOf(events)
    decreases |events|
  {
    var rest := events[..|events| - 1];
    if events[|events| - 1].key == key {
      assert events[|events| - 1] in events;
    } else {
      GatheredKey(rest, key);
      var e :| e in rest && e.key == key;
      assert e in events;
    }
  }

  lemma LiveAt(packs: Packs, events: seq<Event>, key: string, now: int)
    requires Runs(events, packs)
    ensures var live := Unexpired(packs, now).buffers;
      (key in live <==> key in Unfinished(events, now))
      && (key in live ==> live[key] == Unfinished(events, now)[key])
  {
    RunHolds(events, packs, key);
    KeptHeld(packs, key, now);
    if Kept(Gathered(events, key), now).Some? { GatheredKey(events, key); }
    hide Runs, Gathered, KeysOf;
  }

  lemma LiveIsUnfinished(packs: Packs, events: seq<Event>, now: int)
    requires Runs(events, packs)
    ensures Unexpired(packs, now).buffers == Unfinished(events, now)
  {
    hide Runs, Unfinished, Unexpired;
    forall key { LiveAt(packs, events, key, now); }
  }

  /** Over every run of calls: a pack is rejected exactly if its reply would pass 8 MiB, all unfinished replies
      together 32 MiB, or it opens a sixty-fifth one; otherwise a final pack returns what its key has gathered,
      with itself at the end, and any other is stored. */
  lemma PacksAreAcceptedExactly(events: seq<Event>, packs: Packs, key: string, body: string, final: bool, now: int)
    requires Runs(events, packs)
    ensures var answer := Collect(Unexpired(packs, now), key, body, final, now).1;
      var all := Unfinished(events, now);
      var own := if key in all then all[key] else "";
      answer ==
        if |own| + |body| > 8 * 1024 * 1024 || Total(all) + |body| > 32 * 1024 * 1024 || (key !in all && |all| >= 64)
        then Rejected
        else if final then Complete(own + body)
        else Stored
  {
    LiveIsUnfinished(packs, events, now);
    hide Total, Runs, Unfinished, Unexpired;
  }
}
