/** The per-packet timing table `tempos_processamento`: a record is opened on the first
    send attempt of a packet and completed when the packet is acknowledged. */
module Metrics {
  import opened Packets

  /** The entries "inicio" and "espera", and, once acknowledged, "fim" and "duracao". */
  datatype Record = Record(start: int, wait: int, finish: Option<int>, duration: Option<int>)

  /** A record as the simulation keeps it: started no earlier than the packet was created,
      `wait = start - created`, and, once finished, `duration = finish - start`, with no
      reading later than the clock `now`. */
  predicate Consistent(r: Record, created: int, now: int)
  {
    && created <= r.start <= now
    && r.wait == r.start - created
    && (r.finish.Some? <==> r.duration.Some?)
    && (r.finish.Some? ==> r.start <= r.finish.value <= now && r.duration.value == r.finish.value - r.start)
  }

  /** Lines 45-50: the record is created only if the id has none yet. */
  function OpenRecord(records: map<int, Record>, id: int, now: int, created: int): (r: map<int, Record>)
    ensures r.Keys == records.Keys + {id}
    ensures id in records ==> r == records
    ensures id !in records ==> r[id] == Record(now, now - created, None, None)
    ensures forall other | other in records && other != id :: r[other] == records[other]
  {
    if id in records then records else records[id := Record(now, now - created, None, None)]
  }

  /** Lines 62-67: the end time and the duration since the first attempt are filled in. */
  function CloseRecord(records: map<int, Record>, id: int, now: int): (r: map<int, Record>)
    requires id in records
    ensures r.Keys == records.Keys
    ensures r[id].start == records[id].start && r[id].wait == records[id].wait
    ensures r[id].finish == Some(now) && r[id].duration == Some(now - records[id].start)
    ensures forall other | other in records && other != id :: r[other] == records[other]
  {
    records[id := records[id].(finish := Some(now), duration := Some(now - records[id].start))]
  }

  /** A retry re-runs the opening step; it never overwrites the first attempt's start
      and wait, whatever the clock reads by then. */
  lemma RetryKeepsFirstAttempt(records: map<int, Record>, id: int, first: int, later: int, created: int)
    ensures var once := OpenRecord(records, id, first, created);
      && OpenRecord(once, id, later, created) == once
      && (id !in records ==> once[id].start == first && once[id].wait == first - created)
  {
  }

  /** Opening and then closing at a later reading keeps the record consistent, and the
      measured values are never negative. */
  lemma OpenThenCloseConsistent(records: map<int, Record>, id: int, created: int, first: int, ack: int)
    requires id !in records
    requires created <= first <= ack
    ensures var r := CloseRecord(OpenRecord(records, id, first, created), id, ack)[id];
      && Consistent(r, created, ack)
      && r.wait == first - created >= 0
      && r.duration == Some(ack - first) && ack - first >= 0
  {
  }

  /** A consistent record never shows a negative wait or duration. */
  lemma ConsistentIsNonNegative(r: Record, created: int, now: int)
    requires Consistent(r, created, now)
    ensures r.wait >= 0
    ensures r.duration.Some? ==> r.duration.value >= 0
  {
  }

  /** One line of the closing summary: `tempos.get("duracao", 0)` and `tempos.get("espera", 0)`. */
  function DurationOrZero(r: Record): (d: int)
    ensures r.duration.Some? ==> d == r.duration.value
    ensures r.duration.None? ==> d == 0
  {
    match r.duration
    case Some(d) => d
    case None => 0
  }

  predicate Ascending(ids: seq<int>)
  {
    forall i, j :: 0 <= i < j < |ids| ==> ids[i] < ids[j]
  }

  /** Puts `x` into an ascending list of ids, keeping it ascending. */
  function InsertAscending(x: int, ids: seq<int>): (r: seq<int>)
    requires Ascending(ids) && x !in ids
    ensures Ascending(r)
    ensures forall y :: y in r <==> y == x || y in ids
    ensures |r| == |ids| + 1
  {
    if ids == [] || x < ids[0] then [x] + ids
    else
      var rest := InsertAscending(x, ids[1..]);
      assert forall y :: y in ids <==> y == ids[0] || y in ids[1..] by {
        assert ids == [ids[0]] + ids[1..];
      }
      forall j | 0 <= j < |rest| ensures ids[0] < rest[j] {
        assert rest[j] in rest;
        if rest[j] != x {
          var k :| 0 <= k < |ids[1..]| && ids[1..][k] == rest[j];
          assert ids[k + 1] == rest[j];
        }
      }
      [ids[0]] + rest
  }

  /** `sorted(tempos_processamento.items())`: the table's ids, which a Python dict holds in
      the order they were first inserted, in ascending order. */
  function SortedKeys(insertionOrder: seq<int>): (ids: seq<int>)
    requires Distinct(insertionOrder)
    ensures Ascending(ids)
    ensures |ids| == |insertionOrder|
    ensures forall id :: id in ids <==> id in insertionOrder
  {
    if insertionOrder == [] then []
    else
      var rest := insertionOrder[1..];
      assert insertionOrder[0] !in rest;
      assert forall id :: id in insertionOrder <==> id == insertionOrder[0] || id in rest by {
        assert insertionOrder == [insertionOrder[0]] + rest;
      }
      InsertAscending(insertionOrder[0], SortedKeys(rest))
  }

  /** The ids 1, 2, ..., n in this order. */
  function Range(n: nat): (ids: seq<int>)
    ensures |ids| == n && forall i :: 0 <= i < n ==> ids[i] == i + 1
  {
    seq(n, i => i + 1)
  }

  /** Ids 1..n listed in ascending order are exactly 1, 2, ..., n. */
  lemma {:induction false} AscendingRange(ids: seq<int>, n: nat)
    requires Ascending(ids)
    requires forall id :: id in ids <==> 1 <= id <= n
    ensures ids == Range(n)
  {
    if ids == [] {
      assert 1 !in ids;
    } else {
      var last := |ids| - 1;
      assert ids[last] in ids;
      assert n in ids;
      var k :| 0 <= k < |ids| && ids[k] == n;
      assert ids[last] == n;
      var init := ids[..last];
      forall id ensures id in init <==> 1 <= id <= n - 1 {
        if id in init {
          var j :| 0 <= j < last && init[j] == id;
          assert ids[j] < ids[last];
          assert ids[j] in ids;
        }
        if 1 <= id <= n - 1 {
          assert id in ids;
          var j :| 0 <= j < |ids| && ids[j] == id;
          assert ids[j] != ids[last];
          assert init[j] == id;
        }
      }
      AscendingRange(init, n - 1);
      assert ids == init + [n];
    }
  }
}
